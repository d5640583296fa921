# AI Markdown Manager: the plan-and-execute core in Dafny

AI Markdown Manager is a chat assistant that keeps one Markdown document
per session. Each user instruction goes through a small graph:

1. A **planner** asks a language model for a JSON list of steps of the
   form `{"tool_name", "args"}`.
2. An **executor** pops the front step, looks its tool up in a five-tool
   registry, injects the live document into the arguments, and calls the
   tool inside a failure boundary. The result of the three mutating tools
   becomes the new document.
3. `should_continue` sends control back to the executor while steps
   remain.

A **`ReportManager`** keeps the graph state between turns and reads the
answer out of it. A Streamlit page keeps the chat history and exports the
chat or the document as Markdown.

The project models that core. The language model, `json.loads`, the
agents and the tool bodies are function-typed parameters (`Oracles`,
`ToolOracle`, `Agent`). Their results are values or `Raised(text)`, where
`text` is the `str()` of the Python exception.

The modules, one file each:

- `PyValues` (`pyvalues.dfy`): the decoded JSON values the code
  manipulates, plus the bits of Python's runtime it relies on. These are:
  - the type names used in exception messages;
  - `str()` of hashable scalars;
  - `dict.get`, `startswith` and `endswith`.
- `Tools` (`tools.dfy`), covering these pieces:
  - the registered tools and `tool_map`, with a proof that the written-out
    map is the dictionary comprehension over `get_tools()`;
  - `format_tools_for_prompt`, an imperative loop proved against
    `JoinLines(Entries(..))`;
  - the exact messages the three agent tools send;
  - the two definitions of `apri_file`/`salva_file` and which one stays
    bound;
  - a `FileStore` class giving the registered open/save conventions over
    an in-memory file map.
- `Nodes` (`nodes.dfy`), covering these pieces:
  - the graph state (`ConfigSchema`) and node updates, kept in a
    `Channels` class that the runtime updates field by field (no field has
    a reducer);
  - `planner_node`'s fence stripping and plan extraction;
  - `executor_node` as an imperative method on the channels. Its contract
    ties it to the returned update `ExecutorUpdate` plus the in-place pop
    of the plan, which happens even on the paths whose returned update
    omits `plan`. Followed by `Channels.Apply` of that update, it gives the
    functional `ExecutorStep`;
  - `should_continue`.
- `Manager` (`manager.dfy`), covering these pieces:
  - the compiled graph as an explicit `while` loop (`InvokeGraph`), proved
    against the recursive specification `Loop`/`GraphRun`;
  - the `ReportManager` class;
  - lemmas on termination, FIFO order, the final state, the document
    fold, stale responses and exception handling;
  - two end-to-end scenarios.
- `App` (`app.dfy`), covering these pieces:
  - `str.capitalize` on ASCII;
  - the Markdown rendering of the chat;
  - `export_chat` (a loop), `export_file` and their format dispatch;
  - the `ChatSession` class with `process_input`.

Behaviours of the code that are easy to misread, because a comment or a
name suggests otherwise:

- **History.** `past_steps` has no reducer, so every executor step
  overwrites it with its single record. The comment at src/nodes.py:123
  speaks of saving the result "for the history", but after a run the field
  holds only the last record (`Manager.LoopFinal`).
- **Document argument.** A declared `documento_attuale` is always
  overwritten with the live document, even when the plan supplied one.
  `content` is filled in only when it is absent (`Nodes.AssembleArgs`).
- **Final answer.** A run whose planner produced JSON and that completes
  never writes `response`. The answer is therefore the previous turn's
  response, or the document when that response is the sentinel
  `"markdown"`. A run that raises, for instance on a plan step that is not
  a dict, stores the exception's text as the response instead
  (`Manager.RunFailureKeepsState`). No tool
  result is ever written to `response`. A mutating tool's text reaches the
  answer only through the document, when the stale response is the
  sentinel (`Manager.RunKeepsStaleResponse`, `Manager.CreateScenario`).
- **Unknown tools.** An unknown or missing tool name records the text
  `Errore: Tool '<name>' non trovato.` and the plan goes on
  (`Nodes.UnknownToolInvokesNothing`, `Manager.UnknownToolContinues`).
- **Exceptions outside the boundaries.** Planning can raise: the model call
  sits outside the planner's `try`. The executor can raise outside its
  boundary too: `step.get` on a non-dict step, an unhashable `tool_name`,
  and, for a registered tool, `args.copy` on arguments that are neither a
  dict nor a list, or storing a key into list arguments (a list has
  `copy`). Only `run`'s `except` catches these
  (`Nodes.MalformedStepRaises`, `Manager.RunFailureKeepsState`).

## Model

| member | source | states |
|---|---|---|
| `Tools.GetTools` | src/tools.py:127-137 | no contract of its own; pinned down by `RegistryShape` and `RegistryNames` |
| `Tools.ToolMap` | src/nodes.py:69 | no contract of its own; pinned down by `ToolMapIsComprehension` and `RegistryShape` |
| `Tools.RegistryShape` | src/tools.py:127-137 | `get_tools()` is five tools in the order create, modify, retrieve, open, save; the names are distinct, so `tool_map` has exactly five keys and maps each name back to its tool |
| `Tools.RegistryNames` | src/tools.py:127-137 | the registered names in order, and they are pairwise distinct |
| `Tools.ToolMapIsComprehension` | src/nodes.py:69 | the written-out `tool_map` equals `{tool.name: tool for tool in get_tools()}` |
| `Tools.MapOf` | src/nodes.py:69 | no contract of its own; the comprehension, a later tool winning on a repeated name; pinned down by `MapOfKeys`, `MapOfDistinct` and `ToolMapIsComprehension` |
| `Tools.MapOfKeys` | src/nodes.py:69 | the comprehension's keys are exactly the tools' names |
| `Tools.MapOfDistinct` | src/nodes.py:69 | with distinct names nothing is shadowed: one key per tool, and each name yields its own tool |
| `Tools.Entry` | src/tools.py:123 | no contract of its own; the `- name: description` line and the indented `Argomenti:` line of one tool; pinned down by `Entries` and `FormatToolsForPrompt` |
| `Tools.Entries` | src/tools.py:121-123 | one entry per tool, in input order, each `- name: description` followed by the arguments line |
| `Tools.JoinLines` | src/tools.py:124 | no contract of its own; `"\n".join`; pinned down by `JoinLinesSnoc` and `JoinLinesLayout` |
| `Tools.JoinLinesSnoc` | src/tools.py:124 | joining one more line adds exactly one newline, between the old text and the new line |
| `Tools.JoinLinesLayout` | src/tools.py:124 | the joined text is as long as the lines together plus one character per gap between neighbours (so nothing trails); it starts with the first line and ends with the last |
| `Tools.FormatToolsForPrompt` | src/tools.py:120-124 | the loop returns the newline-join of the entries in input order; no tools give `""`; one tool gives its entry alone |
| `Tools.CatalogSnoc` | src/tools.py:120-124 | the catalog of a longer list is the shorter catalog, a newline and the new tool's entry |
| `Tools.OrganizerInput` | src/tools.py:25-28 | no contract of its own; pinned down by `OrganizerInputShape` and `CreaNuovoDocumentoPipeline` |
| `Tools.OrganizerInputShape` | src/tools.py:25-28 | the organizer input starts with `Testo: ` and the cleaned text, and has the `\nTitolo suggerito: ` suffix exactly when the title is truthy |
| `Tools.CreaNuovoDocumento` | src/tools.py:14-33 | no contract of its own; pinned down by `CreaNuovoDocumentoPipeline` |
| `Tools.CreaNuovoDocumentoPipeline` | src/tools.py:14-33 | the cleaner gets the raw text; the organizer gets exactly `Testo: ` + the cleaner's reply, followed by `\nTitolo suggerito: ` + title when the title is truthy; the tool returns the organizer's reply verbatim; a failing cleaner's exception propagates |
| `Tools.ModificaDocumento` | src/tools.py:37-47 | no contract of its own; pinned down by `DocumentToolMessages` |
| `Tools.RecuperaInformazioni` | src/tools.py:51-61 | no contract of its own; pinned down by `DocumentToolMessages` |
| `Tools.DocumentToolMessages` | src/tools.py:37-61 | the modifier and retrieval agents receive exactly `DOCUMENTO ATTUALE:\n` + document + `\n\nCOMANDO:\n` + command (resp. `\n\nRICHIESTA:\n` + query), and their reply is returned unchanged |
| `Tools.ModifierInput` | src/tools.py:42 | no contract of its own; pinned down by `DocumentToolMessages` and `Nodes.ModifyStepMessage` |
| `Tools.RetrievalInput` | src/tools.py:56 | no contract of its own; pinned down by `DocumentToolMessages` and `Nodes.RetrieveStepMessage` |
| `Tools.ModifierInputAmbiguous` | src/tools.py:42 | the modifier's message does not determine its parts: a document containing the command header collides with a shorter document and a longer command |
| `Tools.ModifierInputAmbiguousWithoutHeader` | src/tools.py:42 | even documents too short to contain the command header collide: the header starts and ends with a newline, so `""` and the header minus its last character give the same message |
| `Tools.RegisteredFileTools` | src/tools.py:63-116 | of the two definitions of each file tool the later one is bound, so the registered `salva_file` overwrites (mode `w`) instead of appending |
| `Tools.OpenText` | src/tools.py:97-103 | no contract of its own; pinned down by `FileStore.ApriFile` and `SaveThenOpen` |
| `Tools.SavedFiles` | src/tools.py:83-86 | no contract of its own; it models both definitions, mode `a` at src/tools.py:83-86 and mode `w` at src/tools.py:111-113, pinned down by `SaveThenOpen` (mode `w`) and `AppendBreaksRoundTrip` (mode `a`) |
| `Tools.SaveText` | src/tools.py:111-116 | no contract of its own; pinned down by `FileStore.SalvaFile` |
| `Tools.SaveThenOpen` | src/tools.py:96-116 | an overwriting save followed by an open of the same name returns exactly the saved content; other files read as before |
| `Tools.AppendBreaksRoundTrip` | src/tools.py:83-86 | the shadowed appending save would make that open return old plus new content |
| `Tools.FileStore.constructor` | src/tools.py:92-116 | the file system the two file tools act on starts as the given file map |
| `Tools.FileStore.ApriFile` | src/tools.py:92-103 | a missing file gives `Errore: File '<f>' non trovato.`; any other exception gives the opening-error text; otherwise the content |
| `Tools.FileStore.SalvaFile` | src/tools.py:106-116 | a successful save replaces the file's content and reports `File '<f>' salvato con successo.`; a failing one changes no file and reports the saving-error text |
| `Nodes.Merge` | src/report_manager.py:4-9 | no contract of its own; pinned down by `Channels.Apply`, the runtime's field-by-field overwrite |
| `Nodes.Channels.constructor` | src/report_manager.py:53 | the graph starts from the state passed to `invoke` |
| `Nodes.Channels.Apply` | src/report_manager.py:4-9 | a node's update overwrites exactly the fields it contains (no reducers) and no others |
| `Nodes.FencedIsLong` | src/nodes.py:48 | a text that passes the fence test is long enough to hold both fences, so they do not overlap |
| `Nodes.StripFence` | src/nodes.py:48-49 | when the text starts with "```json" and ends with "```" the result is exactly what lies between; any other text is unchanged |
| `Nodes.FenceRoundTrip` | src/nodes.py:48-49 | fencing any text and stripping it gives the text back |
| `Nodes.PlanOf` | src/nodes.py:51-61 | no contract of its own; the decoded list, else no steps; pinned down by `PlannerNode`, `NonListReply` and `ListReply` |
| `Nodes.PlannerNode` | src/nodes.py:45-64 | the plan is the decoded list in order, or empty for another JSON value or a decode error; `response` is written iff decoding failed, and then with the stripped text; nothing else is written |
| `Nodes.AssembleArgs` | src/nodes.py:96-106 | for dict arguments: the keys are the plan's plus the declared injected ones; a declared `documento_attuale` is always the live document; a declared `content` is filled only when absent; all other values pass through; list arguments raise when a key is stored; any other type has no `copy` |
| `Nodes.ExecutorUpdate` | src/nodes.py:71-128 | no contract of its own; pinned down by `ExecutorStep`, `EmptyPlanIsNoOp`, `UnknownToolInvokesNothing`, `MalformedStepRaises`, `RegisteredToolStep` and `StepDocument` |
| `Nodes.NotFoundTool` | src/nodes.py:92 | no contract of its own; `Errore: Tool '<str(name)>' non trovato.`; pinned down by `MissingToolName` and `UnknownToolInvokesNothing` |
| `Nodes.BoundaryResult` | src/nodes.py:109-113 | no contract of its own; the tool's text, or `Errore durante l'esecuzione del tool '<name>': <e>`; pinned down by `RegisteredToolStep` and the three step-message lemmas |
| `Nodes.IsMutating` | src/nodes.py:119 | no contract of its own; the create, modify and open tools; pinned down by `RegisteredToolStep`, `StepDocument`, `ModifyStepMessage` and `RetrieveStepMessage` |
| `Nodes.ExecutorStep` | src/nodes.py:71-128 | a completed step drops exactly the front plan step, keeps the rest in order, never writes input or response, leaves an empty-plan state unchanged, and otherwise writes exactly one record for the popped step |
| `Nodes.ExecutorNode` | src/nodes.py:71-128 | the method pops the front step in place on every path and returns the update that `ExecutorUpdate` specifies, including the exceptions raised outside the boundary |
| `Nodes.ShouldContinue` | src/nodes.py:131-140 | routes to the executor iff the plan is non-empty, to END iff it is empty |
| `Nodes.EmptyPlanIsNoOp` | src/nodes.py:78-80 | on an empty plan the update is empty and the state is unchanged |
| `Nodes.UnknownToolInvokesNothing` | src/nodes.py:91-93 | an unregistered name gives the same step under any tool oracle: the not-found record, the plan's tail, and an untouched document |
| `Nodes.MissingToolName` | src/nodes.py:85-92 | a step without `tool_name` reads as None and records `Errore: Tool 'None' non trovato.` |
| `Nodes.MalformedStepRaises` | src/nodes.py:84-106 | a non-dict step raises the `get` AttributeError; a list or dict name raises `unhashable type`; for a registered tool, arguments that are neither a dict nor a list raise the `copy` AttributeError, and list arguments raise the list-index TypeError when the tool declares `documento_attuale` |
| `Nodes.RegisteredToolStep` | src/nodes.py:109-127 | a registered tool is invoked with the assembled arguments; its text, or the boundary's error text, is recorded; it replaces the document iff the tool is one of the three mutating ones, even when it is an error string |
| `Nodes.DocumentInjection` | src/nodes.py:102-106 | per registered tool: create and open get the plan's arguments unchanged; modify and retrieve get the live document as `documento_attuale`, overriding the plan's; save gets it as `content` only when the plan gave none |
| `Nodes.StepDocument` | src/nodes.py:117-127 | the document after a completed step is determined by the record written: the record's text if its step names a mutating tool, the old document otherwise |
| `Nodes.AgentToolCall` | src/nodes.py:111 | no contract of its own; the three agent tools run `CreaNuovoDocumento`, `ModificaDocumento` and `RecuperaInformazioni` on their string arguments; pinned down by the three step lemmas below |
| `Nodes.AgentTools` | src/nodes.py:111 | no contract of its own; the tool oracle made of `AgentToolCall` |
| `Nodes.ModifyStepMessage` | src/nodes.py:96-127 | a modify step sends the modifier exactly `DOCUMENTO ATTUALE:\n` + live document + `\n\nCOMANDO:\n` + the plan's command (src/tools.py:42), whatever `documento_attuale` the plan gave; the reply or the boundary's error text is recorded and becomes the document |
| `Nodes.RetrieveStepMessage` | src/nodes.py:96-127 | a retrieve step sends the retriever exactly `DOCUMENTO ATTUALE:\n` + live document + `\n\nRICHIESTA:\n` + the plan's query (src/tools.py:56); the reply or error text is recorded and the document is unchanged |
| `Nodes.CreateStepMessage` | src/nodes.py:96-127 | a create step runs the cleaner and organizer pipeline of src/tools.py:14-33 on the plan's text and title (absent or null meaning `None`); its reply or the boundary's error text, a cleaner failure included, becomes the document |
| `Manager.Loop` | src/report_manager.py:25-35 | no contract of its own; pinned down by `LoopCalls`, `LoopFifo`, `LoopFinal` and `LoopDocument`, and implemented by `InvokeGraph` |
| `Manager.GraphRun` | src/report_manager.py:14-38 | no contract of its own; pinned down by `PlannerModelFails`, `UndecodableReply`, `NonListReply` and `ListReply`, and implemented by `InvokeGraph` |
| `Manager.InvokeGraph` | src/report_manager.py:14-38 | the explicit loop (planner once, then the executor while `should_continue` says so) returns exactly the outcome of the recursive graph semantics `GraphRun` |
| `Manager.LoopCalls` | src/report_manager.py:25-35 | the loop makes at least one and at most max(1, len(plan)) executor calls, exactly that many when it completes |
| `Manager.LoopFifo` | src/nodes.py:83-84 | the records are about the plan's steps in plan order; a completed run executed all of them, an aborted one a prefix |
| `Manager.LoopFinal` | src/report_manager.py:4-9 | after a completed loop: the plan is empty; input and response are unchanged; there is one record per plan step; `past_steps` holds only the last record (or the old value if the plan was empty) |
| `Manager.LoopDocument` | src/nodes.py:117-127 | the final document is the fold of the records: the last mutating step's result, or the initial document when none mutated |
| `Manager.UnknownToolContinues` | src/nodes.py:91-93 | an unknown tool does not stop the plan: the run continues with the remaining steps after the not-found record |
| `Manager.PlannerModelFails` | src/nodes.py:42 | an exception from the planner's model call ends the run with no executor call |
| `Manager.UndecodableReply` | src/nodes.py:62-64 | undecodable model text gives an empty plan, the text as response, and one no-op executor call |
| `Manager.NonListReply` | src/nodes.py:53-57 | decoded JSON that is not a list gives an empty plan and nothing else |
| `Manager.ListReply` | src/nodes.py:51-61 | a decoded list is executed step by step in order, in max(1, len) executor calls; afterwards the plan is empty and the response untouched |
| `Manager.SessionRun` | src/report_manager.py:49-55 | no contract of its own; pinned down by `RunFailureKeepsState`, `RunKeepsStaleResponse`, `ConversationalReply` and `RunPreservesQuiescence`, and implemented by `ReportManager.Run` |
| `Manager.Answer` | src/report_manager.py:57-62 | no contract of its own; pinned down by `ReportManager.GetAnswer` |
| `Manager.RunFailureKeepsState` | src/report_manager.py:49-55 | an exception anywhere in the graph leaves the pre-run state except the new input and the exception text as response |
| `Manager.RunKeepsStaleResponse` | src/report_manager.py:53 | a run whose planner produced JSON and that completes leaves the previous turn's response in place |
| `Manager.ConversationalReply` | src/nodes.py:62-64 | a non-JSON reply becomes the response, and so the answer unless it is the sentinel; plan emptied, document untouched |
| `Manager.RunPreservesQuiescence` | src/report_manager.py:49-55 | between runs the plan is empty and `past_steps` has at most one record; every run, raising or not, keeps this |
| `Manager.InitialIsQuiescent` | src/report_manager.py:41-47 | the initial state is quiescent and its answer is empty |
| `Manager.CreateScenario` | src/nodes.py:117-127 | a one-step create plan replaces the document with the tool's Markdown and records that step alone; the answer is that Markdown only when the previous response was the sentinel |
| `Manager.RetrieveScenario` | src/nodes.py:102-103 | a one-step retrieval plan hands the tool the live document, records its text and leaves the document unchanged |
| `Manager.ReportManager.constructor` | src/report_manager.py:41-47 | a fresh manager has empty input, response and document, and no plan or past steps |
| `Manager.ReportManager.Run` | src/report_manager.py:49-55 | the stored input is set before the graph runs; the state becomes the graph's final state, or on an exception the old state with the exception text as response |
| `Manager.ReportManager.GetAnswer` | src/report_manager.py:57-62 | the document when the response is `"markdown"`, the response otherwise; it only reads the state |
| `Manager.ReportManager.GetMdDocument` | src/report_manager.py:64-65 | returns the stored document unchanged |
| `App.Capitalize` | app/app.py:18 | capitalization keeps the length |
| `App.CapitalizeChars` | app/app.py:18 | the first character is upper-cased and every other one lower-cased |
| `App.CapitalizeIdempotent` | app/app.py:18 | capitalizing twice equals capitalizing once |
| `App.RoleNames` | app/app.py:18 | the roles `user` and `assistant` render as `User` and `Assistant` |
| `App.ChatLine` | app/app.py:18 | no contract of its own; pinned down by `UserLine`, `AssistantLine` and `ChatMarkdownSingle` |
| `App.ChatMarkdown` | app/app.py:16-18 | no contract of its own; pinned down by `ChatMarkdownAppend`, `ChatMarkdownSingle`, `ChatMarkdownEnds`, and implemented by `ExportChat` |
| `App.RenderAppend` | app/app.py:17-18 | the rendering of a concatenated history is the concatenation of the renderings |
| `App.ChatMarkdownAppend` | app/app.py:17-18 | the chat Markdown lists the messages in order, each once |
| `App.ChatMarkdownSingle` | app/app.py:18 | one message renders as `**Role**: content` followed by a blank line |
| `App.ChatMarkdownEnds` | app/app.py:17-18 | a non-empty chat's Markdown starts with its first message's line and ends with its last's |
| `App.ExportAs` | app/app.py:20-34 | every format is made from the same Markdown; the result is the encoded Markdown itself iff the format is not DOCX, HTML or PDF (Markdown and the unknown-format fallback) |
| `App.ExportFile` | app/app.py:36-52 | Markdown and unknown formats return the document text unchanged; every format is made from the document text |
| `App.ExportChat` | app/app.py:15-34 | the loop builds the in-order concatenation of the message lines, then dispatches; an empty history exports `""` |
| `App.UserLine` | app/app.py:18 | a user message renders as `**User**: ` + content + two newlines |
| `App.AssistantLine` | app/app.py:18 | an assistant message renders as `**Assistant**: ` + content + two newlines |
| `App.TurnExport` | app/app.py:109-110 | a processed turn adds to the exported chat a user line with the prompt and an assistant line whose content starts on a new line with the answer |
| `App.ChatSession.constructor` | app/app.py:58-68 | a new session has no messages, an empty input box and a fresh manager in its initial state |
| `App.ChatSession.EnterText` | app/app.py:124-129 | the input box holds the entered text; the history is unchanged |
| `App.ChatSession.ProcessInput` | app/app.py:96-113 | an empty prompt changes nothing and does not run the manager; otherwise the manager runs once on the prompt, exactly user/prompt then assistant/"\n"+answer are appended after the unchanged history, and the input box is cleared |

## Left out

- The prompt text: the planner's template, its tool catalog and the
  request line (src/nodes.py:15-39). They are a fixed function of the
  input, so the model passes the planner's model the input alone. The
  agents' own prompts (src/agents.py) are configuration.
- The language model, `json.loads`, the agents and the tool library's
  `invoke`. They are parameters. The library's argument validation is
  folded into the tool oracle: a missing or ill-typed argument is an
  exception inside the boundary.
- `Tools.Entry`: the tool library's rendering of a tool's argument schema
  (`{tool.args}`) is a parameter, so the catalog's argument text is not
  pinned down.
- JSON numbers other than integers (floats), together with their `str()`
  in the not-found message.
- `App.Capitalize`: only ASCII letters change case. Python's Unicode case
  mapping is not modelled.
- `Manager.ReportManager.Run`, `Manager.GraphRun`: do not model
  LangGraph's recursion limit (25 super-steps by default, the planner
  being one). In the runtime a plan of about 24 or more steps raises
  `GraphRecursionError`. `run` then keeps the pre-run state with the
  error's text as response, so the document changes of the steps already
  executed are dropped. Here the whole plan runs, and the max(1, len(plan))
  executor calls of `Manager.LoopCalls` and `Manager.ListReply` are not
  bounded. The exact text of that error belongs to the library.
- `Nodes.AgentTools`: the agent tools run their bodies only on well-typed
  arguments: string `testo_grezzo`, `comando` and `query`, and a string,
  null or absent `titolo`. The tool library's validation of other
  arguments and the two file tools are left to the `others` oracle.
- The file tools inside the executor loop. The tool oracle is a pure
  function, so a save followed by an open in one plan is not linked
  through the file map. `FileStore` gives the conventions of the two file
  tools on their own.
- `Tools.FileStore.SalvaFile`: a failing save is modelled as changing no
  file. A write that fails after mode `w` has truncated the file is not
  modelled.
- UTF-8 encoding in the exports is the identity on text. The DOCX, HTML
  and PDF converters (src/convert.py) are represented only by which
  converter is applied to which Markdown.
- Streamlit rendering, spinners, `st.warning`, the download buttons, the
  audio recorder and transcription (src/transcribe.py), the unused
  `get_agent_response`, and all `print` logging.
- A model reply whose content is not a string, and decoder exceptions
  other than a decode error.
