/** The two graph nodes and the routing predicate of the plan-and-execute
    loop: the planner's post-processing of the model's raw text, the executor
    step that consumes the front of the plan, and `should_continue`. The
    graph's state is kept in `Channels`, whose fields the nodes read and the
    runtime overwrites with each node's returned update; the executor also
    shortens the plan list in place. */
module Nodes {
  import opened PyValues
  import opened Tools

  /** One entry of `past_steps`: the plan step as issued, and its result text. */
  type Record = (JValue, string)

  /** The graph state (`ConfigSchema`). */
  datatype State = State(
    input: string,
    plan: seq<JValue>,
    pastSteps: seq<Record>,
    response: string,
    documentContent: string)

  /** The dictionary a node returns: a key is present (`Some`) only when the
      node writes that field. */
  datatype Update = Update(
    plan: Option<seq<JValue>>,
    pastSteps: Option<seq<Record>>,
    response: Option<string>,
    documentContent: Option<string>)

  const NoUpdate := Update(None, None, None, None)

  function Written<T>(old_: T, new_: Option<T>): T
  {
    if new_.Some? then new_.value else old_
  }

  /** The runtime merging an update into the state: every field has no
      reducer, so a written field takes the new value and the others keep
      theirs. */
  function Merge(s: State, u: Update): State
  {
    State(s.input,
          Written(s.plan, u.plan),
          Written(s.pastSteps, u.pastSteps),
          Written(s.response, u.response),
          Written(s.documentContent, u.documentContent))
  }

  /** The graph's state while a run is in progress. */
  class Channels {
    var input: string
    var plan: seq<JValue>
    var pastSteps: seq<Record>
    var response: string
    var documentContent: string

    function Snapshot(): State
      reads this
    {
      State(input, plan, pastSteps, response, documentContent)
    }

    constructor (s: State)
      ensures Snapshot() == s
    {
      input, plan, pastSteps, response, documentContent :=
        s.input, s.plan, s.pastSteps, s.response, s.documentContent;
    }

    /** The runtime applying a node's returned update. */
    method Apply(u: Update)
      modifies this
      ensures Snapshot() == Merge(old(Snapshot()), u)
    {
      if u.plan.Some? { plan := u.plan.value; }
      if u.pastSteps.Some? { pastSteps := u.pastSteps.value; }
      if u.response.Some? { response := u.response.value; }
      if u.documentContent.Some? { documentContent := u.documentContent.value; }
    }
  }

  // ---------------------------------------------------------------------
  // Planner

  /** The JSON decoder's verdict on a text. */
  datatype Decoded = Decoded(value: JValue) | DecodeError

  const FenceOpen := "```json"
  const FenceClose := "```"

  /** `s.removeprefix(p)`. */
  function RemovePrefix(s: string, p: string): string
  {
    if StartsWith(s, p) then s[|p|..] else s
  }

  /** `s.removesuffix(p)`. */
  function RemoveSuffix(s: string, p: string): string
  {
    if EndsWith(s, p) then s[..|s| - |p|] else s
  }

  /** A text that starts with the opening fence and ends with the closing one
      is long enough to hold both: the two cannot overlap. */
  lemma FencedIsLong(raw: string)
    requires StartsWith(raw, FenceOpen) && EndsWith(raw, FenceClose)
    ensures |raw| >= |FenceOpen| + |FenceClose|
  {
    assert raw[6] == 'n';
    assert raw[|raw| - 1] == '`' && raw[|raw| - 2] == '`' && raw[|raw| - 3] == '`';
  }

  /** The fence handling of `planner_node`: the fence is removed only when
      the text both starts with "```json" and ends with "```"; then the text
      is exactly the fenced content. Any other text is left unchanged. */
  function StripFence(raw: string): (r: string)
    ensures StartsWith(raw, FenceOpen) && EndsWith(raw, FenceClose) ==> raw == FenceOpen + r + FenceClose
    ensures !(StartsWith(raw, FenceOpen) && EndsWith(raw, FenceClose)) ==> r == raw
  {
    if StartsWith(raw, FenceOpen) && EndsWith(raw, FenceClose) then
      FencedIsLong(raw);
      assert raw == raw[..|FenceOpen|] + raw[|FenceOpen|..|raw| - |FenceClose|] + raw[|raw| - |FenceClose|..];
      RemoveSuffix(RemovePrefix(raw, FenceOpen), FenceClose)
    else
      raw
  }

  /** Fencing any text and stripping it again gives that text back. */
  lemma FenceRoundTrip(body: string)
    ensures StripFence(FenceOpen + body + FenceClose) == body
  {
    var raw := FenceOpen + body + FenceClose;
    assert raw[..|FenceOpen|] == FenceOpen;
    assert raw[|raw| - |FenceClose|..] == FenceClose;
    assert raw == FenceOpen + StripFence(raw) + FenceClose;
    assert |StripFence(raw)| == |body|;
    assert raw[|FenceOpen|..|raw| - |FenceClose|] == body;
    assert raw[|FenceOpen|..|raw| - |FenceClose|] == StripFence(raw);
  }

  /** The plan a decoder verdict yields: the decoded list itself, in order,
      or no steps for any other JSON value and for a decode error. */
  function PlanOf(d: Decoded): seq<JValue>
  {
    if d.Decoded? && d.value.JArray? then d.value.items else []
  }

  /** `planner_node` after the model call: `raw` is the model's text and
      `decode` stands for `json.loads`. It writes the plan (the decoded list,
      else empty) and, only on a decode error, the response, which is then
      the possibly fence-stripped text. */
  function PlannerNode(raw: string, decode: string -> Decoded): (u: Update)
    ensures u.plan == Some(PlanOf(decode(StripFence(raw))))
    ensures u.response.Some? <==> decode(StripFence(raw)).DecodeError?
    ensures u.response.Some? ==> u.response.value == StripFence(raw)
    ensures u.pastSteps.None? && u.documentContent.None?
  {
    var text := StripFence(raw);
    match decode(text)
    case DecodeError => Update(Some([]), None, Some(text), None)
    case Decoded(v) =>
      if v.JArray? then Update(Some(v.items), None, None, None)
      else Update(Some([]), None, None, None)
  }

  // ---------------------------------------------------------------------
  // Executor

  /** A tool invocation from the executor's side: the tool's name and the
      assembled arguments in, the tool's text or the exception it raised out.
      It stands for the tool library's argument validation and the tool's
      body together. */
  type ToolOracle = (string, JValue) -> Outcome<string>

  /** The tool names whose result becomes the new document. */
  predicate IsMutating(name: string)
  {
    name == CreateName || name == ModifyName || name == OpenName
  }

  function NoAttribute(v: JValue, attr: string): string
  {
    "'" + TypeName(v) + "' object has no attribute '" + attr + "'"
  }

  function Unhashable(v: JValue): string
  {
    "unhashable type: '" + TypeName(v) + "'"
  }

  const ListIndexError := "list indices must be integers or slices, not str"

  function NotFoundTool(toolName: JValue): string
    requires Hashable(toolName)
  {
    "Errore: Tool '" + PyStr(toolName) + "' non trovato."
  }

  function InvokeFailure(name: string, error: string): string
  {
    "Errore durante l'esecuzione del tool '" + name + "': " + error
  }

  /** The result text of an invocation inside the failure boundary. */
  function BoundaryResult(name: string, call: Outcome<string>): string
  {
    match call
    case Ok(text) => text
    case Raised(e) => InvokeFailure(name, e)
  }

  /** `step.get("tool_name")`. */
  function ToolNameOf(step: map<string, JValue>): JValue
  {
    Get(step, "tool_name", JNull)
  }

  /** `step.get("args", {})`. */
  function ArgsOf(step: map<string, JValue>): JValue
  {
    Get(step, "args", JObject(map[]))
  }

  /** `lookup in tool_map` for a hashable name: only a string key can match. */
  predicate Registered(toolName: JValue)
  {
    toolName.JString? && toolName.s in ToolMap()
  }

  /** Argument assembly: copy the step's arguments; a declared
      `documento_attuale` is always set to the current document; a declared
      `content` is filled with it only when absent. A list copies, but
      storing a key into it raises; any other value has no `copy`. */
  function AssembleArgs(declared: seq<string>, args: JValue, doc: string): (r: Outcome<JValue>)
    ensures args.JObject? ==> r.Ok? && r.value.JObject?
    ensures args.JObject? ==> forall k :: k in r.value.fields <==>
      k in args.fields || (k == "documento_attuale" && k in declared) || (k == "content" && k in declared)
    ensures args.JObject? && "documento_attuale" in declared ==>
      r.value.fields["documento_attuale"] == JString(doc)
    ensures args.JObject? && "content" in declared && "content" !in args.fields ==>
      r.value.fields["content"] == JString(doc)
    ensures args.JObject? ==> forall k :: k in args.fields && !(k == "documento_attuale" && k in declared) ==>
      r.value.fields[k] == args.fields[k]
    ensures args.JArray? ==> r == (if "documento_attuale" in declared
                                    || ("content" in declared && JString("content") !in args.items)
                                   then Raised(ListIndexError) else Ok(args))
    ensures !args.JObject? && !args.JArray? ==> r == Raised(NoAttribute(args, "copy"))
  {
    match args
    case JObject(fields) =>
      var withDoc := if "documento_attuale" in declared then fields["documento_attuale" := JString(doc)] else fields;
      var withContent := if "content" in declared && "content" !in withDoc then withDoc["content" := JString(doc)] else withDoc;
      Ok(JObject(withContent))
    case JArray(items) =>
      if "documento_attuale" in declared then Raised(ListIndexError)
      else if "content" in declared && JString("content") !in items then Raised(ListIndexError)
      else Ok(args)
    case _ => Raised(NoAttribute(args, "copy"))
  }

  /** What `executor_node` returns for state `s` (the in-place shortening of
      the plan is separate, see `ExecutorStep`), or the exception that leaves
      it from outside the failure boundary. */
  function ExecutorUpdate(s: State, tool: ToolOracle): Outcome<Update>
  {
    if s.plan == [] then Ok(NoUpdate)
    else
      var step := s.plan[0];
      if !step.JObject? then Raised(NoAttribute(step, "get"))
      else
        var toolName := ToolNameOf(step.fields);
        if !Hashable(toolName) then Raised(Unhashable(toolName))
        else if !Registered(toolName) then
          Ok(Update(None, Some([(step, NotFoundTool(toolName))]), None, None))
        else
          var name := toolName.s;
          match AssembleArgs(ToolMap()[name].args, ArgsOf(step.fields), s.documentContent)
          case Raised(e) => Raised(e)
          case Ok(kwargs) =>
            var result := BoundaryResult(name, tool(name, kwargs));
            var doc := if IsMutating(name) then result else s.documentContent;
            Ok(Update(Some(s.plan[1..]), Some([(step, result)]), None, Some(doc)))
  }

  function Tail(plan: seq<JValue>): seq<JValue>
  {
    if plan == [] then [] else plan[1..]
  }

  /** One executor super-step on the graph state: the front step is popped in
      place, then the node's update is merged. Whatever happens, the plan
      loses exactly its front step, and neither the input nor the response is
      written. */
  function ExecutorStep(s: State, tool: ToolOracle): (r: Outcome<State>)
    ensures r.Ok? ==> r.value.plan == Tail(s.plan)
    ensures r.Ok? ==> r.value.input == s.input && r.value.response == s.response
    ensures r.Ok? && s.plan == [] ==> r.value == s
    ensures r.Ok? && s.plan != [] ==> |r.value.pastSteps| == 1 && r.value.pastSteps[0].0 == s.plan[0]
  {
    match ExecutorUpdate(s, tool)
    case Raised(e) => Raised(e)
    case Ok(u) => Ok(Merge(s.(plan := Tail(s.plan)), u))
  }

  /** `executor_node`: pops the front step of the shared plan list in place
      and returns the node's update. */
  method ExecutorNode(ch: Channels, tool: ToolOracle) returns (u: Outcome<Update>)
    modifies ch
    ensures ch.Snapshot() == old(ch.Snapshot()).(plan := Tail(old(ch.plan)))
    ensures u == ExecutorUpdate(old(ch.Snapshot()), tool)
  {
    if ch.plan == [] {
      return Ok(NoUpdate);
    }
    var step := ch.plan[0];
    ch.plan := ch.plan[1..];
    if !step.JObject? {
      return Raised(NoAttribute(step, "get"));
    }
    var toolName := Get(step.fields, "tool_name", JNull);
    var args := Get(step.fields, "args", JObject(map[]));
    if !Hashable(toolName) {
      return Raised(Unhashable(toolName));
    }
    if !(toolName.JString? && toolName.s in ToolMap()) {
      var result := NotFoundTool(toolName);
      return Ok(Update(None, Some([(step, result)]), None, None));
    }
    var toolToCall := ToolMap()[toolName.s];
    var kwargs;
    if args.JObject? {
      var fields := args.fields;
      if "documento_attuale" in toolToCall.args {
        fields := fields["documento_attuale" := JString(ch.documentContent)];
      }
      if "content" in toolToCall.args && "content" !in fields {
        fields := fields["content" := JString(ch.documentContent)];
      }
      kwargs := JObject(fields);
    } else if args.JArray? {
      if "documento_attuale" in toolToCall.args {
        return Raised(ListIndexError);
      }
      if "content" in toolToCall.args && JString("content") !in args.items {
        return Raised(ListIndexError);
      }
      kwargs := args;
    } else {
      return Raised(NoAttribute(args, "copy"));
    }
    var result := BoundaryResult(toolName.s, tool(toolName.s, kwargs));
    var newDocumentContent := ch.documentContent;
    if IsMutating(toolName.s) {
      newDocumentContent := result;
    }
    return Ok(Update(Some(ch.plan), Some([(step, result)]), None, Some(newDocumentContent)));
  }

  // ---------------------------------------------------------------------
  // Routing

  datatype Route = ToExecutor | End

  /** `should_continue`: back to the executor exactly while steps remain. */
  function ShouldContinue(s: State): (r: Route)
    ensures r == ToExecutor <==> s.plan != []
    ensures r == End <==> s.plan == []
  {
    if s.plan != [] then ToExecutor else End
  }

  // ---------------------------------------------------------------------
  // Properties of one executor step

  /** On an empty plan the executor writes nothing: plan, document and
      history stay as they were. */
  lemma EmptyPlanIsNoOp(s: State, tool: ToolOracle)
    requires s.plan == []
    ensures ExecutorUpdate(s, tool) == Ok(NoUpdate)
    ensures ExecutorStep(s, tool) == Ok(s)
  {
  }

  /** An unknown or missing tool name invokes nothing: any two tool oracles
      give the same step, which records the not-found text and leaves the
      document alone while the plan loses its front step. */
  lemma UnknownToolInvokesNothing(s: State, tool1: ToolOracle, tool2: ToolOracle)
    requires s.plan != [] && s.plan[0].JObject?
    requires Hashable(ToolNameOf(s.plan[0].fields)) && !Registered(ToolNameOf(s.plan[0].fields))
    ensures ExecutorStep(s, tool1) == ExecutorStep(s, tool2)
    ensures ExecutorStep(s, tool1) ==
      Ok(s.(plan := s.plan[1..], pastSteps := [(s.plan[0], NotFoundTool(ToolNameOf(s.plan[0].fields)))]))
  {
  }

  /** A missing `tool_name` reads as None. */
  lemma MissingToolName(s: State)
    requires s.plan != [] && s.plan[0].JObject? && "tool_name" !in s.plan[0].fields
    ensures ToolNameOf(s.plan[0].fields) == JNull
    ensures NotFoundTool(ToolNameOf(s.plan[0].fields)) == "Errore: Tool 'None' non trovato."
  {
  }

  /** These raise outside the failure boundary: a plan element that is not
      a dict, a name that is a list or a dict, and, for a registered tool,
      arguments that are neither a dict nor a list (no `copy`) or a list
      into which the document would be stored. */
  lemma MalformedStepRaises(s: State, tool: ToolOracle)
    requires s.plan != []
    ensures !s.plan[0].JObject? ==> ExecutorStep(s, tool) == Raised(NoAttribute(s.plan[0], "get"))
    ensures s.plan[0].JObject? && !Hashable(ToolNameOf(s.plan[0].fields)) ==>
      ExecutorStep(s, tool) == Raised(Unhashable(ToolNameOf(s.plan[0].fields)))
    ensures (s.plan[0].JObject? && Registered(ToolNameOf(s.plan[0].fields))
             && !ArgsOf(s.plan[0].fields).JObject? && !ArgsOf(s.plan[0].fields).JArray?) ==>
      ExecutorStep(s, tool) == Raised(NoAttribute(ArgsOf(s.plan[0].fields), "copy"))
    ensures (s.plan[0].JObject? && Registered(ToolNameOf(s.plan[0].fields))
             && ArgsOf(s.plan[0].fields).JArray?
             && "documento_attuale" in ToolMap()[ToolNameOf(s.plan[0].fields).s].args) ==>
      ExecutorStep(s, tool) == Raised(ListIndexError)
  {
  }

  /** For a registered tool, the step invokes the tool once, with the
      assembled arguments; its text (or the boundary's error text) is
      recorded; it replaces the document exactly for the three mutating
      tools (even when it is an error text) and otherwise the document is
      unchanged. */
  lemma RegisteredToolStep(s: State, tool: ToolOracle)
    requires s.plan != [] && s.plan[0].JObject?
    requires Registered(ToolNameOf(s.plan[0].fields))
    requires AssembleArgs(ToolMap()[ToolNameOf(s.plan[0].fields).s].args, ArgsOf(s.plan[0].fields), s.documentContent).Ok?
    ensures var name := ToolNameOf(s.plan[0].fields).s;
      var kwargs := AssembleArgs(ToolMap()[name].args, ArgsOf(s.plan[0].fields), s.documentContent).value;
      var result := match tool(name, kwargs)
                    case Ok(text) => text
                    case Raised(e) => "Errore durante l'esecuzione del tool '" + name + "': " + e;
      ExecutorStep(s, tool) == Ok(s.(plan := s.plan[1..],
                                     pastSteps := [(s.plan[0], result)],
                                     documentContent := if IsMutating(name) then result else s.documentContent))
  {
  }

  /** The document after a record: the record's text when its step names a
      mutating tool, the document it had otherwise. */
  function DocAfter(doc: string, rec: Record): string
  {
    var step := rec.0;
    if step.JObject? && ToolNameOf(step.fields).JString? && IsMutating(ToolNameOf(step.fields).s)
    then rec.1 else doc
  }

  /** Every completed step leaves the document a record describes: the
      written record alone determines the new document. */
  lemma StepDocument(s: State, tool: ToolOracle)
    requires s.plan != [] && ExecutorStep(s, tool).Ok?
    ensures ExecutorStep(s, tool).value.documentContent == DocAfter(s.documentContent, ExecutorStep(s, tool).value.pastSteps[0])
  {
    var toolName := ToolNameOf(s.plan[0].fields);
    if !Registered(toolName) && toolName.JString? {
      assert !IsMutating(toolName.s);
    }
  }

  /** The create and open tools get their arguments unchanged; the modify
      and retrieve tools always receive the live document, overriding any
      `documento_attuale` the plan gave; the save tool gets the document as
      `content` only when the plan gave none. */
  lemma DocumentInjection(args: map<string, JValue>, doc: string)
    ensures AssembleArgs(ToolMap()[CreateName].args, JObject(args), doc) == Ok(JObject(args))
    ensures AssembleArgs(ToolMap()[OpenName].args, JObject(args), doc) == Ok(JObject(args))
    ensures AssembleArgs(ToolMap()[ModifyName].args, JObject(args), doc) == Ok(JObject(args["documento_attuale" := JString(doc)]))
    ensures AssembleArgs(ToolMap()[RetrieveName].args, JObject(args), doc) == Ok(JObject(args["documento_attuale" := JString(doc)]))
    ensures "content" in args ==> AssembleArgs(ToolMap()[SaveName].args, JObject(args), doc) == Ok(JObject(args))
    ensures "content" !in args ==> AssembleArgs(ToolMap()[SaveName].args, JObject(args), doc) == Ok(JObject(args["content" := JString(doc)]))
  {
  }

  // ---------------------------------------------------------------------
  // The agent tools plugged into the executor

  /** A string argument the tool library would pass on as `str`. */
  predicate StringArg(kwargs: JValue, key: string)
  {
    kwargs.JObject? && key in kwargs.fields && kwargs.fields[key].JString?
  }

  /** `titolo: Optional[str] = None`: absent or null is `None`. */
  predicate TitleArg(kwargs: JValue)
  {
    kwargs.JObject? && ("titolo" !in kwargs.fields || kwargs.fields["titolo"].JNull? || kwargs.fields["titolo"].JString?)
  }

  function TitleOf(kwargs: JValue): Option<string>
    requires TitleArg(kwargs)
  {
    if "titolo" in kwargs.fields && kwargs.fields["titolo"].JString? then Some(kwargs.fields["titolo"].s) else None
  }

  /** A call of a registered tool whose three agent tools run the bodies
      `CreaNuovoDocumento`, `ModificaDocumento` and `RecuperaInformazioni`
      on the given agents when their arguments are well typed; the other
      tools, and the library's rejection of ill-typed arguments, are `others`. */
  function AgentToolCall(cleaner: Agent, organizer: Agent, modifier: Agent, retriever: Agent,
                         others: ToolOracle, name: string, kwargs: JValue): Outcome<string>
  {
    if name == CreateName && StringArg(kwargs, "testo_grezzo") && TitleArg(kwargs) then
      CreaNuovoDocumento(kwargs.fields["testo_grezzo"].s, TitleOf(kwargs), cleaner, organizer)
    else if name == ModifyName && StringArg(kwargs, "comando") && StringArg(kwargs, "documento_attuale") then
      ModificaDocumento(kwargs.fields["comando"].s, kwargs.fields["documento_attuale"].s, modifier)
    else if name == RetrieveName && StringArg(kwargs, "query") && StringArg(kwargs, "documento_attuale") then
      RecuperaInformazioni(kwargs.fields["query"].s, kwargs.fields["documento_attuale"].s, retriever)
    else others(name, kwargs)
  }

  function AgentTools(cleaner: Agent, organizer: Agent, modifier: Agent, retriever: Agent, others: ToolOracle): ToolOracle
  {
    (name: string, kwargs: JValue) => AgentToolCall(cleaner, organizer, modifier, retriever, others, name, kwargs)
  }

  /** A modify step hands the modifier agent the live document under its
      header and the plan's command, whatever `documento_attuale` the plan
      gave, and its reply (or the boundary's error text) becomes the new
      document. */
  lemma ModifyStepMessage(s: State, cleaner: Agent, organizer: Agent, modifier: Agent, retriever: Agent, others: ToolOracle)
    requires s.plan != [] && s.plan[0].JObject? && ToolNameOf(s.plan[0].fields) == JString(ModifyName)
    requires StringArg(ArgsOf(s.plan[0].fields), "comando")
    ensures var comando := ArgsOf(s.plan[0].fields).fields["comando"].s;
      var result := BoundaryResult(ModifyName, modifier("DOCUMENTO ATTUALE:\n" + s.documentContent + "\n\nCOMANDO:\n" + comando));
      ExecutorStep(s, AgentTools(cleaner, organizer, modifier, retriever, others))
        == Ok(s.(plan := s.plan[1..], pastSteps := [(s.plan[0], result)], documentContent := result))
  {
    var args := ArgsOf(s.plan[0].fields).fields;
    var comando := args["comando"].s;
    DocumentInjection(args, s.documentContent);
    DocumentToolMessages(comando, "", s.documentContent, modifier, retriever);
    var tool := AgentTools(cleaner, organizer, modifier, retriever, others);
    var kwargs := JObject(args["documento_attuale" := JString(s.documentContent)]);
    assert tool(ModifyName, kwargs) == ModificaDocumento(comando, s.documentContent, modifier);
    RegisteredToolStep(s, tool);
  }

  /** A retrieve step hands the retrieval agent the live document under its
      header and the plan's question; its reply (or the boundary's error
      text) is recorded and the document stays as it was. */
  lemma RetrieveStepMessage(s: State, cleaner: Agent, organizer: Agent, modifier: Agent, retriever: Agent, others: ToolOracle)
    requires s.plan != [] && s.plan[0].JObject? && ToolNameOf(s.plan[0].fields) == JString(RetrieveName)
    requires StringArg(ArgsOf(s.plan[0].fields), "query")
    ensures var query := ArgsOf(s.plan[0].fields).fields["query"].s;
      var result := BoundaryResult(RetrieveName, retriever("DOCUMENTO ATTUALE:\n" + s.documentContent + "\n\nRICHIESTA:\n" + query));
      ExecutorStep(s, AgentTools(cleaner, organizer, modifier, retriever, others))
        == Ok(s.(plan := s.plan[1..], pastSteps := [(s.plan[0], result)]))
  {
    var args := ArgsOf(s.plan[0].fields).fields;
    var query := args["query"].s;
    DocumentInjection(args, s.documentContent);
    DocumentToolMessages("", query, s.documentContent, modifier, retriever);
    var tool := AgentTools(cleaner, organizer, modifier, retriever, others);
    var kwargs := JObject(args["documento_attuale" := JString(s.documentContent)]);
    assert tool(RetrieveName, kwargs) == RecuperaInformazioni(query, s.documentContent, retriever);
    RegisteredToolStep(s, tool);
  }

  /** A create step with a string text runs the cleaner on it and the
      organizer on the cleaned text and title; the organizer's reply (or
      the boundary's error text, the cleaner's included) is the new
      document. */
  lemma CreateStepMessage(s: State, cleaner: Agent, organizer: Agent, modifier: Agent, retriever: Agent, others: ToolOracle)
    requires s.plan != [] && s.plan[0].JObject? && ToolNameOf(s.plan[0].fields) == JString(CreateName)
    requires StringArg(ArgsOf(s.plan[0].fields), "testo_grezzo") && TitleArg(ArgsOf(s.plan[0].fields))
    ensures var args := ArgsOf(s.plan[0].fields);
      var result := BoundaryResult(CreateName, CreaNuovoDocumento(args.fields["testo_grezzo"].s, TitleOf(args), cleaner, organizer));
      ExecutorStep(s, AgentTools(cleaner, organizer, modifier, retriever, others))
        == Ok(s.(plan := s.plan[1..], pastSteps := [(s.plan[0], result)], documentContent := result))
  {
    DocumentInjection(ArgsOf(s.plan[0].fields).fields, s.documentContent);
    RegisteredToolStep(s, AgentTools(cleaner, organizer, modifier, retriever, others));
  }
}
