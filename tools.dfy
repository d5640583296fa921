/** The tool registry of the document assistant: the five registered tools,
    the name-to-tool dictionary the executor looks them up in, the textual
    catalog that goes into the planner's prompt, the messages the agent
    tools send to their agents, and the open/save conventions of the two
    file tools over an in-memory file map. */
module Tools {
  import opened PyValues

  /** A registered tool: its name, its description (the docstring, dedented
      and stripped, as the tool decorator takes it) and the names of its
      declared arguments (the keys of `tool.args`) in declaration order. */
  datatype Tool = Tool(name: string, description: string, args: seq<string>)

  const CreateName := "crea_nuovo_documento"
  const ModifyName := "modifica_documento"
  const RetrieveName := "recupera_informazioni"
  const OpenName := "apri_file"
  const SaveName := "salva_file"

  const CreateTool := Tool(CreateName,
    "Usa questo tool per creare un nuovo report partendo da un testo grezzo.\n"
    + "Pulisce il testo e lo organizza in sezioni.",
    ["testo_grezzo", "titolo"])
  const ModifyTool := Tool(ModifyName,
    "Usa questo tool per modificare, aggiungere, cancellare o riscrivere parti del documento corrente.\n"
    + "L'input deve essere un comando chiaro che descrive la modifica.",
    ["comando", "documento_attuale"])
  const RetrieveTool := Tool(RetrieveName,
    "Usa questo tool per cercare e recuperare informazioni o sezioni dal documento corrente.\n"
    + "L'input deve essere una domanda (es. 'mostrami la sezione Y').",
    ["query", "documento_attuale"])
  const OpenTool := Tool(OpenName,
    "Usa questo tool per aprire un file di testo e leggerne il contenuto.\n"
    + "L'input deve essere il nome del file.",
    ["filename"])
  const SaveTool := Tool(SaveName,
    "Usa questo tool per salvare del testo in un file.\n"
    + "L'input deve essere il nome del file e il contenuto da salvare.",
    ["filename", "content"])

  /** `get_tools()`: the registered tools, in registration order. */
  function GetTools(): seq<Tool>
  {
    [CreateTool, ModifyTool, RetrieveTool, OpenTool, SaveTool]
  }

  function Names(ts: seq<Tool>): seq<string>
  {
    if ts == [] then [] else [ts[0].name] + Names(ts[1..])
  }

  predicate DistinctNames(ts: seq<Tool>)
  {
    forall i, j :: 0 <= i < j < |ts| ==> ts[i].name != ts[j].name
  }

  /** `{tool.name: tool for tool in ts}`: on a repeated name the later tool wins. */
  function MapOf(ts: seq<Tool>): map<string, Tool>
  {
    if ts == [] then map[] else MapOf(ts[..|ts| - 1])[ts[|ts| - 1].name := ts[|ts| - 1]]
  }

  /** `tool_map`, the dictionary the executor resolves tool names in, written
      out; `ToolMapIsComprehension` proves it is the comprehension over
      `get_tools()`. */
  function ToolMap(): map<string, Tool>
  {
    map[CreateName := CreateTool, ModifyName := ModifyTool, RetrieveName := RetrieveTool,
        OpenName := OpenTool, SaveName := SaveTool]
  }

  /** The keys of the comprehension are exactly the names of the tools. */
  lemma {:induction false} MapOfKeys(ts: seq<Tool>)
    ensures MapOf(ts).Keys == set t | t in ts :: t.name
  {
    if ts != [] {
      var init := ts[..|ts| - 1];
      MapOfKeys(init);
      assert ts == init + [ts[|ts| - 1]];
      assert forall t :: t in ts <==> t in init || t == ts[|ts| - 1];
    }
  }

  /** With distinct names nothing is shadowed: every tool is found under its
      own name, and the dictionary has one key per tool. */
  lemma {:induction false} MapOfDistinct(ts: seq<Tool>)
    requires DistinctNames(ts)
    ensures |MapOf(ts)| == |ts|
    ensures forall i :: 0 <= i < |ts| ==> ts[i].name in MapOf(ts) && MapOf(ts)[ts[i].name] == ts[i]
  {
    if ts != [] {
      var n := |ts| - 1;
      var init := ts[..n];
      MapOfDistinct(init);
      MapOfKeys(init);
      forall t | t in init ensures t.name != ts[n].name {
        var k :| 0 <= k < n && init[k] == t;
        assert ts[k] == t;
      }
      assert ts[n].name !in MapOf(init);
      assert MapOf(ts).Keys == MapOf(init).Keys + {ts[n].name};
      forall i | 0 <= i < |ts|
        ensures ts[i].name in MapOf(ts) && MapOf(ts)[ts[i].name] == ts[i]
      {
        if i < n {
          assert init[i] == ts[i];
          assert ts[i].name != ts[n].name;
        }
      }
    }
  }

  lemma RegistryNames()
    ensures Names(GetTools()) == [CreateName, ModifyName, RetrieveName, OpenName, SaveName]
    ensures DistinctNames(GetTools())
  {
    assert |CreateName| == 20 && |ModifyName| == 18 && |RetrieveName| == 21 && |OpenName| == 9 && |SaveName| == 10;
  }

  /** `tool_map` is `{tool.name: tool for tool in get_tools()}`. */
  lemma ToolMapIsComprehension()
    ensures ToolMap() == MapOf(GetTools())
  {
    var c, m, r, o, v := CreateTool, ModifyTool, RetrieveTool, OpenTool, SaveTool;
    assert [c, m, r, o, v][..4] == [c, m, r, o];
    assert [c, m, r, o][..3] == [c, m, r];
    assert [c, m, r][..2] == [c, m];
    assert [c, m][..1] == [c];
    assert [c][..0] == [];
    assert MapOf([c]) == map[CreateName := c];
    assert MapOf([c, m]) == map[CreateName := c, ModifyName := m];
    assert MapOf([c, m, r]) == map[CreateName := c, ModifyName := m, RetrieveName := r];
    assert MapOf([c, m, r, o]) == map[CreateName := c, ModifyName := m, RetrieveName := r, OpenName := o];
  }

  /** The registry: five tools in the order create, modify, retrieve, open,
      save; their names are distinct, so `tool_map` has exactly five keys
      and maps each name back to its tool. */
  lemma RegistryShape()
    ensures Names(GetTools()) == [CreateName, ModifyName, RetrieveName, OpenName, SaveName]
    ensures DistinctNames(GetTools())
    ensures |MapOf(GetTools())| == 5
    ensures MapOf(GetTools()).Keys == {CreateName, ModifyName, RetrieveName, OpenName, SaveName}
    ensures forall t :: t in GetTools() ==> MapOf(GetTools())[t.name] == t
  {
    var ts := GetTools();
    RegistryNames();
    MapOfDistinct(ts);
    ToolMapIsComprehension();
    forall t | t in ts ensures MapOf(ts)[t.name] == t {
      var i :| 0 <= i < |ts| && ts[i] == t;
    }
  }

  // ---------------------------------------------------------------------
  // The catalog rendered for the planner's prompt

  /** One catalog entry. `argsRepr` stands for the tool library's rendering
      of the argument schema (`{tool.args}`), which this model leaves open. */
  function Entry(t: Tool, argsRepr: Tool -> string): string
  {
    "- " + t.name + ": " + t.description + "\n  Argomenti: " + argsRepr(t)
  }

  function Entries(ts: seq<Tool>, argsRepr: Tool -> string): (r: seq<string>)
    ensures |r| == |ts|
    ensures forall i :: 0 <= i < |ts| ==> r[i] == Entry(ts[i], argsRepr)
  {
    if ts == [] then [] else Entries(ts[..|ts| - 1], argsRepr) + [Entry(ts[|ts| - 1], argsRepr)]
  }

  /** `"\n".join(xs)`. */
  function JoinLines(xs: seq<string>): string
  {
    if xs == [] then "" else if |xs| == 1 then xs[0] else xs[0] + "\n" + JoinLines(xs[1..])
  }

  /** Joining one more line adds exactly one separator, between the old text
      and the new line. */
  lemma {:induction false} JoinLinesSnoc(xs: seq<string>, x: string)
    requires xs != []
    ensures JoinLines(xs + [x]) == JoinLines(xs) + "\n" + x
  {
    if |xs| == 1 {
      assert (xs + [x])[1..] == [x];
    } else {
      assert (xs + [x])[1..] == xs[1..] + [x];
      JoinLinesSnoc(xs[1..], x);
    }
  }

  function TotalLength(xs: seq<string>): nat
  {
    if xs == [] then 0 else |xs[0]| + TotalLength(xs[1..])
  }

  /** The joined text is the lines and one separator between each two
      neighbours: no separator before the first or after the last. */
  lemma {:induction false} JoinLinesLayout(xs: seq<string>)
    requires xs != []
    ensures |JoinLines(xs)| == TotalLength(xs) + |xs| - 1
    ensures StartsWith(JoinLines(xs), xs[0])
    ensures EndsWith(JoinLines(xs), xs[|xs| - 1])
  {
    if |xs| > 1 {
      JoinLinesLayout(xs[1..]);
      var rest := JoinLines(xs[1..]);
      assert JoinLines(xs) == xs[0] + "\n" + rest;
      assert (xs[0] + "\n" + rest)[..|xs[0]|] == xs[0];
      var whole := xs[0] + "\n" + rest;
      assert whole[|whole| - |rest|..] == rest;
      assert rest[|rest| - |xs[|xs| - 1]|..] == xs[|xs| - 1];
      assert whole[|whole| - |xs[|xs| - 1]|..] == rest[|rest| - |xs[|xs| - 1]|..];
    }
  }

  /** `format_tools_for_prompt`: one entry per tool, in input order, gathered
      in a list and joined by newlines. */
  method FormatToolsForPrompt(tools: seq<Tool>, argsRepr: Tool -> string) returns (text: string)
    ensures text == JoinLines(Entries(tools, argsRepr))
    ensures tools == [] ==> text == ""
    ensures |tools| == 1 ==> text == Entry(tools[0], argsRepr)
  {
    var descriptions: seq<string> := [];
    for i := 0 to |tools|
      invariant descriptions == Entries(tools[..i], argsRepr)
    {
      assert tools[..i + 1][..i] == tools[..i];
      descriptions := descriptions + [Entry(tools[i], argsRepr)];
    }
    assert tools[..|tools|] == tools;
    text := JoinLines(descriptions);
  }

  /** The catalog of a longer list is the catalog of all but the last tool,
      a newline, and the last tool's entry. */
  lemma CatalogSnoc(tools: seq<Tool>, t: Tool, argsRepr: Tool -> string)
    requires tools != []
    ensures JoinLines(Entries(tools + [t], argsRepr)) == JoinLines(Entries(tools, argsRepr)) + "\n" + Entry(t, argsRepr)
  {
    assert (tools + [t])[..|tools|] == tools;
    JoinLinesSnoc(Entries(tools, argsRepr), Entry(t, argsRepr));
  }

  // ---------------------------------------------------------------------
  // The messages the agent tools send

  /** An agent, seen from a tool: the user message in, the content of the
      agent's last message out, or the exception it raised. */
  type Agent = string -> Outcome<string>

  const TextLabel := "Testo: "
  const TitleLabel := "\nTitolo suggerito: "
  const DocumentHeader := "DOCUMENTO ATTUALE:\n"
  const CommandHeader := "\n\nCOMANDO:\n"
  const RequestHeader := "\n\nRICHIESTA:\n"

  /** The organizer's input in `crea_nuovo_documento`. */
  function OrganizerInput(cleaned: string, titolo: Option<string>): string
  {
    var input := TextLabel + cleaned;
    if Truthy(titolo) then input + TitleLabel + titolo.value else input
  }

  /** The organizer sees "Testo: " and the cleaned text, followed by the
      suggested title exactly when the title is truthy. */
  lemma OrganizerInputShape(cleaned: string, titolo: Option<string>)
    ensures StartsWith(OrganizerInput(cleaned, titolo), TextLabel + cleaned)
    ensures !Truthy(titolo) <==> OrganizerInput(cleaned, titolo) == TextLabel + cleaned
    ensures Truthy(titolo) ==> EndsWith(OrganizerInput(cleaned, titolo), TitleLabel + titolo.value)
  {
    var base := TextLabel + cleaned;
    var r := OrganizerInput(cleaned, titolo);
    assert r[..|base|] == base;
    if Truthy(titolo) {
      assert |r| > |base|;
      assert r[|r| - |TitleLabel + titolo.value|..] == TitleLabel + titolo.value;
    }
  }

  /** The message `modifica_documento` sends to the modifier agent. */
  function ModifierInput(documentoAttuale: string, comando: string): string
  {
    DocumentHeader + documentoAttuale + CommandHeader + comando
  }

  /** The message `recupera_informazioni` sends to the retrieval agent. */
  function RetrievalInput(documentoAttuale: string, query: string): string
  {
    DocumentHeader + documentoAttuale + RequestHeader + query
  }

  /** The modifier's message does not determine its parts: a document that
      itself contains the command header yields the same message as a
      shorter document with a longer command. */
  lemma ModifierInputAmbiguous()
    ensures ModifierInput("a" + CommandHeader + "b", "c") == ModifierInput("a", "b" + CommandHeader + "c")
  {
  }

  /** Nor does it for documents too short to contain the command header:
      since the header ends with the newline it starts with, the empty
      document and the header without its last character collide. */
  lemma ModifierInputAmbiguousWithoutHeader()
    ensures var d2 := CommandHeader[..|CommandHeader| - 1];
      |d2| < |CommandHeader|
      && ModifierInput("", CommandHeader[1..] + "c") == ModifierInput(d2, "c")
  {
    var d2 := CommandHeader[..|CommandHeader| - 1];
    assert CommandHeader[|CommandHeader| - 1..] == CommandHeader[..1];
    assert CommandHeader + CommandHeader[1..] == d2 + CommandHeader;
  }

  /** `crea_nuovo_documento`: clean the raw text, then organize it. */
  function CreaNuovoDocumento(testoGrezzo: string, titolo: Option<string>, cleaner: Agent, organizer: Agent): Outcome<string>
  {
    match cleaner(testoGrezzo)
    case Raised(e) => Raised(e)
    case Ok(cleaned) => organizer(OrganizerInput(cleaned, titolo))
  }

  /** `modifica_documento`. */
  function ModificaDocumento(comando: string, documentoAttuale: string, modifier: Agent): Outcome<string>
  {
    modifier(ModifierInput(documentoAttuale, comando))
  }

  /** `recupera_informazioni`. */
  function RecuperaInformazioni(query: string, documentoAttuale: string, retriever: Agent): Outcome<string>
  {
    retriever(RetrievalInput(documentoAttuale, query))
  }

  /** The two document tools send their agent the live document under its
      header, then their own separator and the plan's command or question,
      and return the agent's reply unchanged. */
  lemma DocumentToolMessages(comando: string, query: string, doc: string, modifier: Agent, retriever: Agent)
    ensures ModificaDocumento(comando, doc, modifier) == modifier("DOCUMENTO ATTUALE:\n" + doc + "\n\nCOMANDO:\n" + comando)
    ensures RecuperaInformazioni(query, doc, retriever) == retriever("DOCUMENTO ATTUALE:\n" + doc + "\n\nRICHIESTA:\n" + query)
    ensures StartsWith(ModifierInput(doc, comando), DocumentHeader + doc)
    ensures EndsWith(ModifierInput(doc, comando), CommandHeader + comando)
    ensures StartsWith(RetrievalInput(doc, query), DocumentHeader + doc)
    ensures EndsWith(RetrievalInput(doc, query), RequestHeader + query)
  {
    var m := ModifierInput(doc, comando);
    var r := RetrievalInput(doc, query);
    assert m[..|DocumentHeader + doc|] == DocumentHeader + doc;
    assert m[|m| - |CommandHeader + comando|..] == CommandHeader + comando;
    assert r[..|DocumentHeader + doc|] == DocumentHeader + doc;
    assert r[|r| - |RequestHeader + query|..] == RequestHeader + query;
  }

  /** The create tool hands the cleaner the raw text and the organizer
      exactly `OrganizerInput` of the cleaner's reply and the title (see
      `OrganizerInputShape`): "Testo: " and the reply, then the suggested
      title only when it is truthy. What it returns is the organizer's reply,
      unchanged; a failing cleaner's exception propagates. */
  lemma CreaNuovoDocumentoPipeline(testoGrezzo: string, titolo: Option<string>, cleaner: Agent, organizer: Agent)
    ensures cleaner(testoGrezzo).Raised? ==>
      CreaNuovoDocumento(testoGrezzo, titolo, cleaner, organizer) == Raised(cleaner(testoGrezzo).error)
    ensures cleaner(testoGrezzo).Ok? ==>
      CreaNuovoDocumento(testoGrezzo, titolo, cleaner, organizer)
        == organizer(OrganizerInput(cleaner(testoGrezzo).value, titolo))
    ensures cleaner(testoGrezzo).Ok? && !Truthy(titolo) ==>
      CreaNuovoDocumento(testoGrezzo, titolo, cleaner, organizer)
        == organizer("Testo: " + cleaner(testoGrezzo).value)
    ensures cleaner(testoGrezzo).Ok? && Truthy(titolo) ==>
      CreaNuovoDocumento(testoGrezzo, titolo, cleaner, organizer)
        == organizer("Testo: " + cleaner(testoGrezzo).value + "\nTitolo suggerito: " + titolo.value)
  {
  }

  // ---------------------------------------------------------------------
  // The file tools over an in-memory file map

  datatype SaveMode = Append | Overwrite

  /** The two file tools are each defined twice in the module; Python binds a
      name to its last definition. */
  datatype FileToolDef = OpenDef | SaveDef(mode: SaveMode)

  /** The definitions in source order. */
  const FileToolDefinitions: seq<(string, FileToolDef)> :=
    [(OpenName, OpenDef), (SaveName, SaveDef(Append)), (OpenName, OpenDef), (SaveName, SaveDef(Overwrite))]

  /** The definition a module-level name is bound to: its last one. */
  function Binding(defs: seq<(string, FileToolDef)>, name: string): Option<FileToolDef>
  {
    if defs == [] then None
    else if defs[|defs| - 1].0 == name then Some(defs[|defs| - 1].1)
    else Binding(defs[..|defs| - 1], name)
  }

  /** The registered `salva_file` is the second definition, which overwrites. */
  lemma RegisteredFileTools()
    ensures Binding(FileToolDefinitions, SaveName) == Some(SaveDef(Overwrite))
    ensures Binding(FileToolDefinitions, OpenName) == Some(OpenDef)
  {
  }

  function NotFoundFile(filename: string): string
  {
    "Errore: File '" + filename + "' non trovato."
  }

  function SavedMessage(filename: string): string
  {
    "File '" + filename + "' salvato con successo."
  }

  /** What `apri_file` returns. `fault` is any exception other than a
      missing file (a permission error, a decoding error, ...), given as its
      text. */
  function OpenText(files: map<string, string>, filename: string, fault: Option<string>): string
  {
    if filename !in files then NotFoundFile(filename)
    else if fault.Some? then "Errore durante l'apertura del file: " + fault.value
    else files[filename]
  }

  /** The files after a successful save in the given mode. */
  function SavedFiles(files: map<string, string>, filename: string, content: string, mode: SaveMode): map<string, string>
  {
    match mode
    case Overwrite => files[filename := content]
    case Append => files[filename := (if filename in files then files[filename] else "") + content]
  }

  /** What `salva_file` returns. */
  function SaveText(filename: string, fault: Option<string>): string
  {
    if fault.Some? then "Errore durante il salvataggio del file: " + fault.value else SavedMessage(filename)
  }

  /** Saving with the registered (overwriting) tool and then opening the same
      name gives back exactly the saved content; other files are untouched. */
  lemma SaveThenOpen(files: map<string, string>, filename: string, content: string)
    ensures OpenText(SavedFiles(files, filename, content, Overwrite), filename, None) == content
    ensures forall f :: f != filename ==>
      OpenText(SavedFiles(files, filename, content, Overwrite), f, None) == OpenText(files, f, None)
  {
  }

  /** The shadowed, appending definition would break that round trip on a
      file that already has content. */
  lemma AppendBreaksRoundTrip()
    ensures OpenText(SavedFiles(map["a.md" := "x"], "a.md", "y", Append), "a.md", None) == "xy"
  {
  }

  /** The file system the two file tools act on. */
  class FileStore {
    var files: map<string, string>

    constructor (initial: map<string, string>)
      ensures files == initial
    {
      files := initial;
    }

    /** `apri_file`: the not-found text, the opening-error text, or the
        content, in the order of the `except` clauses. */
    method ApriFile(filename: string, fault: Option<string>) returns (r: string)
      ensures filename !in files ==> r == NotFoundFile(filename)
      ensures filename in files && fault.Some? ==> r == "Errore durante l'apertura del file: " + fault.value
      ensures filename in files && fault.None? ==> r == files[filename]
    {
      r := OpenText(files, filename, fault);
    }

    /** `salva_file` as registered: mode 'w', so the file's old content is
      replaced. A failing save leaves the files as they were. */
    method SalvaFile(filename: string, content: string, fault: Option<string>) returns (r: string)
      modifies this
      ensures fault.None? ==> files == SavedFiles(old(files), filename, content, Overwrite)
      ensures fault.Some? ==> files == old(files)
      ensures r == SaveText(filename, fault)
    {
      if fault.Some? {
        r := "Errore durante il salvataggio del file: " + fault.value;
      } else {
        files := files[filename := content];
        r := SavedMessage(filename);
      }
    }
  }
}
