/** The chat page's bookkeeping: the history of messages, the input box,
    the manager kept across turns, and the Markdown rendering of the chat
    used by the export buttons. */
module App {
  import opened PyValues
  import opened Manager

  datatype Message = Message(role: string, content: string)

  // ---------------------------------------------------------------------
  // str.capitalize on ASCII letters

  function Upper(c: char): char
  {
    if 'a' <= c <= 'z' then (c as int - 32) as char else c
  }

  function Lower(c: char): char
  {
    if 'A' <= c <= 'Z' then (c as int + 32) as char else c
  }

  function LowerAll(s: string): (r: string)
    ensures |r| == |s|
  {
    if s == [] then [] else [Lower(s[0])] + LowerAll(s[1..])
  }

  lemma {:induction false} LowerAllChars(s: string)
    ensures forall i :: 0 <= i < |s| ==> LowerAll(s)[i] == Lower(s[i])
  {
    if s != [] {
      LowerAllChars(s[1..]);
    }
  }

  /** `str.capitalize`: the first character in upper case, all the others
      in lower case (see `CapitalizeChars`). */
  function Capitalize(s: string): (r: string)
    ensures |r| == |s|
  {
    if s == [] then [] else [Upper(s[0])] + LowerAll(s[1..])
  }

  lemma CapitalizeChars(s: string)
    ensures s != [] ==> Capitalize(s)[0] == Upper(s[0])
    ensures forall i :: 1 <= i < |s| ==> Capitalize(s)[i] == Lower(s[i])
  {
    if s != [] {
      LowerAllChars(s[1..]);
    }
  }

  /** Capitalizing twice is capitalizing once. */
  lemma CapitalizeIdempotent(s: string)
    ensures Capitalize(Capitalize(s)) == Capitalize(s)
  {
    var c := Capitalize(s);
    var cc := Capitalize(c);
    CapitalizeChars(s);
    CapitalizeChars(c);
    forall i | 1 <= i < |s|
      ensures cc[i] == c[i]
    {
      assert c[i] == Lower(s[i]);
    }
    if s != [] {
      assert cc[0] == Upper(Upper(s[0]));
    }
  }

  /** The two roles the page writes. */
  lemma RoleNames()
    ensures Capitalize("user") == "User"
    ensures Capitalize("assistant") == "Assistant"
  {
    assert Capitalize("user") == [Upper('u')] + LowerAll("ser");
    assert Capitalize("assistant") == [Upper('a')] + LowerAll("ssistant");
  }

  // ---------------------------------------------------------------------
  // Markdown rendering of the chat and the export dispatch

  /** One message as the export writes it. */
  function ChatLine(m: Message): string
  {
    "**" + Capitalize(m.role) + "**: " + m.content + "\n\n"
  }

  /** The lines of the messages, in order, each rendered by `line`. */
  function Render(history: seq<Message>, line: Message -> string): string
    decreases |history|
  {
    if history == [] then "" else Render(history[..|history| - 1], line) + line(history[|history| - 1])
  }

  /** Rendering distributes over concatenation of histories. */
  lemma {:induction false} RenderAppend(a: seq<Message>, b: seq<Message>, line: Message -> string)
    ensures Render(a + b, line) == Render(a, line) + Render(b, line)
    decreases |b|
  {
    if b == [] {
      assert a + b == a;
    } else {
      var front := b[..|b| - 1];
      assert (a + b)[..|a + b| - 1] == a + front;
      assert (a + b)[|a + b| - 1] == b[|b| - 1];
      RenderAppend(a, front, line);
    }
  }

  /** The chat as Markdown: the lines of the messages, in order. */
  function ChatMarkdown(history: seq<Message>): string
  {
    Render(history, ChatLine)
  }

  /** The rendering of a concatenated history is the concatenation of the
      renderings: the export lists the messages in order, each once. */
  lemma ChatMarkdownAppend(a: seq<Message>, b: seq<Message>)
    ensures ChatMarkdown(a + b) == ChatMarkdown(a) + ChatMarkdown(b)
  {
    RenderAppend(a, b, ChatLine);
  }

  /** A single message renders as its line. */
  lemma ChatMarkdownSingle(m: Message)
    ensures ChatMarkdown([m]) == ChatLine(m)
  {
    assert [m][..0] == [];
    assert Render([m], ChatLine) == Render([], ChatLine) + ChatLine(m);
    assert "" + ChatLine(m) == ChatLine(m);
  }

  /** Every message starts its own line block: a history's rendering starts
      with its first message's line and ends with its last message's. */
  lemma ChatMarkdownEnds(history: seq<Message>)
    requires history != []
    ensures StartsWith(ChatMarkdown(history), ChatLine(history[0]))
    ensures EndsWith(ChatMarkdown(history), ChatLine(history[|history| - 1]))
  {
    var text := ChatMarkdown(history);
    var first := ChatLine(history[0]);
    var last := ChatLine(history[|history| - 1]);
    assert history == [history[0]] + history[1..];
    ChatMarkdownAppend([history[0]], history[1..]);
    ChatMarkdownSingle(history[0]);
    assert text == first + ChatMarkdown(history[1..]);
    assert text[..|first|] == first;
    assert history == history[..|history| - 1] + [history[|history| - 1]];
    ChatMarkdownAppend(history[..|history| - 1], [history[|history| - 1]]);
    ChatMarkdownSingle(history[|history| - 1]);
    assert text == ChatMarkdown(history[..|history| - 1]) + last;
    assert text[|text| - |last|..] == last;
  }

  /** The converters of the three other formats; their output is not
      modelled. */
  datatype Converter = Docx | Html | Pdf

  /** What an export hands to the download button: the Markdown text
      itself (`.encode("utf-8")`, an injective encoding, shown as the text)
      or the output of a converter applied to the Markdown text. */
  datatype Exported = Encoded(text: string) | Converted(converter: Converter, markdown: string)

  /** The Markdown text an export was made from. */
  function Source(e: Exported): string
  {
    match e
    case Encoded(text) => text
    case Converted(_, markdown) => markdown
  }

  /** The format dispatch shared by both export functions. */
  function ExportAs(markdown: string, format: string): (e: Exported)
    ensures Source(e) == markdown
    ensures e.Encoded? <==> format != "DOCX" && format != "HTML" && format != "PDF"
  {
    if format == "Markdown" then Encoded(markdown)
    else if format == "DOCX" then Converted(Docx, markdown)
    else if format == "HTML" then Converted(Html, markdown)
    else if format == "PDF" then Converted(Pdf, markdown)
    else Encoded(markdown)
  }

  /** `export_file`: the document through the dispatch. */
  function ExportFile(contentMarkdown: string, format: string): (e: Exported)
    ensures format == "Markdown" ==> e == Encoded(contentMarkdown)
    ensures format != "DOCX" && format != "HTML" && format != "PDF" ==> e == Encoded(contentMarkdown)
    ensures Source(e) == contentMarkdown
  {
    ExportAs(contentMarkdown, format)
  }

  /** `export_chat`: the chat's Markdown, built message by message, through
      the dispatch. */
  method ExportChat(history: seq<Message>, format: string) returns (e: Exported)
    ensures e == ExportAs(ChatMarkdown(history), format)
    ensures history == [] ==> Source(e) == ""
    ensures format != "DOCX" && format != "HTML" && format != "PDF" ==> e == Encoded(ChatMarkdown(history))
  {
    var contentMarkdown := "";
    for i := 0 to |history|
      invariant contentMarkdown == ChatMarkdown(history[..i])
    {
      assert history[..i + 1][..i] == history[..i];
      contentMarkdown := contentMarkdown + ChatLine(history[i]);
    }
    assert history[..|history|] == history;
    e := ExportAs(contentMarkdown, format);
  }

  // ---------------------------------------------------------------------
  // The chat session

  /** The page's session state: the history, the input box, and the manager
      created once and kept across turns. */
  class ChatSession {
    var messages: seq<Message>
    var userInput: string
    const manager: ReportManager

    constructor ()
      ensures messages == [] && userInput == ""
      ensures fresh(manager) && manager.currentState == InitialState
    {
      messages := [];
      userInput := "";
      manager := new ReportManager();
    }

    /** The input box receives text, typed or transcribed. */
    method EnterText(text: string)
      modifies this
      ensures userInput == text && messages == old(messages)
    {
      userInput := text;
    }

    /** `process_input`: an empty prompt does nothing at all; otherwise the
        manager runs once on the prompt, the prompt and the answer are
        appended, in that order, after the unchanged earlier history, and
        the input box is cleared. */
    method ProcessInput(or: Oracles)
      modifies this, manager
      ensures old(userInput) == "" ==>
        messages == old(messages) && userInput == "" && manager.currentState == old(manager.currentState)
      ensures old(userInput) != "" ==>
        manager.currentState == SessionRun(old(manager.currentState), old(userInput), or)
        && messages == old(messages) + [Message("user", old(userInput)), Message("assistant", "\n" + manager.GetAnswer())]
        && userInput == ""
    {
      var prompt := userInput;
      if prompt == "" {
        return;
      }
      manager.Run(prompt, or);
      var response := manager.GetAnswer();
      messages := messages + [Message("user", prompt)];
      messages := messages + [Message("assistant", "\n" + response)];
      userInput := "";
    }
  }

  /** What a processed turn adds to the exported chat: a user line with the
      prompt and an assistant line whose content starts on a new line. */
  lemma TurnExport(history: seq<Message>, prompt: string, answer: string)
    ensures ChatMarkdown(history + [Message("user", prompt), Message("assistant", "\n" + answer)]) ==
      ChatMarkdown(history) + ("**User**: " + prompt + "\n\n") + ("**Assistant**: " + ("\n" + answer) + "\n\n")
  {
    var user := Message("user", prompt);
    var assistant := Message("assistant", "\n" + answer);
    assert history + [user, assistant] == (history + [user]) + [assistant];
    ChatMarkdownAppend(history + [user], [assistant]);
    ChatMarkdownAppend(history, [user]);
    ChatMarkdownSingle(user);
    ChatMarkdownSingle(assistant);
    UserLine(prompt);
    AssistantLine("\n" + answer);
  }

  lemma UserLine(content: string)
    ensures ChatLine(Message("user", content)) == "**User**: " + content + "\n\n"
  {
    RoleNames();
  }

  lemma AssistantLine(content: string)
    ensures ChatLine(Message("assistant", content)) == "**Assistant**: " + content + "\n\n"
  {
    RoleNames();
  }
}
