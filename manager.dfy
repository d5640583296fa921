/** The compiled graph, planner -> executor -> (executor | END), written as
    an explicit loop, and the session wrapper `ReportManager` that keeps the
    graph state between runs and reads the answer out of it. */
module Manager {
  import opened PyValues
  import opened Tools
  import opened Nodes

  /** The collaborators the core cannot see: the planner's language model
      (its prompt is built from the fixed template, the fixed tool catalog
      and the input, so it is given the input), `json.loads`, and tool
      invocation. */
  datatype Oracles = Oracles(llm: string -> Outcome<string>, decode: string -> Decoded, tool: ToolOracle)

  /** A run of the executor loop: its outcome, the record each executor call
      wrote (in call order) and the number of executor calls. */
  datatype Exec = Exec(outcome: Outcome<State>, records: seq<Record>, calls: nat)

  /** The executor node run again and again: once, and then for as long as
      `should_continue` routes back to it. An exception ends the run. */
  function Loop(s: State, tool: ToolOracle): Exec
    decreases |s.plan|
  {
    match ExecutorStep(s, tool)
    case Raised(e) => Exec(Raised(e), [], 1)
    case Ok(next) =>
      var made := if s.plan == [] then [] else next.pastSteps;
      if ShouldContinue(next) == End then Exec(Ok(next), made, 1)
      else
        var more := Loop(next, tool);
        Exec(more.outcome, made + more.records, more.calls + 1)
  }

  /** What is left of a run once the state `s` has been reached after an
      executor call. */
  function Continue(s: State, tool: ToolOracle): Outcome<State>
  {
    if ShouldContinue(s) == End then Ok(s) else Loop(s, tool).outcome
  }

  /** `self.app.invoke(state)`: the planner once, then the executor loop. */
  function GraphRun(s: State, or: Oracles): Exec
  {
    match or.llm(s.input)
    case Raised(e) => Exec(Raised(e), [], 0)
    case Ok(raw) => Loop(Merge(s, PlannerNode(raw, or.decode)), or.tool)
  }

  /** The graph run on a fresh set of channels: the planner's update is
      applied, the executor runs once, and then again while the route says
      so. */
  method InvokeGraph(s: State, or: Oracles) returns (r: Outcome<State>)
    ensures r == GraphRun(s, or).outcome
  {
    var reply := or.llm(s.input);
    if reply.Raised? {
      return Raised(reply.error);
    }
    var ch := new Channels(s);
    ch.Apply(PlannerNode(reply.value, or.decode));
    ghost var planned := ch.Snapshot();
    var u := ExecutorNode(ch, or.tool);
    if u.Raised? {
      return Raised(u.error);
    }
    ch.Apply(u.value);
    while ShouldContinue(ch.Snapshot()) == ToExecutor
      invariant Loop(planned, or.tool).outcome == Continue(ch.Snapshot(), or.tool)
      decreases |ch.plan|
    {
      u := ExecutorNode(ch, or.tool);
      if u.Raised? {
        return Raised(u.error);
      }
      ch.Apply(u.value);
    }
    return Ok(ch.Snapshot());
  }

  /** `ReportManager.run` on a state value: store the input, run the graph,
      and keep its final state, or on an exception keep the state as it was
      with the exception's text as the response. */
  function SessionRun(s: State, input: string, or: Oracles): State
  {
    var started := s.(input := input);
    match GraphRun(started, or).outcome
    case Ok(final) => final
    case Raised(e) => started.(response := e)
  }

  /** `get_answer`: the sentinel response "markdown" stands for the
      document. */
  function Answer(s: State): string
  {
    if s.response == "markdown" then s.documentContent else s.response
  }

  const InitialState := State("", [], [], "", "")

  /** The session wrapper. */
  class ReportManager {
    var currentState: State

    /** A fresh manager: empty input, response and document, no plan and no
        past steps. */
    constructor ()
      ensures currentState == InitialState
      ensures currentState.input == "" && currentState.response == "" && currentState.documentContent == ""
      ensures currentState.plan == [] && currentState.pastSteps == []
    {
      currentState := InitialState;
    }

    /** `run`: the input is stored before the graph runs, so it survives an
        exception; everything else is replaced by the graph's final state,
        or on an exception only the response changes. */
    method Run(input: string, or: Oracles)
      modifies this
      ensures currentState == SessionRun(old(currentState), input, or)
    {
      currentState := currentState.(input := input);
      var r := InvokeGraph(currentState, or);
      match r
      case Ok(final) => currentState := final;
      case Raised(e) => currentState := currentState.(response := e);
    }

    /** `get_answer`: the document when the response is "markdown", the
        response otherwise. It only reads, so repeated calls agree. */
    function GetAnswer(): (a: string)
      reads this
      ensures currentState.response == "markdown" ==> a == currentState.documentContent
      ensures currentState.response != "markdown" ==> a == currentState.response
    {
      Answer(currentState)
    }

    /** `get_md_document`: the stored document, unchanged. */
    function GetMdDocument(): (d: string)
      reads this
      ensures d == currentState.documentContent
    {
      currentState.documentContent
    }
  }

  // ---------------------------------------------------------------------
  // Properties of the executor loop

  /** The plan steps the records are about, in order. */
  function Steps(rs: seq<Record>): seq<JValue>
  {
    if rs == [] then [] else [rs[0].0] + Steps(rs[1..])
  }

  /** The document after a sequence of records, each step of a mutating
      tool replacing it by its result. */
  function FoldDocument(doc: string, rs: seq<Record>): string
    decreases |rs|
  {
    if rs == [] then doc else FoldDocument(DocAfter(doc, rs[0]), rs[1..])
  }

  /** Termination: the loop makes at least one executor call and at most one
      per plan step (one on an empty plan); a run that completes makes
      exactly max(1, len(plan)) calls. */
  lemma {:induction false} LoopCalls(s: State, tool: ToolOracle)
    ensures 1 <= Loop(s, tool).calls <= Max(1, |s.plan|)
    ensures Loop(s, tool).outcome.Ok? ==> Loop(s, tool).calls == Max(1, |s.plan|)
    decreases |s.plan|
  {
    match ExecutorStep(s, tool)
    case Raised(_) =>
    case Ok(next) =>
      if ShouldContinue(next) != End {
        LoopCalls(next, tool);
      }
  }

  /** FIFO: the steps are executed in exactly the plan's order, one record
      per step; a run cut short by an exception has executed a prefix of the
      plan. */
  lemma {:induction false} LoopFifo(s: State, tool: ToolOracle)
    ensures Steps(Loop(s, tool).records) <= s.plan
    ensures Loop(s, tool).outcome.Ok? ==> Steps(Loop(s, tool).records) == s.plan
    decreases |s.plan|
  {
    match ExecutorStep(s, tool)
    case Raised(_) =>
    case Ok(next) =>
      if s.plan != [] {
        var made := next.pastSteps;
        assert Steps(made) == [s.plan[0]];
        assert s.plan == [s.plan[0]] + next.plan;
        if ShouldContinue(next) != End {
          LoopFifo(next, tool);
          var more := Loop(next, tool).records;
          assert (made + more)[1..] == more;
          assert Steps(made + more) == [s.plan[0]] + Steps(more);
        }
      }
  }

  /** A completed loop has emptied the plan, has not touched input or
      response, and leaves in `past_steps` only the last step's record (the
      field has no reducer), or the old value when nothing ran. */
  lemma {:induction false} LoopFinal(s: State, tool: ToolOracle)
    requires Loop(s, tool).outcome.Ok?
    ensures |Loop(s, tool).records| == |s.plan|
    ensures Loop(s, tool).outcome.value.plan == []
    ensures Loop(s, tool).outcome.value.input == s.input
    ensures Loop(s, tool).outcome.value.response == s.response
    ensures Loop(s, tool).outcome.value.pastSteps ==
      if s.plan == [] then s.pastSteps else [Loop(s, tool).records[|s.plan| - 1]]
    decreases |s.plan|
  {
    match ExecutorStep(s, tool)
    case Raised(_) =>
    case Ok(next) =>
      if ShouldContinue(next) != End {
        LoopFinal(next, tool);
        var more := Loop(next, tool).records;
        assert |next.plan| == |s.plan| - 1;
        assert (next.pastSteps + more)[|s.plan| - 1] == more[|next.plan| - 1];
      }
  }

  /** The document after a completed loop is the result of the last mutating
      step, or the initial document when no step mutated it. */
  lemma {:induction false} LoopDocument(s: State, tool: ToolOracle)
    requires Loop(s, tool).outcome.Ok?
    ensures Loop(s, tool).outcome.value.documentContent == FoldDocument(s.documentContent, Loop(s, tool).records)
    decreases |s.plan|
  {
    match ExecutorStep(s, tool)
    case Raised(_) =>
    case Ok(next) =>
      if s.plan != [] {
        StepDocument(s, tool);
        var made := next.pastSteps;
        if ShouldContinue(next) != End {
          LoopDocument(next, tool);
          var more := Loop(next, tool).records;
          assert (made + more)[0] == made[0];
          assert (made + more)[1..] == more;
        }
      }
  }

  /** An unknown tool does not stop the plan: the loop goes on with the
      remaining steps from the state the not-found record leaves. */
  lemma UnknownToolContinues(s: State, tool: ToolOracle)
    requires s.plan != [] && s.plan[0].JObject?
    requires Hashable(ToolNameOf(s.plan[0].fields)) && !Registered(ToolNameOf(s.plan[0].fields))
    ensures var next := s.(plan := s.plan[1..], pastSteps := [(s.plan[0], NotFoundTool(ToolNameOf(s.plan[0].fields)))]);
      Loop(s, tool).outcome == Loop(next, tool).outcome
      && Loop(s, tool).records == next.pastSteps + Loop(next, tool).records
  {
  }

  // ---------------------------------------------------------------------
  // Properties of a graph run

  /** A failing planner model call ends the run before any executor call. */
  lemma PlannerModelFails(s: State, or: Oracles)
    requires or.llm(s.input).Raised?
    ensures GraphRun(s, or) == Exec(Raised(or.llm(s.input).error), [], 0)
  {
  }

  /** Undecodable model text: an empty plan, the text as the response, one
      executor call that does nothing. */
  lemma UndecodableReply(s: State, or: Oracles)
    requires or.llm(s.input).Ok? && or.decode(StripFence(or.llm(s.input).value)).DecodeError?
    ensures GraphRun(s, or) == Exec(Ok(s.(plan := [], response := StripFence(or.llm(s.input).value))), [], 1)
  {
  }

  /** Decoded JSON that is not a list: an empty plan and nothing else. */
  lemma NonListReply(s: State, or: Oracles)
    requires or.llm(s.input).Ok?
    requires var d := or.decode(StripFence(or.llm(s.input).value)); d.Decoded? && !d.value.JArray?
    ensures GraphRun(s, or) == Exec(Ok(s.(plan := [])), [], 1)
  {
  }

  /** A decoded list is the plan, in order: a completed run executes exactly
      its steps, in max(1, len) executor calls, and keeps the old response. */
  lemma ListReply(s: State, or: Oracles)
    requires or.llm(s.input).Ok?
    requires var d := or.decode(StripFence(or.llm(s.input).value)); d.Decoded? && d.value.JArray?
    requires GraphRun(s, or).outcome.Ok?
    ensures var xs := or.decode(StripFence(or.llm(s.input).value)).value.items;
      Steps(GraphRun(s, or).records) == xs
      && GraphRun(s, or).calls == Max(1, |xs|)
      && GraphRun(s, or).outcome.value.plan == []
      && GraphRun(s, or).outcome.value.response == s.response
  {
    var xs := or.decode(StripFence(or.llm(s.input).value)).value.items;
    var planned := s.(plan := xs);
    assert Merge(s, PlannerNode(or.llm(s.input).value, or.decode)) == planned;
    LoopFifo(planned, or.tool);
    LoopCalls(planned, or.tool);
    LoopFinal(planned, or.tool);
  }

  // ---------------------------------------------------------------------
  // Properties of the session

  /** An exception anywhere in the graph leaves the pre-run state, except
      for the stored input and the exception text as the response. */
  lemma RunFailureKeepsState(s: State, input: string, or: Oracles)
    requires GraphRun(s.(input := input), or).outcome.Raised?
    ensures SessionRun(s, input, or) ==
      s.(input := input, response := GraphRun(s.(input := input), or).outcome.error)
  {
  }

  /** A run whose planner produced JSON never writes the response: the
      previous turn's response survives, whatever the steps did. */
  lemma RunKeepsStaleResponse(s: State, input: string, or: Oracles)
    requires or.llm(input).Ok? && or.decode(StripFence(or.llm(input).value)).Decoded?
    requires GraphRun(s.(input := input), or).outcome.Ok?
    ensures SessionRun(s, input, or).response == s.response
  {
    var started := s.(input := input);
    var planned := Merge(started, PlannerNode(or.llm(input).value, or.decode));
    assert planned.response == s.response;
    LoopFinal(planned, or.tool);
  }

  /** A conversational reply (not JSON) becomes the answer of the turn,
      unless it is literally the sentinel; the document is untouched. */
  lemma ConversationalReply(s: State, input: string, or: Oracles)
    requires or.llm(input).Ok? && or.decode(StripFence(or.llm(input).value)).DecodeError?
    ensures SessionRun(s, input, or) == s.(input := input, plan := [], response := StripFence(or.llm(input).value))
    ensures StripFence(or.llm(input).value) != "markdown" ==> Answer(SessionRun(s, input, or)) == StripFence(or.llm(input).value)
  {
    UndecodableReply(s.(input := input), or);
  }

  /** Between runs the plan is empty and `past_steps` holds at most one
      record; every run keeps it so, including one that raised. */
  predicate Quiescent(s: State)
  {
    s.plan == [] && |s.pastSteps| <= 1
  }

  lemma RunPreservesQuiescence(s: State, input: string, or: Oracles)
    requires Quiescent(s)
    ensures Quiescent(SessionRun(s, input, or))
  {
    var started := s.(input := input);
    if or.llm(input).Ok? {
      var planned := Merge(started, PlannerNode(or.llm(input).value, or.decode));
      if Loop(planned, or.tool).outcome.Ok? {
        LoopFinal(planned, or.tool);
      }
    }
  }

  lemma InitialIsQuiescent()
    ensures Quiescent(InitialState)
    ensures Answer(InitialState) == ""
  {
  }

  // ---------------------------------------------------------------------
  // The two end-to-end scenarios

  function CreateStep(titolo: string, testo: string): JValue
  {
    JObject(map["tool_name" := JString(CreateName),
                "args" := JObject(map["titolo" := JString(titolo), "testo_grezzo" := JString(testo)])])
  }

  /** "crea un documento ...": a one-step plan with the create tool replaces
      the document with the tool's Markdown and records that step alone. The
      answer is that Markdown only if the previous response was the
      sentinel; otherwise it is the previous response. */
  lemma CreateScenario(s: State, input: string, or: Oracles, md: string)
    requires or.llm(input).Ok?
    requires or.decode(StripFence(or.llm(input).value)) == Decoded(JArray([CreateStep("Note", "ciao mondo")]))
    requires or.tool(CreateName, JObject(map["titolo" := JString("Note"), "testo_grezzo" := JString("ciao mondo")])) == Ok(md)
    ensures SessionRun(s, input, or) ==
      s.(input := input, plan := [], pastSteps := [(CreateStep("Note", "ciao mondo"), md)], documentContent := md)
    ensures Answer(SessionRun(s, input, or)) == if s.response == "markdown" then md else s.response
  {
    var step := CreateStep("Note", "ciao mondo");
    var args := map["titolo" := JString("Note"), "testo_grezzo" := JString("ciao mondo")];
    var started := s.(input := input);
    var planned := started.(plan := [step]);
    assert Merge(started, PlannerNode(or.llm(input).value, or.decode)) == planned;
    DocumentInjection(args, s.documentContent);
    assert ToolNameOf(step.fields) == JString(CreateName);
    assert ArgsOf(step.fields) == JObject(args);
    var done := planned.(plan := [], pastSteps := [(step, md)], documentContent := md);
    assert ExecutorStep(planned, or.tool) == Ok(done);
  }

  function RetrieveStep(query: string): JValue
  {
    JObject(map["tool_name" := JString(RetrieveName), "args" := JObject(map["query" := JString(query)])])
  }

  /** "elenca le sezioni": a one-step retrieval plan hands the tool the live
      document, records the tool's text and leaves the document unchanged. */
  lemma RetrieveScenario(s: State, input: string, or: Oracles, query: string, info: string)
    requires or.llm(input).Ok?
    requires or.decode(StripFence(or.llm(input).value)) == Decoded(JArray([RetrieveStep(query)]))
    requires or.tool(RetrieveName, JObject(map["query" := JString(query), "documento_attuale" := JString(s.documentContent)])) == Ok(info)
    ensures SessionRun(s, input, or) == s.(input := input, plan := [], pastSteps := [(RetrieveStep(query), info)])
  {
    var step := RetrieveStep(query);
    var args := map["query" := JString(query)];
    var started := s.(input := input);
    var planned := started.(plan := [step]);
    assert Merge(started, PlannerNode(or.llm(input).value, or.decode)) == planned;
    DocumentInjection(args, s.documentContent);
    assert args["documento_attuale" := JString(s.documentContent)]
      == map["query" := JString(query), "documento_attuale" := JString(s.documentContent)];
    assert ToolNameOf(step.fields) == JString(RetrieveName);
    assert ArgsOf(step.fields) == JObject(args);
    var done := planned.(plan := [], pastSteps := [(step, info)]);
    assert ExecutorStep(planned, or.tool) == Ok(done);
  }
}
