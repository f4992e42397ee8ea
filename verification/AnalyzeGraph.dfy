/**
 The analyze stage: a graph with a research loop that runs tools, keeps a log of their results and
 ends in exactly one node that writes a report. The loop is cut off by the length of the log, while
 the number of node visits the engine allows is set elsewhere from the same maximum.
 */
module AnalyzeGraph {
  import opened Prelude

  datatype Node =
    | LoadContext | Research | Tools | RecordResearch | Decide
    | WriteReport | Unsupported | PrepareHitl | Finalize | End

  /** The research tools; any other name is kept as it is. */
  datatype ToolName = ReadArtifact | ListArtifacts | SearchRelatedDocs | NoName | OtherTool(name: string)

  /** The JSON object in a tool message, as far as it is looked at. */
  datatype ToolData = NotAnObject | Object(key: string, keyPrefix: string, query: string, keys: string)

  datatype Message =
    | Reply(calls: seq<string>)
    | ToolMessage(name: ToolName, content: string, data: ToolData)
    | OtherMessage(content: string)

  datatype ResearchStep = ResearchStep(tool: ToolName, target: string, finding: string)

  datatype Decision = Decision(sufficient: bool, other: bool)

  /** `node` is the node to visit next; `visited` are the nodes visited so far. */
  datatype State = State(
    node: Node, visited: seq<Node>, messages: seq<Message>, research: seq<ResearchStep>, recorded: nat,
    loadFailed: bool, needsHitl: bool, decision: Option<Decision>)

  /** What the outside world contributes to one visit. */
  datatype Input =
    | Context(found: bool)
    | ModelReply(calls: seq<string>)
    | ToolResults(results: seq<Message>)
    | ModelDecision(decision: Option<Decision>)
    | Nothing

  function Init(messages: seq<Message>): State {
    State(LoadContext, [], messages, [], 0, false, false, None)
  }

  // ---------------------------------------------------------------- the research log

  function Clipped(s: string, n: nat): string {
    if |s| <= n then s else s[..n]
  }

  /** A result under the name of its tool, with what was asked for and at most 4000 characters of what was found. */
  function StepOf(m: Message): (step: ResearchStep)
    requires m.ToolMessage?
    ensures step.tool == m.name
    ensures m.data.Object? && m.name.ReadArtifact? ==> step.target == m.data.key
    ensures m.data.Object? && m.name.ListArtifacts? ==> step.target == m.data.keyPrefix && step.finding == m.data.keys
    ensures m.data.Object? && m.name.SearchRelatedDocs? ==> step.target == m.data.query
    ensures m.data.NotAnObject? || m.name.NoName? || m.name.OtherTool? ==> step.target == ""
    ensures m.data.NotAnObject? || !m.name.ListArtifacts? ==>
              step.finding <= m.content && |step.finding| == if |m.content| <= 4000 then |m.content| else 4000
  {
    var finding := Clipped(m.content, 4000);
    match m.data
    case NotAnObject => ResearchStep(m.name, "", finding)
    case Object(key, keyPrefix, query, keys) =>
      match m.name
      case ReadArtifact => ResearchStep(m.name, key, finding)
      case ListArtifacts => ResearchStep(m.name, keyPrefix, keys)
      case SearchRelatedDocs => ResearchStep(m.name, query, finding)
      case _ => ResearchStep(m.name, "", finding)
  }

  /** The log of the tool messages of a conversation, in order. */
  function LogOf(messages: seq<Message>): seq<ResearchStep>
    decreases |messages|
  {
    if messages == [] then []
    else
      var last := messages[|messages| - 1];
      LogOf(messages[..|messages| - 1]) + if last.ToolMessage? then [StepOf(last)] else []
  }

  lemma {:induction false} LogOfAppend(a: seq<Message>, b: seq<Message>)
    ensures LogOf(a + b) == LogOf(a) + LogOf(b)
    decreases |b|
  {
    if b == [] {
      assert a + b == a;
    } else {
      var n := |b| - 1;
      LogOfAppend(a, b[..n]);
      assert (a + b)[..|a + b| - 1] == a + b[..n];
    }
  }

  lemma {:induction false} LogOfSnoc(messages: seq<Message>, m: Message)
    ensures LogOf(messages + [m]) == LogOf(messages) + if m.ToolMessage? then [StepOf(m)] else []
  {
    assert (messages + [m])[..|messages|] == messages;
  }

  lemma {:induction false} LogOfTools(messages: seq<Message>)
    requires forall i :: 0 <= i < |messages| ==> messages[i].ToolMessage?
    ensures |LogOf(messages)| == |messages|
    decreases |messages|
  {
    if messages != [] {
      LogOfTools(messages[..|messages| - 1]);
    }
  }

  /** The tool messages of a conversation. */
  method ToolMessagesOf(messages: seq<Message>) returns (toolMessages: seq<Message>)
    ensures forall i :: 0 <= i < |toolMessages| ==> toolMessages[i].ToolMessage?
    ensures LogOf(toolMessages) == LogOf(messages) && |toolMessages| == |LogOf(messages)|
  {
    toolMessages := [];
    var n := 0;
    while n < |messages|
      invariant n <= |messages|
      invariant forall i :: 0 <= i < |toolMessages| ==> toolMessages[i].ToolMessage?
      invariant LogOf(toolMessages) == LogOf(messages[..n])
    {
      assert messages[..n + 1] == messages[..n] + [messages[n]];
      LogOfSnoc(messages[..n], messages[n]);
      if messages[n].ToolMessage? {
        LogOfSnoc(toolMessages, messages[n]);
        toolMessages := toolMessages + [messages[n]];
      }
      n := n + 1;
    }
    assert messages[..n] == messages;
    LogOfTools(toolMessages);
  }

  lemma {:induction false} LogOfToolsAt(toolMessages: seq<Message>, i: nat)
    requires forall j :: 0 <= j < |toolMessages| ==> toolMessages[j].ToolMessage?
    requires i < |toolMessages|
    ensures |LogOf(toolMessages)| == |toolMessages| && LogOf(toolMessages)[i] == StepOf(toolMessages[i])
    decreases |toolMessages|
  {
    LogOfTools(toolMessages);
    var n := |toolMessages| - 1;
    LogOfTools(toolMessages[..n]);
    if i < n {
      LogOfToolsAt(toolMessages[..n], i);
    }
  }

  /** The node that brings the log up to date: it appends the results past the recorded count. */
  method RecordResearchNode(messages: seq<Message>, research: seq<ResearchStep>, recorded: nat)
    returns (research': seq<ResearchStep>, recorded': nat)
    ensures recorded' == |LogOf(messages)|
    ensures research' == research + (if recorded <= |LogOf(messages)| then LogOf(messages)[recorded..] else [])
  {
    var toolMessages := ToolMessagesOf(messages);
    ghost var log := LogOf(messages);
    var newSteps: seq<ResearchStep> := [];
    var i := recorded;
    while i < |toolMessages|
      invariant recorded <= i
      invariant recorded <= |log| ==> i <= |log|
      invariant newSteps == if recorded <= |log| then log[recorded..i] else []
    {
      LogOfToolsAt(toolMessages, i);
      newSteps := newSteps + [StepOf(toolMessages[i])];
      i := i + 1;
    }
    recorded' := |toolMessages|;
    research' := if newSteps == [] then research else research + newSteps;
  }

  // ---------------------------------------------------------------- routers

  function RouteAfterLoad(s: State): Node {
    if s.loadFailed then PrepareHitl else Research
  }

  function ShouldContinueResearch(s: State, max: nat): Node {
    if |s.research| >= max then Decide
    else if s.messages == [] then Decide
    else
      var last := s.messages[|s.messages| - 1];
      if last.Reply? && last.calls != [] then Tools else Decide
  }

  function RouteAfterDecide(s: State): Node {
    if s.needsHitl && s.decision.None? then PrepareHitl
    else if s.decision.None? || !s.decision.value.sufficient then PrepareHitl
    else if s.decision.value.other then Unsupported
    else WriteReport
  }

  // ---------------------------------------------------------------- one visit

  /** The tool node answers every call of the last reply with one tool message. */
  predicate AnswersCalls(s: State, results: seq<Message>) {
    && s.messages != [] && s.messages[|s.messages| - 1].Reply?
    && |results| == |s.messages[|s.messages| - 1].calls|
    && forall i :: 0 <= i < |results| ==> results[i].ToolMessage?
  }

  predicate Enabled(s: State, i: Input) {
    match s.node
    case LoadContext => i.Context?
    case Research => i.ModelReply?
    case Tools => i.ToolResults? && AnswersCalls(s, i.results)
    case Decide => i.ModelDecision?
    case End => false
    case _ => i.Nothing?
  }

  function Visit(s: State, i: Input, max: nat): State
    requires Enabled(s, i)
  {
    var s := s.(visited := s.visited + [s.node]);
    match s.node
    case LoadContext =>
      var t := if i.found then s.(research := [], recorded := 0) else s.(loadFailed := true, needsHitl := true);
      t.(node := RouteAfterLoad(t))
    case Research =>
      var t := s.(messages := s.messages + [Reply(i.calls)]);
      t.(node := ShouldContinueResearch(t, max))
    case Tools => s.(messages := s.messages + i.results, node := RecordResearch)
    case RecordResearch =>
      var log := LogOf(s.messages);
      s.(research := s.research + (if s.recorded <= |log| then log[s.recorded..] else []),
         recorded := |log|, node := Research)
    case Decide =>
      var t := if i.decision.Some? then s.(decision := i.decision) else s.(needsHitl := true);
      t.(node := RouteAfterDecide(t))
    case PrepareHitl => s.(needsHitl := true, node := Finalize)
    case Finalize => s.(node := End)
    case _ => s.(node := Finalize)
  }

  predicate Runs(s: State, inputs: seq<Input>, max: nat)
    decreases |inputs|
  {
    inputs == [] || (Enabled(s, inputs[0]) && Runs(Visit(s, inputs[0], max), inputs[1..], max))
  }

  function After(s: State, inputs: seq<Input>, max: nat): State
    requires Runs(s, inputs, max)
    decreases |inputs|
  {
    if inputs == [] then s else After(Visit(s, inputs[0], max), inputs[1..], max)
  }

  /** The graph never gets stuck before its end. */
  lemma {:induction false} NeverStuck(s: State, max: nat) returns (i: Input)
    requires s.node != End && (s.node == Tools ==> s.messages != [] && s.messages[|s.messages| - 1].Reply?)
    ensures Enabled(s, i)
  {
    match s.node
    case LoadContext => i := Context(true);
    case Research => i := ModelReply([]);
    case Tools =>
      var n := |s.messages[|s.messages| - 1].calls|;
      i := ToolResults(seq(n, _ => ToolMessage(NoName, "", NotAnObject)));
    case Decide => i := ModelDecision(None);
    case _ => i := Nothing;
  }

  // ---------------------------------------------------------------- the shape of every run

  function Rounds(k: nat): seq<Node> {
    if k == 0 then [] else Rounds(k - 1) + [Research, Tools, RecordResearch]
  }

  lemma {:induction false} RoundsLength(k: nat)
    ensures |Rounds(k)| == 3 * k
  {
    if k > 0 { RoundsLength(k - 1); }
  }

  predicate IsWriter(n: Node) {
    n == WriteReport || n == Unsupported || n == PrepareHitl
  }

  /** The log is the image of the first `recorded` tool messages. */
  predicate LogExact(s: State) {
    s.recorded <= |LogOf(s.messages)| && s.research == LogOf(s.messages)[..s.recorded]
  }

  predicate Unanswered(s: State) {
    s.messages != [] && s.messages[|s.messages| - 1].Reply? && s.messages[|s.messages| - 1].calls != []
  }

  /** What a visit does to the tool results in the conversation. */
  lemma {:induction false} LogStep(s: State, i: Input, max: nat)
    requires Enabled(s, i)
    ensures var log, log' := LogOf(s.messages), LogOf(Visit(s, i, max).messages);
            && log <= log'
            && (s.node != Tools ==> log' == log)
            && (s.node == Tools && Unanswered(s) ==> |log'| > |log|)
  {
    if s.node == Research {
      LogOfAppend(s.messages, [Reply(i.calls)]);
      assert LogOf([Reply(i.calls)]) == [];
    } else if s.node == Tools {
      LogOfAppend(s.messages, i.results);
      LogOfTools(i.results);
    }
  }

  lemma {:induction false} LogExactStep(s: State, i: Input, max: nat)
    requires LogExact(s) && Enabled(s, i)
    ensures LogExact(Visit(s, i, max))
  {
    LogStep(s, i, max);
    var t := Visit(s, i, max);
    if s.node == RecordResearch {
      var log := LogOf(s.messages);
      assert log[..s.recorded] + log[s.recorded..] == log;
      assert log[..|log|] == log;
    }
  }

  /** All nodes up to the one writer. */
  function BeforeFinalize(k: nat, w: Node, loadFailed: bool): seq<Node> {
    if loadFailed then [LoadContext, PrepareHitl] else [LoadContext] + Rounds(k) + [Research, Decide, w]
  }

  /** The nodes visited when a run with `k` full rounds behind it is about to visit `node`. */
  ghost predicate Path(visited: seq<Node>, node: Node, k: nat, loadFailed: bool) {
    match node
    case LoadContext => visited == [] && k == 0 && !loadFailed
    case Research => visited == [LoadContext] + Rounds(k) && !loadFailed
    case Tools => visited == [LoadContext] + Rounds(k) + [Research] && !loadFailed
    case RecordResearch => visited == [LoadContext] + Rounds(k) + [Research, Tools] && !loadFailed
    case Decide => visited == [LoadContext] + Rounds(k) + [Research] && !loadFailed
    case Finalize => exists w :: IsWriter(w) && visited == BeforeFinalize(k, w, loadFailed)
    case End => exists w :: IsWriter(w) && visited == BeforeFinalize(k, w, loadFailed) + [Finalize]
    case w => visited + [w] == BeforeFinalize(k, w, loadFailed)
  }

  /** Rounds are bounded by the log they fill, and the log by the maximum while rounds go on. */
  predicate Bounded(s: State, k: nat, max: nat) {
    && k <= max
    && (s.node == LoadContext ==> k == 0 && s.research == [] && s.recorded == 0)
    && (s.node == Research ==> k <= |s.research|)
    && (s.node == Tools ==> k <= |s.research| < max && Unanswered(s))
    && (s.node == RecordResearch ==> k <= |s.research| < max && s.recorded < |LogOf(s.messages)|)
  }

  function NextRound(s: State, k: nat): nat {
    if s.node == RecordResearch then k + 1 else k
  }

  lemma {:induction false} PathStep(s: State, i: Input, k: nat, max: nat)
    requires Path(s.visited, s.node, k, s.loadFailed) && Enabled(s, i)
    ensures Path(Visit(s, i, max).visited, Visit(s, i, max).node, NextRound(s, k), Visit(s, i, max).loadFailed)
  {
    match s.node {
      case RecordResearch =>
        assert [LoadContext] + Rounds(k) + [Research, Tools] + [RecordResearch] == [LoadContext] + Rounds(k + 1);
      case Tools =>
        assert [LoadContext] + Rounds(k) + [Research] + [Tools] == [LoadContext] + Rounds(k) + [Research, Tools];
      case Decide =>
        var w := Visit(s, i, max).node;
        assert [LoadContext] + Rounds(k) + [Research] + [Decide] + [w] == BeforeFinalize(k, w, false);
      case LoadContext =>
        assert [LoadContext] + Rounds(0) == [LoadContext];
        assert [] + [LoadContext] + [PrepareHitl] == BeforeFinalize(0, PrepareHitl, true);
      case WriteReport => assert IsWriter(WriteReport);
      case Unsupported => assert IsWriter(Unsupported);
      case PrepareHitl => assert IsWriter(PrepareHitl);
      case Finalize =>
        var w :| IsWriter(w) && s.visited == BeforeFinalize(k, w, s.loadFailed);
        assert IsWriter(w);
      case _ =>
    }
  }

  lemma {:induction false} BoundedStep(s: State, i: Input, k: nat, max: nat)
    requires Bounded(s, k, max) && LogExact(s) && Enabled(s, i)
    ensures Bounded(Visit(s, i, max), NextRound(s, k), max)
  {
    LogStep(s, i, max);
    LogExactStep(s, i, max);
  }

  lemma {:induction false} RunShape(s: State, inputs: seq<Input>, k: nat, max: nat) returns (k': nat)
    requires Path(s.visited, s.node, k, s.loadFailed) && Bounded(s, k, max) && LogExact(s)
    requires Runs(s, inputs, max)
    ensures var t := After(s, inputs, max);
            Path(t.visited, t.node, k', t.loadFailed) && Bounded(t, k', max) && LogExact(t)
    decreases |inputs|
  {
    if inputs == [] {
      return k;
    }
    PathStep(s, inputs[0], k, max);
    LogExactStep(s, inputs[0], max);
    BoundedStep(s, inputs[0], k, max);
    k' := RunShape(Visit(s, inputs[0], max), inputs[1..], NextRound(s, k), max);
  }

  // ---------------------------------------------------------------- main results

  /** `_recursion_limit` of the analyze stage. */
  function RecursionLimit(max: nat): nat {
    8 + 3 * max
  }

  /** A finished run went through one of two shapes; either has exactly one writer, right before `Finalize`. */
  lemma {:induction false} FinishedRunShape(messages: seq<Message>, inputs: seq<Input>, max: nat)
    requires Runs(Init(messages), inputs, max) && After(Init(messages), inputs, max).node == End
    ensures CompleteShape(After(Init(messages), inputs, max).visited, max)
  {
    var k := RunShape(Init(messages), inputs, 0, max);
    var t := After(Init(messages), inputs, max);
    var w :| IsWriter(w) && t.visited == BeforeFinalize(k, w, t.loadFailed) + [Finalize];
    if t.loadFailed {
      assert [LoadContext, PrepareHitl] + [Finalize] == [LoadContext, PrepareHitl, Finalize];
    } else {
      assert k <= max && IsWriter(w) && t.visited == [LoadContext] + Rounds(k) + [Research, Decide, w] + [Finalize];
    }
  }

  /** The node that writes the report after a decision, or without one. */
  function Writer(decision: Option<Decision>): Node {
    match decision
    case None => PrepareHitl
    case Some(d) => if d.sufficient && d.other then Unsupported else if d.sufficient then WriteReport else PrepareHitl
  }

  /** What the inputs so far have to do with the state: where the context was found, and which decision was taken. */
  predicate Told(inputs: seq<Input>, s: State) {
    var n := |inputs|;
    && (s.node == LoadContext <==> inputs == [])
    && |s.visited| == n
    && (n == 0 ==> !s.loadFailed)
    && (n > 0 ==> inputs[0].Context? && (s.loadFailed <==> !inputs[0].found))
    && (s.node in {LoadContext, Research, Tools, RecordResearch, Decide} ==> s.decision == None)
    && (IsWriter(s.node) && !s.loadFailed ==>
          n >= 1 && inputs[n - 1].ModelDecision? && s.node == Writer(inputs[n - 1].decision))
    && (s.node == Finalize && !s.loadFailed ==>
          n >= 2 && inputs[n - 2].ModelDecision? && s.visited[n - 1] == Writer(inputs[n - 2].decision))
    && (s.node == End && !s.loadFailed ==>
          n >= 3 && inputs[n - 3].ModelDecision? && s.visited[n - 2] == Writer(inputs[n - 3].decision))
  }

  lemma {:induction false} ToldStep(inputs: seq<Input>, s: State, i: Input, max: nat)
    requires Told(inputs, s) && Enabled(s, i)
    ensures Told(inputs + [i], Visit(s, i, max))
  {
  }

  lemma {:induction false} ToldRun(before: seq<Input>, s: State, inputs: seq<Input>, max: nat)
    requires Told(before, s) && Runs(s, inputs, max)
    ensures Told(before + inputs, After(s, inputs, max))
    decreases |inputs|
  {
    if inputs == [] {
      assert before + inputs == before;
    } else {
      ToldStep(before, s, inputs[0], max);
      ToldRun(before + [inputs[0]], Visit(s, inputs[0], max), inputs[1..], max);
      assert before + [inputs[0]] + inputs[1..] == before + inputs;
    }
  }

  /**
   Which node writes the report of a finished run: without a context a human is asked at once; otherwise the decision
   settles it, and a human is asked when there is none or it finds the information insufficient.
   */
  lemma {:induction false} ReportFollowsDecision(messages: seq<Message>, inputs: seq<Input>, max: nat)
    requires Runs(Init(messages), inputs, max) && After(Init(messages), inputs, max).node == End
    ensures inputs != [] && inputs[0].Context?
    ensures var visited := After(Init(messages), inputs, max).visited;
            if !inputs[0].found then visited == [LoadContext, PrepareHitl, Finalize]
            else
              && |inputs| >= 3 && inputs[|inputs| - 3].ModelDecision? && |visited| == |inputs|
              && var decision, writer := inputs[|inputs| - 3].decision, visited[|inputs| - 2];
                 && (writer == WriteReport <==> decision.Some? && decision.value.sufficient && !decision.value.other)
                 && (writer == Unsupported <==> decision.Some? && decision.value.sufficient && decision.value.other)
                 && (writer == PrepareHitl <==> decision.None? || !decision.value.sufficient)
  {
    var t := After(Init(messages), inputs, max);
    ToldRun([], Init(messages), inputs, max);
    assert [] + inputs == inputs;
    var k := RunShape(Init(messages), inputs, 0, max);
    var w :| IsWriter(w) && t.visited == BeforeFinalize(k, w, t.loadFailed) + [Finalize];
    if t.loadFailed {
      assert [LoadContext, PrepareHitl] + [Finalize] == [LoadContext, PrepareHitl, Finalize];
    }
  }

  /** No run makes more visits than 3 per research step plus 5, so the engine's limit never cuts one off. */
  lemma {:induction false} VisitsBounded(messages: seq<Message>, inputs: seq<Input>, max: nat)
    requires Runs(Init(messages), inputs, max)
    ensures |After(Init(messages), inputs, max).visited| == |inputs| <= 3 * max + 5 < RecursionLimit(max)
  {
    var k := RunShape(Init(messages), inputs, 0, max);
    RoundsLength(k);
    VisitsCount(Init(messages), inputs, max);
  }

  lemma {:induction false} VisitsCount(s: State, inputs: seq<Input>, max: nat)
    requires Runs(s, inputs, max)
    ensures |After(s, inputs, max).visited| == |s.visited| + |inputs|
    decreases |inputs|
  {
    if inputs != [] {
      VisitsCount(Visit(s, inputs[0], max), inputs[1..], max);
    }
  }

  /** No run is stuck before its end. */
  lemma {:induction false} RunGoesOn(messages: seq<Message>, inputs: seq<Input>, max: nat) returns (i: Input)
    requires Runs(Init(messages), inputs, max) && After(Init(messages), inputs, max).node != End
    ensures Enabled(After(Init(messages), inputs, max), i)
  {
    var k := RunShape(Init(messages), inputs, 0, max);
    i := NeverStuck(After(Init(messages), inputs, max), max);
  }

  /** Every run can be completed, and, visits being bounded, every run that goes on as long as it can is complete. */
  lemma {:induction false} RunReachesEnd(messages: seq<Message>, inputs: seq<Input>, max: nat) returns (more: seq<Input>)
    requires Runs(Init(messages), inputs, max)
    ensures Runs(Init(messages), inputs + more, max) && After(Init(messages), inputs + more, max).node == End
    decreases 3 * max + 5 - |inputs|
  {
    if After(Init(messages), inputs, max).node == End {
      more := [];
      assert inputs + more == inputs;
    } else {
      var i := RunGoesOn(messages, inputs, max);
      RunsNext(Init(messages), inputs, i, max);
      VisitsBounded(messages, inputs + [i], max);
      var rest := RunReachesEnd(messages, inputs + [i], max);
      more := [i] + rest;
      assert inputs + more == inputs + [i] + rest;
    }
  }

  /** The nodes a complete run has visited. */
  ghost predicate CompleteShape(visited: seq<Node>, max: nat) {
    || visited == [LoadContext, PrepareHitl, Finalize]
    || exists k: nat, w :: k <= max && IsWriter(w)
         && visited == [LoadContext] + Rounds(k) + [Research, Decide, w] + [Finalize]
  }

  ghost predicate CannotGoOn(s: State) {
    forall i :: !Enabled(s, i)
  }

  /** A run that cannot go on has ended, after one report written right before `Finalize`. */
  lemma {:induction false} MaximalRunIsComplete(messages: seq<Message>, inputs: seq<Input>, max: nat)
    requires Runs(Init(messages), inputs, max)
    ensures CannotGoOn(After(Init(messages), inputs, max)) <==> After(Init(messages), inputs, max).node == End
    ensures CannotGoOn(After(Init(messages), inputs, max)) ==>
              CompleteShape(After(Init(messages), inputs, max).visited, max)
  {
    if After(Init(messages), inputs, max).node != End {
      var i := RunGoesOn(messages, inputs, max);
    } else {
      FinishedRunShape(messages, inputs, max);
    }
  }

  /** A visit, as a run of one input more. */
  lemma {:induction false} RunsNext(s: State, inputs: seq<Input>, i: Input, max: nat)
    requires Runs(s, inputs, max) && Enabled(After(s, inputs, max), i)
    ensures Runs(s, inputs + [i], max) && After(s, inputs + [i], max) == Visit(After(s, inputs, max), i, max)
    decreases |inputs|
  {
    if inputs == [] {
      assert inputs + [i] == [i];
      assert Runs(Visit(s, i, max), [], max);
    } else {
      assert (inputs + [i])[1..] == inputs[1..] + [i];
      RunsNext(Visit(s, inputs[0], max), inputs[1..], i, max);
    }
  }

  /** After `k` rounds of one tool call each: about to research again, with `k` results logged. */
  predicate AfterRounds(s: State, k: nat) {
    s.node == Research && |s.research| == k && s.recorded == k && |LogOf(s.messages)| == k
  }

  const ONE_RESULT := ToolMessage(NoName, "", NotAnObject)

  /** One more round, if the maximum allows it. */
  lemma {:induction false} OneRound(s: State, k: nat, max: nat)
    requires AfterRounds(s, k) && k < max
    ensures Runs(s, [ModelReply([""]), ToolResults([ONE_RESULT]), Nothing], max)
    ensures AfterRounds(After(s, [ModelReply([""]), ToolResults([ONE_RESULT]), Nothing], max), k + 1)
  {
    var a := Visit(s, ModelReply([""]), max);
    assert a.node == Tools && a.messages == s.messages + [Reply([""])];
    var b := Visit(a, ToolResults([ONE_RESULT]), max);
    LogOfSnoc(s.messages, Reply([""]));
    LogOfSnoc(a.messages, ONE_RESULT);
    assert b.node == RecordResearch && |LogOf(b.messages)| == k + 1;
    RunsNext(s, [], ModelReply([""]), max);
    RunsNext(s, [ModelReply([""])], ToolResults([ONE_RESULT]), max);
    assert [ModelReply([""])] + [ToolResults([ONE_RESULT])] == [ModelReply([""]), ToolResults([ONE_RESULT])];
    RunsNext(s, [ModelReply([""]), ToolResults([ONE_RESULT])], Nothing, max);
    assert [ModelReply([""]), ToolResults([ONE_RESULT])] + [Nothing] == [ModelReply([""]), ToolResults([ONE_RESULT]), Nothing];
  }

  lemma {:induction false} RunsThen(s: State, a: seq<Input>, b: seq<Input>, max: nat)
    requires Runs(s, a, max) && Runs(After(s, a, max), b, max)
    ensures Runs(s, a + b, max) && After(s, a + b, max) == After(After(s, a, max), b, max)
    decreases |a|
  {
    if a == [] {
      assert a + b == b;
    } else {
      assert (a + b)[1..] == a[1..] + b;
      RunsThen(Visit(s, a[0], max), a[1..], b, max);
    }
  }

  lemma {:induction false} ManyRounds(k: nat, max: nat) returns (inputs: seq<Input>)
    requires k <= max
    ensures |inputs| == 3 * k + 1 && Runs(Init([]), inputs, max) && AfterRounds(After(Init([]), inputs, max), k)
  {
    if k == 0 {
      inputs := [Context(true)];
      RunsNext(Init([]), [], Context(true), max);
    } else {
      var before := ManyRounds(k - 1, max);
      var round := [ModelReply([""]), ToolResults([ONE_RESULT]), Nothing];
      OneRound(After(Init([]), before, max), k - 1, max);
      RunsThen(Init([]), before, round, max);
      inputs := before + round;
    }
  }

  /** The bound is attained: for every maximum some run makes exactly 3 visits per research step plus 5. */
  lemma {:induction false} BoundIsAttained(max: nat) returns (inputs: seq<Input>)
    ensures |inputs| == 3 * max + 5 && Runs(Init([]), inputs, max) && After(Init([]), inputs, max).node == End
  {
    var rounds := ManyRounds(max, max);
    var s := After(Init([]), rounds, max);
    var a := rounds + [ModelReply([])];
    RunsNext(Init([]), rounds, ModelReply([]), max);
    var b := a + [ModelDecision(None)];
    RunsNext(Init([]), a, ModelDecision(None), max);
    RunsNext(Init([]), b, Nothing, max);
    RunsNext(Init([]), b + [Nothing], Nothing, max);
    inputs := b + [Nothing] + [Nothing];
  }

  /** At every moment the research log is the image of the recorded tool messages, in order. */
  lemma {:induction false} LogIsExact(messages: seq<Message>, inputs: seq<Input>, max: nat)
    requires Runs(Init(messages), inputs, max)
    ensures var t := After(Init(messages), inputs, max);
            t.recorded <= |LogOf(t.messages)| && t.research == LogOf(t.messages)[..t.recorded]
  {
    var k := RunShape(Init(messages), inputs, 0, max);
  }

  /** Started without tool messages, only results of the current round can be missing from the log. */
  predicate CaughtUp(s: State) {
    s.node != RecordResearch ==> s.recorded == |LogOf(s.messages)|
  }

  lemma {:induction false} CaughtUpAlways(s: State, inputs: seq<Input>, max: nat)
    requires CaughtUp(s) && LogExact(s) && (s.node == LoadContext ==> s.recorded == 0) && Runs(s, inputs, max)
    ensures CaughtUp(After(s, inputs, max))
    decreases |inputs|
  {
    if inputs != [] {
      LogStep(s, inputs[0], max);
      LogExactStep(s, inputs[0], max);
      CaughtUpAlways(Visit(s, inputs[0], max), inputs[1..], max);
    }
  }

  /** So a fresh conversation reaches its decision and its report with every tool result logged once. */
  lemma {:induction false} DecidesOnEverything(messages: seq<Message>, inputs: seq<Input>, max: nat)
    requires LogOf(messages) == [] && Runs(Init(messages), inputs, max)
    requires After(Init(messages), inputs, max).node != RecordResearch
    ensures After(Init(messages), inputs, max).research == LogOf(After(Init(messages), inputs, max).messages)
  {
    LogIsExact(messages, inputs, max);
    CaughtUpAlways(Init(messages), inputs, max);
  }
}
