/** The agent turn loop: prepare, model, tools, memory, finalize. */
module AgentTurn {
  import opened Options
  import opened Sequences

  // What the model, the tools, the policies and the clock do is chosen freely, step by step.

  /** Messages of a run; `Notice` stands for text the loop itself writes. */
  datatype Msg = Assistant(content: nat, calls: seq<nat>) | ToolMsg(call: nat, payload: nat) | Notice

  datatype Config = Config(limit: int, persist: bool)

  /**
   * The run's state. An error is recorded as its text, and `error` says that the text is not empty.
   * `appended` is what the run has added to the working messages and `memory` what it has saved;
   * `providerCalls` counts the calls made to the provider, and `misses` the failures without a text.
   */
  datatype State = State(
    iteration: nat,
    pending: seq<nat>,
    appended: seq<Msg>,
    assistants: seq<Msg>,
    results: seq<Msg>,
    final: Option<Msg>,
    error: bool,
    budgetExhausted: bool,
    cancelled: bool,
    late: bool,
    memory: seq<Msg>,
    providerCalls: nat,
    misses: nat)

  const START := State(0, [], [], [], [], None, false, false, false, false, [], 0, 0)

  datatype Node = Prepare | CallLlm | ExecuteTools | UpdateMemory | Finalize | End | Raised

  // ---------------------------------------------------------------------------------------------
  // The turn policy
  // ---------------------------------------------------------------------------------------------

  datatype Verdict = Cancelled | Failed | Stop | IterationLimit | Deadline | BudgetExhausted | RunTools | Continue

  /** The one decision of the loop, in its order of priority. */
  function Evaluate(c: Config, s: State): Verdict {
    if s.cancelled then Cancelled
    else if s.error then Failed
    else if s.final.Some? && s.pending == [] then Stop
    else if s.iteration >= c.limit then IterationLimit
    else if s.late then Deadline
    else if s.budgetExhausted then BudgetExhausted
    else if s.pending != [] then RunTools
    else Continue
  }

  function AfterLlm(c: Config, s: State): Node {
    match Evaluate(c, s)
    case RunTools => ExecuteTools
    case Stop => UpdateMemory
    case IterationLimit => UpdateMemory
    case Continue => UpdateMemory
    case _ => Finalize
  }

  function AfterMemory(c: Config, s: State): Node {
    if Evaluate(c, s).Continue? || Evaluate(c, s).RunTools? then CallLlm else Finalize
  }

  // ---------------------------------------------------------------------------------------------
  // The nodes
  // ---------------------------------------------------------------------------------------------

  /**
   * How a call of the model goes. Any exception is caught and recorded by its text, and a silent one
   * has none: it comes before the provider is called, from the provider or the handling of what it
   * returned, or once the answer has been taken over.
   */
  datatype LlmOutcome =
    | ReleaseDenied
    | VisionUnsupported
    | CapabilityDenied
    | BudgetDenied
    | FailsEarly(silent: bool)
    | ProviderFails(silent: bool)
    | NotAResult
    | Answer(content: nat, calls: seq<nat>)
    | AnswerThenFails(content: nat, calls: seq<nat>, silent: bool)

  function Taken(s: State, m: Msg): State
    requires m.Assistant?
  {
    s.(iteration := s.iteration + 1, final := Some(m), pending := m.calls,
    assistants := if m.calls != [] then s.assistants + [m] else s.assistants,
    appended := s.appended + [m], providerCalls := s.providerCalls + 1)
  }

  function Called(s: State, o: LlmOutcome): State {
    match o
    case ReleaseDenied => s.(error := true)
    case CapabilityDenied => s.(error := true)
    case VisionUnsupported => s.(iteration := s.iteration + 1, final := Some(Notice), pending := [])
    case BudgetDenied => s.(budgetExhausted := true, pending := [])
    case FailsEarly(silent) => s.(error := !silent, misses := s.misses + if silent then 1 else 0)
    case ProviderFails(silent) =>
      s.(error := !silent, misses := s.misses + (if silent then 1 else 0), providerCalls := s.providerCalls + 1)
    case NotAResult => s.(error := true, providerCalls := s.providerCalls + 1)
    case Answer(content, calls) => Taken(s, Assistant(content, calls))
    case AnswerThenFails(content, calls, silent) => Taken(s, Assistant(content, calls)).(error := !silent)
  }

  datatype ToolOutcome = ToolOutcome(payload: nat, terminal: bool)

  /** The results of the calls, in order, up to the first terminal one. */
  function ResultsOf(calls: seq<nat>, outcomes: seq<ToolOutcome>): seq<Msg>
    requires |outcomes| == |calls|
  {
    if calls == [] then []
    else [ToolMsg(calls[0], outcomes[0].payload)]
         + if outcomes[0].terminal then [] else ResultsOf(calls[1..], outcomes[1..])
  }

  predicate AnyTerminal(outcomes: seq<ToolOutcome>) {
    outcomes != [] && (outcomes[0].terminal || AnyTerminal(outcomes[1..]))
  }

  function Executed(s: State, outcomes: seq<ToolOutcome>): State
    requires |outcomes| == |s.pending|
  {
    var results := ResultsOf(s.pending, outcomes);
    s.(results := results, appended := s.appended + results, pending := [],
    final := if AnyTerminal(outcomes) then Some(Notice) else None)
  }

  function Saved(c: Config, s: State): State {
    s.(memory := if c.persist then s.memory + s.assistants + s.results else s.memory, assistants := [], results := [])
  }

  function Settled(c: Config, s: State): State {
    match Evaluate(c, s)
    case IterationLimit => s.(error := true, final := None)
    case Deadline => s.(error := true, final := None)
    case BudgetExhausted => if s.final.None? then s.(final := Some(Notice)) else s
    case Cancelled => s.(error := true)
    case _ => s
  }

  function Finalized(c: Config, s: State): State {
    var t := Settled(c, s);
    var u := if t.error && t.final.None? then t.(final := Some(Notice)) else t;
    if u.final.Some? && c.persist then u.(memory := u.memory + [u.final.value]) else u
  }

  lemma {:induction false} OneMoreResult(calls: seq<nat>, outcomes: seq<ToolOutcome>, i: nat)
    requires |outcomes| == |calls| && i < |calls|
    ensures ResultsOf(calls[i..], outcomes[i..])
            == [ToolMsg(calls[i], outcomes[i].payload)]
               + if outcomes[i].terminal then [] else ResultsOf(calls[i + 1..], outcomes[i + 1..])
    ensures AnyTerminal(outcomes[i..]) == (outcomes[i].terminal || AnyTerminal(outcomes[i + 1..]))
  {
    assert calls[i..][1..] == calls[i + 1..] && outcomes[i..][1..] == outcomes[i + 1..];
  }

  lemma {:induction false} NoMoreResults()
    ensures ResultsOf([], []) == [] && !AnyTerminal([])
  {
  }

  /** The fields of `AgentState` and the nodes that update them. */
  class AgentState {
    const config: Config
    var iteration: nat
    var pending: seq<nat>
    var appended: seq<Msg>
    var assistants: seq<Msg>
    var results: seq<Msg>
    var final: Option<Msg>
    var error: bool
    var budgetExhausted: bool
    var cancelled: bool
    var late: bool
    var memory: seq<Msg>
    var providerCalls: nat
    var misses: nat

    function Now(): State
      reads this
    {
      State(iteration, pending, appended, assistants, results, final, error, budgetExhausted, cancelled, late,
            memory, providerCalls, misses)
    }

    constructor (c: Config)
      ensures Now() == START && config == c
    {
      config := c;
      iteration, pending, appended, assistants, results, final := 0, [], [], [], [], None;
      error, budgetExhausted, cancelled, late := false, false, false, false;
      memory, providerCalls, misses := [], 0, 0;
    }

    method CallModel(o: LlmOutcome)
      modifies this
      ensures Now() == Called(old(Now()), o)
    {
      match o {
        case ReleaseDenied => error := true;
        case VisionUnsupported =>
          iteration := iteration + 1;
          final := Some(Notice);
          pending := [];
        case CapabilityDenied => error := true;
        case BudgetDenied =>
          budgetExhausted := true;
          pending := [];
        case FailsEarly(silent) => Fail(silent);
        case ProviderFails(silent) =>
          providerCalls := providerCalls + 1;
          Fail(silent);
        case NotAResult =>
          providerCalls := providerCalls + 1;
          error := true;
        case Answer(content, calls) => TakeAnswer(Assistant(content, calls));
        case AnswerThenFails(content, calls, silent) =>
          TakeAnswer(Assistant(content, calls));
          error := !silent;
      }
    }

    /** An exception is recorded by its text, before there is an answer. */
    method Fail(silent: bool)
      modifies `error, `misses
      ensures error == !silent && misses == old(misses) + if silent then 1 else 0
    {
      error := !silent;
      if silent { misses := misses + 1; }
    }

    method TakeAnswer(message: Msg)
      requires message.Assistant?
      modifies this
      ensures Now() == Taken(old(Now()), message)
    {
      providerCalls := providerCalls + 1;
      iteration := iteration + 1;
      final := Some(message);
      pending := message.calls;
      if pending != [] { assistants := assistants + [message]; }
      appended := appended + [message];
    }

    /** The loop over the pending calls; a terminal result ends it. */
    method RunEach(outcomes: seq<ToolOutcome>) returns (terminalToolCalled: bool)
      requires |outcomes| == |pending|
      modifies `results, `appended
      ensures results == ResultsOf(pending, outcomes) && appended == old(appended) + results
      ensures terminalToolCalled == AnyTerminal(outcomes)
    {
      hide ResultsOf, AnyTerminal;
      results := [];
      terminalToolCalled := false;
      assert pending[0..] == pending && outcomes[0..] == outcomes;
      for i := 0 to |pending|
        invariant !terminalToolCalled && appended == old(appended) + results
        invariant results + ResultsOf(pending[i..], outcomes[i..]) == ResultsOf(pending, outcomes)
        invariant AnyTerminal(outcomes[i..]) == AnyTerminal(outcomes)
      {
        OneMoreResult(pending, outcomes, i);
        var result := ToolMsg(pending[i], outcomes[i].payload);
        Associate(old(appended), results, [result]);
        Associate(results, [result],
                  if outcomes[i].terminal then [] else ResultsOf(pending[i + 1..], outcomes[i + 1..]));
        results := results + [result];
        appended := appended + [result];
        if outcomes[i].terminal { return true; }
      }
      NoMoreResults();
      assert pending[|pending|..] == [] && outcomes[|pending|..] == [];
    }

    method RunPendingTools(outcomes: seq<ToolOutcome>)
      requires |outcomes| == |pending|
      modifies this
      ensures Now() == Executed(old(Now()), outcomes)
    {
      var terminalToolCalled := RunEach(outcomes);
      pending := [];
      final := if terminalToolCalled then Some(Notice) else None;
    }

    method SaveToMemory()
      modifies this
      ensures Now() == Saved(config, old(Now()))
    {
      SaveAll(assistants);
      assistants := [];
      SaveAll(results);
      results := [];
    }

    /** One loop of appends to the session store. */
    method SaveAll(ms: seq<Msg>)
      modifies `memory
      ensures memory == if config.persist then old(memory) + ms else old(memory)
    {
      for i := 0 to |ms|
        invariant memory == if config.persist then old(memory) + ms[..i] else old(memory)
      {
        assert ms[..i + 1] == ms[..i] + [ms[i]];
        if config.persist { memory := memory + [ms[i]]; }
      }
      assert ms[..|ms|] == ms;
    }

    method FinalizeRun()
      modifies this
      ensures Now() == Finalized(config, old(Now()))
    {
      match Evaluate(config, Now()) {
        case IterationLimit =>
          error := true;
          final := None;
        case BudgetExhausted => if final.None? { final := Some(Notice); }
        case Deadline =>
          error := true;
          final := None;
        case Cancelled => error := true;
        case _ =>
      }
      if error && final.None? { final := Some(Notice); }
      if final.Some? && config.persist { memory := memory + [final.value]; }
    }
  }

  // ---------------------------------------------------------------------------------------------
  // Runs of the graph
  // ---------------------------------------------------------------------------------------------

  /**
   * What the outside world does at a node: it may make it raise (a cancellation that the node finds
   * at its start does), it decides what the model and each tool answer, and by the routing decision
   * the run may have been cancelled or be late.
   */
  datatype Choice = Choice(raises: bool, llm: LlmOutcome, tools: nat -> ToolOutcome, cancel: bool, late: bool)

  datatype Point = Point(node: Node, state: State)

  function Clocked(s: State, ch: Choice): State { s.(cancelled := s.cancelled || ch.cancel, late := s.late || ch.late) }

  /** One node of the graph and the edge it leaves by; the nodes between prepare and finalize check for cancellation. */
  function Step(c: Config, p: Point, ch: Choice): Point {
    var s := p.state;
    match p.node
    case Prepare => if ch.raises then Point(Raised, s) else Point(CallLlm, Clocked(s, ch))
    case CallLlm =>
      if s.cancelled then Point(Raised, s)
      else if ch.raises then Point(Raised, s.(providerCalls := Called(s, ch.llm).providerCalls))
      else
        var t := Clocked(Called(s, ch.llm), ch);
        Point(AfterLlm(c, t), t)
    case ExecuteTools =>
      if ch.raises || s.cancelled then Point(Raised, s)
      else Point(UpdateMemory, Clocked(Executed(s, seq(|s.pending|, ch.tools)), ch))
    case UpdateMemory =>
      if ch.raises || s.cancelled then Point(Raised, s)
      else
        var t := Clocked(Saved(c, s), ch);
        Point(AfterMemory(c, t), t)
    case Finalize => if ch.raises then Point(Raised, s) else Point(End, Finalized(c, Clocked(s, ch)))
    case End => p
    case Raised => p
  }

  function After(c: Config, p: Point, chs: seq<Choice>): Point
    decreases |chs|
  {
    if chs == [] then p else After(c, Step(c, p, chs[0]), chs[1..])
  }

  const ENTRY := Point(Prepare, START)

  // ---------------------------------------------------------------------------------------------
  // Tool-call pairing
  // ---------------------------------------------------------------------------------------------

  ghost predicate Pairs(results: seq<Msg>, calls: seq<nat>) {
    |results| == |calls| && forall k :: 0 <= k < |calls| ==> results[k].ToolMsg? && results[k].call == calls[k]
  }

  /** Every assistant message calls tools, and is followed at once by one result per call, in order. */
  ghost predicate Answered(ms: seq<Msg>)
    decreases |ms|
  {
    ms == []
    || (ms[0].Assistant? && ms[0].calls != [] && |ms| > |ms[0].calls|
        && Pairs(ms[1..1 + |ms[0].calls|], ms[0].calls) && Answered(ms[1 + |ms[0].calls|..]))
  }

  lemma {:induction false} AnsweredRound(ms: seq<Msg>, m: Msg, results: seq<Msg>)
    requires Answered(ms) && m.Assistant? && m.calls != [] && Pairs(results, m.calls)
    ensures Answered(ms + [m] + results)
    decreases |ms|
  {
    hide Pairs;
    var all := ms + [m] + results;
    if ms == [] {
      assert all[1..1 + |m.calls|] == results by { PairsLength(results, m.calls); }
      PairsLength(results, m.calls);
      assert all[1 + |m.calls|..] == [];
    } else {
      var n := 1 + |ms[0].calls|;
      assert all[1..n] == ms[1..n] && all[n..] == ms[n..] + [m] + results;
      AnsweredRound(ms[n..], m, results);
    }
  }

  lemma {:induction false} PairsLength(results: seq<Msg>, calls: seq<nat>)
    requires Pairs(results, calls)
    ensures |results| == |calls|
  {
  }

  lemma {:induction false} AllResults(calls: seq<nat>, outcomes: seq<ToolOutcome>)
    requires |outcomes| == |calls|
    ensures !AnyTerminal(outcomes) ==> Pairs(ResultsOf(calls, outcomes), calls)
    ensures forall k :: 0 <= k < |ResultsOf(calls, outcomes)| ==> ResultsOf(calls, outcomes)[k].ToolMsg?
  {
    if calls != [] { AllResults(calls[1..], outcomes[1..]); }
  }

  // ---------------------------------------------------------------------------------------------
  // The invariant
  // ---------------------------------------------------------------------------------------------

  /** What has been saved or is about to be: calls and results, without the closing answer. */
  function Trail(ms: seq<Msg>): seq<Msg> { if ms == [] then [] else Tracked(ms[0]) + Trail(ms[1..]) }

  function Tracked(m: Msg): seq<Msg> { if m.ToolMsg? || (m.Assistant? && m.calls != []) then [m] else [] }

  lemma {:induction false} TrailAppend(a: seq<Msg>, b: seq<Msg>)
    ensures Trail(a + b) == Trail(a) + Trail(b)
  {
    if a == [] {
      assert a + b == b;
    } else {
      assert (a + b)[1..] == a[1..] + b;
      TrailAppend(a[1..], b);
      Associate(Tracked(a[0]), Trail(a[1..]), Trail(b));
    }
  }

  lemma {:induction false} TrailOne(m: Msg)
    ensures Trail([m]) == if m.ToolMsg? || (m.Assistant? && m.calls != []) then [m] else []
  {
    assert Trail([m][1..]) == [];
  }

  lemma {:induction false} TrailOfTools(ms: seq<Msg>)
    requires forall k :: 0 <= k < |ms| ==> ms[k].ToolMsg?
    ensures Trail(ms) == ms
  {
    if ms != [] { TrailOfTools(ms[1..]); }
  }

  ghost predicate Recorded(c: Config, s: State) {
    c.persist ==> s.memory + s.assistants + s.results == Trail(s.appended)
  }

  ghost predicate Quiet(s: State) { s.pending == [] && s.final.None? && !s.error && !s.budgetExhausted }

  /** What the loop keeps for itself is never a tool result. */
  ghost predicate Kinds(s: State) {
    (s.final.Some? ==> !s.final.value.ToolMsg?) && forall k :: 0 <= k < |s.assistants| ==> s.assistants[k].Assistant?
  }

  /** The last call message, when cancellation, a failure or the deadline sends the run to finalize with it. */
  ghost predicate Stranded(s: State) {
    s.assistants != [] ==>
      |s.assistants| == 1 && s.final == Some(s.assistants[0]) && s.pending != [] && (s.cancelled || s.error || s.late)
  }

  ghost predicate Inv(c: Config, p: Point) {
    var s := p.state;
    Kinds(s) && s.providerCalls <= Most(c) + Extra(c, s) &&
    match p.node
    case Prepare => s == START
    case CallLlm =>
      && Quiet(s) && s.assistants == [] && s.results == [] && Answered(s.appended) && Recorded(c, s)
      && s.providerCalls <= s.iteration + Extra(c, s) && (s.iteration == 0 || s.iteration < c.limit)
    case ExecuteTools =>
      && s.pending != [] && !s.error && !s.budgetExhausted && s.results == [] && Recorded(c, s)
      && 0 < s.iteration < c.limit && s.providerCalls <= s.iteration + Extra(c, s)
      && |s.appended| > 0 && Answered(s.appended[..|s.appended| - 1])
      && var m := s.appended[|s.appended| - 1]; m.Assistant? && m.calls == s.pending && s.assistants == [m]
    case UpdateMemory =>
      && !s.error && (s.budgetExhausted ==> s.iteration >= c.limit) && Recorded(c, s) && |s.assistants| <= 1
      && (s.final.None? && s.iteration < c.limit ==> s.providerCalls <= s.iteration + Extra(c, s))
      && (s.iteration <= 1 || s.iteration <= c.limit)
      && (s.final.None? ==> s.pending == [] && Answered(s.appended))
      && (s.pending != [] ==> s.iteration >= c.limit)
    case Finalize =>
      && Recorded(c, s) && s.results == [] && Stranded(s)
      && (s.cancelled || s.error || s.final.Some? || s.budgetExhausted || s.late || s.iteration >= c.limit)
    case End =>
      && s.final.Some? && |s.assistants| <= 1 && (s.assistants != [] ==> s.error)
      && (c.persist ==>
            exists saved :: s.memory == saved + [s.final.value] && saved + s.assistants == Trail(s.appended))
    case Raised => true
  }

  /** One call is made even when the limit is zero or less. */
  function Most(c: Config): nat { if c.limit > 1 then c.limit else 1 }

  /** A failure without a text is no error to the turn policy: while iterations are left, the model is called again. */
  function Extra(c: Config, s: State): nat { if c.limit > 0 then s.misses else 0 }

  lemma {:induction false} AnswerKeeps(c: Config, s: State, m: Msg, failed: bool, ch: Choice)
    requires Inv(c, Point(CallLlm, s)) && m.Assistant?
    ensures var t := Clocked(Taken(s, m).(error := failed), ch); Inv(c, Point(AfterLlm(c, t), t))
  {
    hide Trail, Answered;
    TrailAppend(s.appended, [m]);
    TrailOne(m);
    assert (s.appended + [m])[..|s.appended|] == s.appended;
    assert (s.appended + [m])[|s.appended|] == m;
  }

  lemma {:induction false} RefusalKeeps(c: Config, s: State, o: LlmOutcome, ch: Choice)
    requires Inv(c, Point(CallLlm, s)) && !o.Answer? && !o.AnswerThenFails?
    ensures var t := Clocked(Called(s, o), ch); Inv(c, Point(AfterLlm(c, t), t))
  {
    hide Trail, Answered;
  }

  lemma {:induction false} CallKeeps(c: Config, p: Point, ch: Choice)
    requires Inv(c, p) && p.node.CallLlm?
    ensures Inv(c, Step(c, p, ch))
  {
    var s := p.state;
    if s.cancelled || ch.raises {
      hide Trail, Answered;
      assert Called(s, ch.llm).providerCalls <= s.providerCalls + 1;
    } else if ch.llm.Answer? || ch.llm.AnswerThenFails? {
      hide Inv, AfterLlm;
      var m, failed := Assistant(ch.llm.content, ch.llm.calls), ch.llm.AnswerThenFails? && !ch.llm.silent;
      assert !s.error by { assert Inv(c, p); assert Quiet(s) by { InvIsQuiet(c, s); } }
      assert Called(s, ch.llm) == Taken(s, m).(error := failed);
      AnswerKeeps(c, s, m, failed, ch);
    } else {
      hide Inv, Called, AfterLlm;
      RefusalKeeps(c, s, ch.llm, ch);
    }
  }

  lemma {:induction false} InvIsQuiet(c: Config, s: State)
    requires Inv(c, Point(CallLlm, s))
    ensures Quiet(s)
  {
  }

  lemma {:induction false} ToolsKeep(c: Config, p: Point, ch: Choice)
    requires Inv(c, p) && p.node.ExecuteTools?
    ensures Inv(c, Step(c, p, ch))
  {
    hide Trail, Answered, AnyTerminal, ResultsOf, Pairs;
    var s := p.state;
    if !ch.raises && !s.cancelled {
      var n := |s.appended| - 1;
      var outcomes := seq(|s.pending|, ch.tools);
      var m, results := s.appended[n], ResultsOf(s.pending, outcomes);
      AllResults(s.pending, outcomes);
      assert s.appended == s.appended[..n] + [m];
      if !AnyTerminal(outcomes) { AnsweredRound(s.appended[..n], m, results); }
      TrailAppend(s.appended, results);
      TrailOfTools(results);
    }
  }

  lemma {:induction false} MemoryKeeps(c: Config, p: Point, ch: Choice)
    requires Inv(c, p) && p.node.UpdateMemory?
    ensures Inv(c, Step(c, p, ch))
  {
    hide Trail, Answered;
  }

  lemma {:induction false} FinalizedFacts(c: Config, s: State)
    requires s.cancelled || s.error || s.final.Some? || s.budgetExhausted || s.late || s.iteration >= c.limit
    ensures var t := Finalized(c, s);
            && t.final.Some? && t.appended == s.appended && t.assistants == s.assistants
            && t.providerCalls == s.providerCalls
            && t.misses == s.misses && (t.final == s.final || t.final == Some(Notice))
            && (s.pending != [] && (s.cancelled || s.error || s.late) ==> t.error)
            && t.memory == if c.persist then s.memory + [t.final.value] else s.memory
  {
  }

  lemma {:induction false} FinalizeKeeps(c: Config, p: Point, ch: Choice)
    requires Inv(c, p) && p.node.Finalize?
    ensures Inv(c, Step(c, p, ch))
  {
    hide Trail, Answered, Finalized;
    var s := p.state;
    FinalizedFacts(c, Clocked(s, ch));
    if !ch.raises && c.persist { assert s.memory + s.assistants == Trail(s.appended); }
  }

  lemma {:induction false} StepKeeps(c: Config, p: Point, ch: Choice)
    requires Inv(c, p)
    ensures Inv(c, Step(c, p, ch))
  {
    match p.node
    case Prepare => assert Answered([]) && Trail([]) == [];
    case CallLlm => hide Inv, Step; CallKeeps(c, p, ch);
    case ExecuteTools => hide Inv, Step; ToolsKeep(c, p, ch);
    case UpdateMemory => hide Inv, Step; MemoryKeeps(c, p, ch);
    case Finalize => hide Inv, Step; FinalizeKeeps(c, p, ch);
    case _ =>
  }

  lemma {:induction false} RunKeeps(c: Config, p: Point, chs: seq<Choice>)
    requires Inv(c, p)
    ensures Inv(c, After(c, p, chs))
    decreases |chs|
  {
    hide Inv, Step;
    if chs != [] {
      StepKeeps(c, p, chs[0]);
      RunKeeps(c, Step(c, p, chs[0]), chs[1..]);
    }
  }

  // ---------------------------------------------------------------------------------------------
  // The laws
  // ---------------------------------------------------------------------------------------------

  lemma {:induction false} EntryIsFine(c: Config)
    ensures Inv(c, ENTRY)
  {
  }

  /**
   * Whatever the outside world does: whenever the provider is about to be called, every call message
   * of the run is followed at once by one result per call in call order, and all of it has been
   * saved, once and in order.
   */
  lemma {:induction false} CallsAreAnswered(c: Config, chs: seq<Choice>)
    requires After(c, ENTRY, chs).node.CallLlm?
    ensures var s := After(c, ENTRY, chs).state;
            Answered(s.appended) && (c.persist ==> s.memory == Trail(s.appended))
  {
    hide After, Trail, Answered;
    EntryIsFine(c);
    RunKeeps(c, ENTRY, chs);
  }

  /**
   * At most `limit` provider calls are made, or one if the limit is less than that, and one more for
   * every failure without a text.
   */
  lemma {:induction false} ProviderCallsBounded(c: Config, chs: seq<Choice>)
    ensures var s := After(c, ENTRY, chs).state; s.providerCalls <= Most(c) + if c.limit > 0 then s.misses else 0
  {
    hide After, Trail, Answered;
    EntryIsFine(c);
    RunKeeps(c, ENTRY, chs);
  }

  /** A limit of zero still makes one call. */
  lemma {:induction false} ZeroLimitStillCalls(content: nat)
    ensures var c, ch := Config(0, true), Choice(false, Answer(content, []), _ => ToolOutcome(0, false), false, false);
            After(c, ENTRY, [ch, ch]).state.providerCalls == 1
  {
    var c, ch := Config(0, true), Choice(false, Answer(content, []), _ => ToolOutcome(0, false), false, false);
    assert [ch, ch][1..] == [ch] && [ch][1..] == [];
    var p := Step(c, ENTRY, ch);
    assert After(c, p, [ch]) == Step(c, p, ch);
  }

  function ToolsIn(ms: seq<Msg>): seq<Msg> {
    if ms == [] then [] else (if ms[0].ToolMsg? then [ms[0]] else []) + ToolsIn(ms[1..])
  }

  lemma {:induction false} ToolsInAppend(a: seq<Msg>, b: seq<Msg>)
    ensures ToolsIn(a + b) == ToolsIn(a) + ToolsIn(b)
  {
    if a == [] {
      assert a + b == b;
    } else {
      assert (a + b)[1..] == a[1..] + b;
      ToolsInAppend(a[1..], b);
    }
  }

  lemma {:induction false} ToolsInOne(m: Msg)
    ensures ToolsIn([m]) == if m.ToolMsg? then [m] else []
  {
    assert ToolsIn([m][1..]) == [];
  }

  lemma {:induction false} ToolsInTrail(ms: seq<Msg>)
    ensures ToolsIn(Trail(ms)) == ToolsIn(ms)
  {
    if ms != [] {
      ToolsInTrail(ms[1..]);
      var rest := Trail(ms[1..]);
      assert ([ms[0]] + rest)[1..] == rest && [] + rest == rest;
    }
  }

  lemma {:induction false} ToolsInAssistants(ms: seq<Msg>)
    requires |ms| <= 1 && forall k :: 0 <= k < |ms| ==> ms[k].Assistant?
    ensures ToolsIn(ms) == []
  {
    if ms != [] { assert ms[1..] == []; }
  }

  /**
   * A finished run has saved every call message and every result once and in order, and its final
   * message after them; only the last call message of a run that ends with an error may be missing
   * in front of that.
   */
  lemma {:induction false} FinishedRunIsSaved(c: Config, chs: seq<Choice>)
    requires After(c, ENTRY, chs).node.End? && c.persist
    ensures var s := After(c, ENTRY, chs).state;
            && s.final.Some?
            && (exists saved :: s.memory == saved + [s.final.value] && saved + s.assistants == Trail(s.appended))
            && |s.assistants| <= 1 && (s.assistants != [] ==> s.error)
            && ToolsIn(s.memory) == ToolsIn(s.appended)
  {
    hide After, Trail, Answered, ToolsIn;
    EntryIsFine(c);
    RunKeeps(c, ENTRY, chs);
    var s := After(c, ENTRY, chs).state;
    var saved :| s.memory == saved + [s.final.value] && saved + s.assistants == Trail(s.appended);
    ToolsInAppend(saved, [s.final.value]);
    ToolsInAppend(saved, s.assistants);
    ToolsInOne(s.final.value);
    ToolsInAssistants(s.assistants);
    ToolsInTrail(s.appended);
  }

  /** A finished run ends with a message for the user, whatever ended it. */
  lemma {:induction false} FinishedRunAnswers(c: Config, chs: seq<Choice>)
    requires After(c, ENTRY, chs).node.End?
    ensures After(c, ENTRY, chs).state.final.Some?
  {
    hide After, Trail, Answered;
    EntryIsFine(c);
    RunKeeps(c, ENTRY, chs);
  }

  // ---------------------------------------------------------------------------------------------
  // The last call message
  // ---------------------------------------------------------------------------------------------

  /** The tools an outcome asks for. */
  function Asked(o: LlmOutcome): seq<nat> { if o.Answer? || o.AnswerThenFails? then o.calls else [] }

  predicate FailsAloud(o: LlmOutcome) { o.AnswerThenFails? && !o.silent }

  /**
   * A message that asks for tools skips the save exactly when a cancellation is seen, the call fails
   * aloud after it, or the deadline has passed before the last iteration.
   */
  lemma {:induction false} CallSkipsSave(c: Config, chs: seq<Choice>, ch: Choice)
    requires var p := After(c, ENTRY, chs); p.node.CallLlm? && !p.state.cancelled && !ch.raises && Asked(ch.llm) != []
    ensures var s := After(c, ENTRY, chs).state;
            After(c, ENTRY, chs + [ch]).node.Finalize?
            <==> ch.cancel || FailsAloud(ch.llm) || ((s.late || ch.late) && s.iteration + 1 < c.limit)
  {
    hide Inv;
    EntryIsFine(c);
    RunKeeps(c, ENTRY, chs);
    InvIsQuiet(c, After(c, ENTRY, chs).state);
    OneMore(c, ENTRY, chs, ch);
  }

  /**
   * Then it is nowhere in the session store exactly when only the deadline did it: a run that is
   * cancelled or has failed closes with that very message, tools and all.
   */
  lemma {:induction false} CallIsLost(c: Config, chs: seq<Choice>, ch: Choice, fin: Choice)
    requires c.persist && !ch.raises && !fin.raises && Asked(ch.llm) != []
    requires var p := After(c, ENTRY, chs); p.node.CallLlm? && !p.state.cancelled
    requires After(c, ENTRY, chs + [ch]).node.Finalize?
    ensures var s, p := After(c, ENTRY, chs).state, After(c, ENTRY, chs + [ch, fin]);
            p.node.End? && p.state.memory
            == s.memory + [if ch.cancel || fin.cancel || FailsAloud(ch.llm)
                           then Assistant(ch.llm.content, Asked(ch.llm)) else Notice]
  {
    hide Inv, AfterLlm;
    EntryIsFine(c);
    RunKeeps(c, ENTRY, chs);
    var s := After(c, ENTRY, chs).state;
    InvIsQuiet(c, s);
    CallSkipsSave(c, chs, ch);
    OneMore(c, ENTRY, chs, ch);
    OneMore(c, ENTRY, chs + [ch], fin);
    assert chs + [ch] + [fin] == chs + [ch, fin];
  }

  lemma {:induction false} OneMore(c: Config, p: Point, chs: seq<Choice>, ch: Choice)
    ensures After(c, p, chs + [ch]) == Step(c, After(c, p, chs), ch)
    decreases |chs|
  {
    hide Step;
    if chs == [] {
      assert ([] + [ch])[0] == ch && ([] + [ch])[1..] == [];
    } else {
      assert (chs + [ch])[1..] == chs[1..] + [ch];
      OneMore(c, Step(c, p, chs[0]), chs[1..], ch);
    }
  }

  /** The usage of an answer cannot be recorded: its call message is not saved as one, and closes the run. */
  lemma {:induction false} FailedAnswerSkipsSave()
    ensures var c := Config(2, true);
            var ch := Choice(false, AnswerThenFails(0, [1], false), _ => ToolOutcome(0, false), false, false);
            var p := After(c, ENTRY, [ch, ch, ch]);
            p.node.End? && p.state.assistants == [Assistant(0, [1])] && p.state.memory == [Assistant(0, [1])]
  {
    hide After;
    var c := Config(2, true);
    var ch := Choice(false, AnswerThenFails(0, [1], false), _ => ToolOutcome(0, false), false, false);
    var m := Assistant(0, [1]);
    Entering(c, ch);
    assert [ch, ch] == [ch] + [ch] && [ch, ch, ch] == [ch, ch] + [ch];
    OneMore(c, ENTRY, [ch], ch);
    OneMore(c, ENTRY, [ch, ch], ch);
    var t := Taken(START, m).(error := true);
    assert After(c, ENTRY, [ch, ch]) == Point(Finalize, t);
    assert Finalized(c, t) == t.(memory := [m]);
  }

  // ---------------------------------------------------------------------------------------------
  // Every run ends
  // ---------------------------------------------------------------------------------------------

  function Left(c: Config, s: State): nat { if c.limit > s.iteration then c.limit - s.iteration else 0 }

  /** How many nodes a run can still visit, if every failure has a text. */
  function Ahead(c: Config, p: Point): nat {
    var k := Left(c, p.state);
    match p.node
    case Prepare => if k == 0 then 4 else 3 * k + 1
    case CallLlm => if k == 0 then 3 else 3 * k
    case ExecuteTools => 3 * k + 2
    case UpdateMemory => 3 * k + (if k == 0 then 2 else 1)
    case Finalize => 1
    case _ => 0
  }

  predicate Over(p: Point) { p.node.End? || p.node.Raised? }

  lemma {:induction false} CallAdvances(c: Config, s: State, ch: Choice)
    requires Quiet(s) && (s.iteration == 0 || s.iteration < c.limit)
    ensures var q := Step(c, Point(CallLlm, s), ch);
            Ahead(c, q) + 1 <= Ahead(c, Point(CallLlm, s)) + 2 * (Extra(c, q.state) - Extra(c, s))
  {
    hide Executed, Saved, Finalized, AfterMemory;
  }

  /** A node brings the run nearer its end, but for a failure without a text, which costs two. */
  lemma {:induction false} AheadDecreases(c: Config, p: Point, ch: Choice)
    requires Inv(c, p) && !Over(p)
    ensures var q := Step(c, p, ch);
            Ahead(c, q) + 1 <= Ahead(c, p) + 2 * (Extra(c, q.state) - Extra(c, p.state))
  {
    hide Trail, Answered, AnyTerminal, ResultsOf, Recorded, Kinds, Stranded;
    var s := p.state;
    match p.node
    case CallLlm => CallAdvances(c, s, ch); hide Ahead, Extra, Called, AfterLlm, Executed, Saved, Finalized;
    case ExecuteTools => hide Called, Saved, Finalized, AfterLlm;
    case UpdateMemory => hide Called, Executed, Finalized, AfterLlm;
    case Finalize => FinalizedFacts(c, Clocked(s, ch)); hide Called, Executed, Saved, Finalized, AfterLlm;
    case _ => hide Called, Executed, Saved, Finalized, AfterLlm;
  }

  /** So a run, whatever happens in it, is over once it has visited this many nodes. */
  lemma {:induction false} RunEnds(c: Config, p: Point, chs: seq<Choice>)
    requires Inv(c, p) && |chs| >= Ahead(c, p) + 2 * (Extra(c, After(c, p, chs).state) - Extra(c, p.state))
    ensures Over(After(c, p, chs))
    decreases |chs|
  {
    hide Inv, Step, Extra;
    if Over(p) {
      OverStays(c, p, chs);
    } else if chs != [] {
      AheadDecreases(c, p, chs[0]);
      StepKeeps(c, p, chs[0]);
      RunEnds(c, Step(c, p, chs[0]), chs[1..]);
    }
  }

  lemma {:induction false} OverStays(c: Config, p: Point, chs: seq<Choice>)
    requires Over(p)
    ensures After(c, p, chs) == p
    decreases |chs|
  {
    if chs != [] { OverStays(c, p, chs[1..]); }
  }

  // ---------------------------------------------------------------------------------------------
  // Runs that reach finalize
  // ---------------------------------------------------------------------------------------------

  /** No node that is visited raises, and no cancellation arrives while the context is prepared or tools run. */
  predicate Smooth(c: Config, p: Point, chs: seq<Choice>)
    decreases |chs|
  {
    chs == [] || Over(p)
    || (!chs[0].raises && (chs[0].cancel ==> !p.node.Prepare? && !p.node.ExecuteTools?)
        && Smooth(c, Step(c, p, chs[0]), chs[1..]))
  }

  /** The next node finds the cancellation and raises, if it has not yet. */
  predicate Doomed(p: Point) {
    p.node.Raised? || (p.state.cancelled && !p.node.Finalize? && !p.node.End?)
  }

  lemma {:induction false} StepDooms(c: Config, p: Point, ch: Choice)
    requires !Over(p)
    ensures Doomed(Step(c, p, ch))
            <==> Doomed(p) || ch.raises || (ch.cancel && (p.node.Prepare? || p.node.ExecuteTools?))
  {
    hide ResultsOf, AnyTerminal, Finalized;
  }

  lemma {:induction false} DoomedNeverEnds(c: Config, p: Point, chs: seq<Choice>)
    requires Doomed(p)
    ensures Doomed(After(c, p, chs)) && !After(c, p, chs).node.End?
    decreases |chs|
  {
    hide Step;
    if chs != [] {
      if Over(p) { OverStays(c, p, chs); } else {
        StepDooms(c, p, chs[0]);
        DoomedNeverEnds(c, Step(c, p, chs[0]), chs[1..]);
      }
    }
  }

  lemma {:induction false} SmoothIsNotDoomed(c: Config, p: Point, chs: seq<Choice>)
    requires !Doomed(p)
    ensures Doomed(After(c, p, chs)) <==> !Smooth(c, p, chs)
    decreases |chs|
  {
    hide Step;
    if Over(p) {
      OverStays(c, p, chs);
    } else if chs != [] {
      StepDooms(c, p, chs[0]);
      if Doomed(Step(c, p, chs[0])) {
        DoomedNeverEnds(c, Step(c, p, chs[0]), chs[1..]);
      } else {
        SmoothIsNotDoomed(c, Step(c, p, chs[0]), chs[1..]);
      }
    }
  }

  /**
   * A run that has visited enough nodes has been finalized, with a message for the user, exactly
   * when no node it visited raised and no cancellation came while it was preparing or running tools.
   */
  lemma {:induction false} RunIsFinalized(c: Config, chs: seq<Choice>)
    requires |chs| >= Ahead(c, ENTRY) + 2 * Extra(c, After(c, ENTRY, chs).state)
    ensures var p := After(c, ENTRY, chs); (p.node.End? && p.state.final.Some?) <==> Smooth(c, ENTRY, chs)
  {
    hide After, Step, Smooth, Inv;
    EntryIsFine(c);
    RunEnds(c, ENTRY, chs);
    SmoothIsNotDoomed(c, ENTRY, chs);
    if After(c, ENTRY, chs).node.End? { FinishedRunAnswers(c, chs); }
  }

  // ---------------------------------------------------------------------------------------------
  // Failures without a text
  // ---------------------------------------------------------------------------------------------

  /** The provider fails without a text. */
  const HUSH := Choice(false, ProviderFails(true), _ => ToolOutcome(0, false), false, false)

  /** The model asks for one tool, which answers, at every turn. */
  const BUSY := Choice(false, Answer(0, [0]), _ => ToolOutcome(0, false), false, false)

  function Times(n: nat, ch: Choice): (chs: seq<Choice>)
    ensures |chs| == n
  {
    if n == 0 then [] else [ch] + Times(n - 1, ch)
  }

  lemma {:induction false} TimesStep(c: Config, p: Point, n: nat, ch: Choice)
    requires n > 0
    ensures After(c, p, Times(n, ch)) == After(c, Step(c, p, ch), Times(n - 1, ch))
  {
    assert Times(n, ch)[0] == ch && Times(n, ch)[1..] == Times(n - 1, ch);
  }

  lemma {:induction false} TimesNothing(c: Config, p: Point, ch: Choice)
    ensures After(c, p, Times(0, ch)) == p
  {
  }

  /** Nothing has happened to the run that would keep it from calling the model. */
  ghost predicate Unhurt(s: State) {
    Quiet(s) && !s.cancelled && !s.late && s.assistants == [] && s.results == []
  }

  /** The turn policy sees no error, and the iteration does not count. */
  lemma {:induction false} HushTurn(c: Config, s: State)
    requires Unhurt(s) && s.iteration < c.limit
    ensures var p := Point(CallLlm, s);
            Step(c, Step(c, p, HUSH), HUSH)
            == Point(CallLlm, s.(memory := Saved(c, s).memory, providerCalls := s.providerCalls + 1,
                                 misses := s.misses + 1))
  {
  }

  lemma {:induction false} HushRun(c: Config, s: State, j: nat)
    requires Unhurt(s) && s.iteration < c.limit
    ensures var p := After(c, Point(CallLlm, s), Times(2 * j, HUSH));
            && p.node.CallLlm? && Unhurt(p.state) && p.state.iteration == s.iteration
            && p.state.providerCalls == s.providerCalls + j && p.state.misses == s.misses + j
    decreases j
  {
    hide Step, After, Times;
    var p := Point(CallLlm, s);
    if j == 0 {
      TimesNothing(c, p, HUSH);
    } else {
      TimesStep(c, p, 2 * j, HUSH);
      TimesStep(c, Step(c, p, HUSH), 2 * j - 1, HUSH);
      HushTurn(c, s);
      HushRun(c, Step(c, Step(c, p, HUSH), HUSH).state, j - 1);
    }
  }

  lemma {:induction false} BusyRound(c: Config, s: State)
    requires Unhurt(s)
    ensures var p := Step(c, Point(CallLlm, s), BUSY);
            && p.state.iteration == s.iteration + 1 && !p.state.cancelled && !p.state.late
            && p.state.pending == [0] && p.state.final == Some(Assistant(0, [0])) && !p.state.error
            && !p.state.budgetExhausted
            && p.state.providerCalls == s.providerCalls + 1 && p.state.misses == s.misses
            && p.node == if s.iteration + 1 < c.limit then ExecuteTools else UpdateMemory
  {
  }

  lemma {:induction false} BusyTools(c: Config, s: State)
    requires s.pending == [0] && !s.cancelled && !s.late && !s.error && !s.budgetExhausted
    ensures var p := Step(c, Point(ExecuteTools, s), BUSY);
            && p.node.UpdateMemory? && p.state.iteration == s.iteration && !p.state.cancelled && !p.state.late
            && p.state.pending == [] && p.state.final.None? && !p.state.error && !p.state.budgetExhausted
            && p.state.providerCalls == s.providerCalls && p.state.misses == s.misses
  {
    assert seq(1, BUSY.tools) == [ToolOutcome(0, false)];
    assert !AnyTerminal([ToolOutcome(0, false)]) by { assert [ToolOutcome(0, false)][1..] == []; }
  }

  lemma {:induction false} BusyMemory(c: Config, s: State)
    requires !s.cancelled && !s.late && !s.error && !s.budgetExhausted
    ensures var p := Step(c, Point(UpdateMemory, s), BUSY);
            && (s.pending == [] && s.final.None? && s.iteration < c.limit ==> p.node.CallLlm? && Unhurt(p.state))
            && (s.pending != [] && s.iteration >= c.limit ==> p.node.Finalize?)
            && p.state.iteration == s.iteration && p.state.providerCalls == s.providerCalls
            && p.state.misses == s.misses
  {
  }

  lemma {:induction false} BusyRun(c: Config, s: State)
    requires Unhurt(s) && s.iteration < c.limit
    ensures var p := After(c, Point(CallLlm, s), Times(3 * (c.limit - s.iteration) - 1, BUSY));
            p.node.Finalize? && p.state.misses == s.misses
            && p.state.providerCalls == s.providerCalls + c.limit - s.iteration
    decreases c.limit - s.iteration
  {
    hide Step, After, Times, Unhurt;
    var n := 3 * (c.limit - s.iteration) - 1;
    var p := Step(c, Point(CallLlm, s), BUSY);
    var q := Step(c, p, BUSY);
    BusyRound(c, s);
    TimesStep(c, Point(CallLlm, s), n, BUSY);
    TimesStep(c, p, n - 1, BUSY);
    if s.iteration + 1 < c.limit {
      BusyTools(c, p.state);
      TimesStep(c, q, n - 2, BUSY);
      BusyMemory(c, q.state);
      BusyRun(c, Step(c, q, BUSY).state);
    } else {
      BusyMemory(c, p.state);
      TimesNothing(c, q, BUSY);
    }
  }

  /** Prepare, then `j` turns in which the provider fails without a text, then tools in every iteration. */
  function Longest(c: Config, j: nat): (chs: seq<Choice>)
    requires c.limit > 0
    ensures |chs| == 3 * c.limit + 2 * j
  {
    [BUSY] + Times(2 * j, HUSH) + Times(3 * c.limit - 1, BUSY)
  }

  lemma {:induction false} Entering(c: Config, ch: Choice)
    requires !ch.raises && !ch.cancel && !ch.late
    ensures After(c, ENTRY, [ch]) == Point(CallLlm, START)
  {
    assert [ch][1..] == [];
    assert START.(cancelled := false, late := false) == START;
  }

  lemma {:induction false} LongestRun(c: Config, j: nat)
    requires c.limit > 0
    ensures var p := After(c, ENTRY, Longest(c, j));
            p.node.Finalize? && p.state.misses == j && p.state.providerCalls == c.limit + j
  {
    var hush, busy := Times(2 * j, HUSH), Times(3 * c.limit - 1, BUSY);
    Entering(c, BUSY);
    hide After, Step, Times;
    assert Unhurt(START);
    HushRun(c, START, j);
    BusyRun(c, After(c, Point(CallLlm, START), hush).state);
    AfterAppend(c, ENTRY, [BUSY], hush);
    AfterAppend(c, ENTRY, [BUSY] + hush, busy);
  }

  lemma {:induction false} AfterAppend(c: Config, p: Point, a: seq<Choice>, b: seq<Choice>)
    ensures After(c, p, a + b) == After(c, After(c, p, a), b)
    decreases |a|
  {
    hide Step;
    if a == [] {
      assert a + b == b;
    } else {
      assert (a + b)[1..] == a[1..] + b;
      AfterAppend(c, Step(c, p, a[0]), a[1..], b);
    }
  }

  lemma {:induction false} StepMisses(c: Config, p: Point, ch: Choice)
    ensures Step(c, p, ch).state.misses >= p.state.misses
  {
    hide Evaluate, ResultsOf, AnyTerminal, AfterLlm, AfterMemory;
    var s := p.state;
    match p.node
    case CallLlm => assert Called(s, ch.llm).misses >= s.misses; hide Called;
    case ExecuteTools => assert Executed(s, seq(|s.pending|, ch.tools)).misses == s.misses; hide Executed;
    case Finalize => assert Finalized(c, Clocked(s, ch)).misses == s.misses; hide Finalized;
    case _ =>
  }

  lemma {:induction false} MissesGrow(c: Config, p: Point, chs: seq<Choice>)
    ensures After(c, p, chs).state.misses >= p.state.misses
    decreases |chs|
  {
    hide Step;
    if chs != [] {
      StepMisses(c, p, chs[0]);
      MissesGrow(c, Step(c, p, chs[0]), chs[1..]);
    }
  }

  /**
   * The limit bounds the provider calls of every run with at most `j` failures without a text
   * exactly when `j` is zero, or the limit leaves no second iteration to fail into.
   */
  lemma {:induction false} BoundNeedsTexts(c: Config, j: nat)
    ensures (forall chs :: After(c, ENTRY, chs).state.misses <= j ==>
               After(c, ENTRY, chs).state.providerCalls <= Most(c))
            <==> j == 0 || c.limit <= 0
  {
    hide After;
    if j == 0 || c.limit <= 0 {
      forall chs | After(c, ENTRY, chs).state.misses <= j ensures After(c, ENTRY, chs).state.providerCalls <= Most(c) {
        ProviderCallsBounded(c, chs);
      }
    } else {
      LongestRun(c, j);
      assert After(c, ENTRY, Longest(c, j)).state.providerCalls > Most(c);
    }
  }

  /** With a limit of one, two calls that fail without a text. */
  lemma {:induction false} SilentFailuresExceedLimit()
    ensures After(Config(1, true), ENTRY, [HUSH, HUSH, HUSH, HUSH]).state.providerCalls == 2
  {
    hide After;
    var c := Config(1, true);
    var hush := [HUSH, HUSH, HUSH, HUSH];
    var t := After(c, Point(CallLlm, START), [HUSH, HUSH]).state;
    assert Times(2, HUSH) == [HUSH, HUSH] by { assert Times(1, HUSH) == [HUSH] + Times(0, HUSH) == [HUSH]; }
    HushRun(c, START, 1);
    Entering(c, HUSH);
    assert hush == [HUSH] + [HUSH, HUSH] + [HUSH];
    AfterAppend(c, ENTRY, [HUSH], [HUSH, HUSH]);
    OneMore(c, ENTRY, [HUSH] + [HUSH, HUSH], HUSH);
    assert Called(t, HUSH.llm).providerCalls == 2;
  }

  /** What the runner hands the graph library as its recursion limit; `option` is the run's own iteration limit. */
  function RecursionLimit(option: int): nat { if 3 * option > 25 then 3 * option else 25 }

  /**
   * Every run with at most `j` failures without a text is over after as many nodes as the recursion
   * limit, exactly when the turn policy's limit is zero or less or the longest such run fits.
   */
  lemma {:induction false} RecursionLimitCovers(c: Config, option: int, j: nat)
    ensures (forall chs :: |chs| == RecursionLimit(option) && After(c, ENTRY, chs).state.misses <= j
               ==> Over(After(c, ENTRY, chs)))
            <==> c.limit <= 0 || 3 * c.limit + 1 + 2 * j <= RecursionLimit(option)
  {
    hide After, Step, Longest;
    var n := RecursionLimit(option);
    EntryIsFine(c);
    if c.limit <= 0 || 3 * c.limit + 1 + 2 * j <= n {
      forall chs | |chs| == n && After(c, ENTRY, chs).state.misses <= j ensures Over(After(c, ENTRY, chs)) {
        RunEnds(c, ENTRY, chs);
      }
    } else {
      var all := Longest(c, j);
      var chs := all[..n];
      LongestRun(c, j);
      assert all == chs + all[n..];
      AfterAppend(c, ENTRY, chs, all[n..]);
      MissesGrow(c, After(c, ENTRY, chs), all[n..]);
      if Over(After(c, ENTRY, chs)) { OverStays(c, After(c, ENTRY, chs), all[n..]); }
      assert |chs| == n && After(c, ENTRY, chs).state.misses <= j && !Over(After(c, ENTRY, chs));
    }
  }
}
