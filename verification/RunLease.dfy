/** Run leases and fencing, in a process that may lose a run any time. */
module RunLease {
  import opened Options

  // Every call of the registry may succeed, report lost ownership or fail, as its outcome says.

  type Run = nat
  type Session = nat

  datatype Binding = Binding(run: Run, session: Session, token: nat)

  datatype Task = Task(done: bool, cancelling: bool)

  datatype Outcome = Fine | OwnershipLost | Failure

  /** What the durable row of a run says, where the service asks. */
  datatype Row = Row(pending: bool, cancelledBeforeStart: bool, token: nat)

  datatype Result = Done | Raised

  /** What `cancel` says, unless the registry fails it. */
  datatype Reply = Said(answer: bool) | NoReply

  /**
   * The service's collections. `admitted` and `finishes` are history: the session every run was
   * registered for, and the runs the registry was asked to finish.
   */
  datatype State = State(
    bindings: map<Run, Binding>,
    tasks: map<Run, Task>,
    foreground: map<Session, Run>,
    fenced: set<Run>,
    cancelRequested: set<Run>,
    closed: bool,
    admitted: map<Run, Session>,
    finishes: seq<Run>)

  const FRESH := State(map[], map[], map[], {}, {}, false, map[], [])

  // ---------------------------------------------------------------------------------------------
  // What each call does
  // ---------------------------------------------------------------------------------------------

  function Registered(s: State, b: Binding, foreground: bool, accepted: bool): State {
    if s.closed || !accepted then s
    else s.(bindings := s.bindings[b.run := b],
         foreground := if foreground then s.foreground[b.session := b.run] else s.foreground,
         admitted := s.admitted[b.run := b.session])
  }

  function Forgotten(s: State, b: Binding): State {
    s.(bindings := s.bindings - {b.run},
    tasks := s.tasks - {b.run},
    cancelRequested := s.cancelRequested - {b.run},
    foreground := if b.session in s.foreground && s.foreground[b.session] == b.run then s.foreground - {b.session}
                  else s.foreground)
  }

  predicate CheckPasses(s: State, b: Binding, check: Outcome) { !s.closed && b.run !in s.fenced && check.Fine? }

  predicate Activates(s: State, b: Binding, row: Option<Row>, check: Outcome, activate: Outcome) {
    && CheckPasses(s, b, check) && activate.Fine?
    && !(row.Some? && row.value.cancelledBeforeStart && row.value.token == b.token)
  }

  function Activated(s: State, b: Binding, row: Option<Row>, check: Outcome, activate: Outcome,
                     task: Option<Task>): State
  {
    if Activates(s, b, row, check, activate) && task.Some? then s.(tasks := s.tasks[b.run := task.value]) else s
  }

  function Finished(s: State, b: Binding, outcome: Outcome): State {
    if b.run in s.fenced then Forgotten(s, b)
    else
      var called := s.(finishes := s.finishes + [b.run]);
      Forgotten(if outcome.Fine? then called else called.(fenced := s.fenced + {b.run}), b)
  }

  function Cancelled(s: State, run: Run, row: Option<Row>, outcome: Outcome): State {
    if run in s.tasks then
      if s.tasks[run].done then s
      else s.(cancelRequested := s.cancelRequested + {run}, tasks := s.tasks[run := s.tasks[run].(cancelling := true)])
    else if run !in s.bindings || row.None? || !row.value.pending then s
    else
      var called := s.(finishes := s.finishes + [run]);
      if outcome.Failure? then called else Forgotten(called, s.bindings[run])
  }

  function CancelReply(s: State, run: Run, row: Option<Row>, outcome: Outcome): Reply {
    if run in s.tasks then Said(!s.tasks[run].done)
    else if run !in s.bindings || row.None? || !row.value.pending then Said(false)
    else if outcome.Failure? then NoReply
    else Said(outcome.Fine?)
  }

  function SessionCancelled(s: State, session: Session, row: Option<Row>, outcome: Outcome): State {
    if session in s.foreground then Cancelled(s, s.foreground[session], row, outcome) else s
  }

  predicate IsCancelled(s: State, run: Run) { run in s.fenced || (run in s.tasks && s.tasks[run].cancelling) }

  /** The heartbeat renews the lease of a run that is at work; a run whose renewal fails is fenced. */
  function Renewed(s: State, run: Run, failing: set<Run>): State {
    if run in s.tasks && run in s.bindings && !s.tasks[run].done && run in failing then
      s.(fenced := s.fenced + {run}, tasks := s.tasks[run := s.tasks[run].(cancelling := true)])
    else s
  }

  function AllRenewed(s: State, runs: seq<Run>, failing: set<Run>): State
    decreases |runs|
  {
    if runs == [] then s else AllRenewed(Renewed(s, runs[0], failing), runs[1..], failing)
  }

  /** A run that is bound but has no task is pending: its ownership is checked instead. */
  function PendingChecked(s: State, run: Run, outcomes: map<Run, Outcome>): State {
    if run !in s.bindings || run in s.tasks || run !in outcomes then s
    else
      match outcomes[run]
      case Fine => s
      case OwnershipLost => Forgotten(s, s.bindings[run])
      case Failure => Forgotten(s.(fenced := s.fenced + {run}), s.bindings[run])
  }

  function AllChecked(s: State, runs: seq<Run>, outcomes: map<Run, Outcome>): State
    decreases |runs|
  {
    if runs == [] then s else AllChecked(PendingChecked(s, runs[0], outcomes), runs[1..], outcomes)
  }

  /** One turn of the heartbeat, over the runs with a task and the bound runs, in their order. */
  function Beaten(s: State, tasked: seq<Run>, failing: set<Run>, bound: seq<Run>, outcomes: map<Run, Outcome>): State {
    AllChecked(AllRenewed(s, tasked, failing), bound, outcomes)
  }

  function Closed(s: State): State {
    s.(closed := true,
    tasks := map r | r in s.tasks :: if s.tasks[r].done then s.tasks[r] else s.tasks[r].(cancelling := true))
  }

  function TaskEnded(s: State, run: Run): State {
    if run in s.tasks then s.(tasks := s.tasks[run := s.tasks[run].(done := true)]) else s
  }

  // ---------------------------------------------------------------------------------------------
  // The service
  // ---------------------------------------------------------------------------------------------

  class AgentRunService {
    var bindings: map<Run, Binding>
    var tasks: map<Run, Task>
    var foreground: map<Session, Run>
    var fenced: set<Run>
    var cancelRequested: set<Run>
    var closed: bool
    var admitted: map<Run, Session>
    var finishes: seq<Run>

    function Now(): State
      reads this
    {
      State(bindings, tasks, foreground, fenced, cancelRequested, closed, admitted, finishes)
    }

    constructor ()
      ensures Now() == FRESH
    {
      bindings, tasks, foreground, fenced := map[], map[], map[], {};
      cancelRequested, closed, admitted, finishes := {}, false, map[], [];
    }

    /** The monitor task may still fail to start, once the binding is stored. */
    method Register(b: Binding, asForeground: bool, accepted: bool, started: bool) returns (r: Result)
      modifies this
      ensures Now() == Registered(old(Now()), b, asForeground, accepted)
      ensures r == if old(closed) || !accepted || !started then Raised else Done
    {
      if closed || !accepted { return Raised; }
      bindings := bindings[b.run := b];
      if asForeground { foreground := foreground[b.session := b.run]; }
      admitted := admitted[b.run := b.session];
      return if started then Done else Raised;
    }

    method Check(b: Binding, outcome: Outcome) returns (r: Result)
      ensures r.Done? <==> CheckPasses(Now(), b, outcome)
    {
      if closed { return Raised; }
      if b.run in fenced { return Raised; }
      if !outcome.Fine? { return Raised; }
      return Done;
    }

    method Activate(b: Binding, row: Option<Row>, check: Outcome, activate: Outcome,
                    task: Option<Task>) returns (r: Result)
      modifies this
      ensures Now() == Activated(old(Now()), b, row, check, activate, task)
      ensures r.Done? <==> old(Activates(Now(), b, row, check, activate))
    {
      if closed { return Raised; }
      if row.Some? && row.value.cancelledBeforeStart && row.value.token == b.token { return Raised; }
      var owned := Check(b, check);
      if owned.Raised? || !activate.Fine? { return Raised; }
      if task.Some? { tasks := tasks[b.run := task.value]; }
      return Done;
    }

    method Forget(b: Binding)
      modifies this
      ensures Now() == Forgotten(old(Now()), b)
    {
      bindings := bindings - {b.run};
      tasks := tasks - {b.run};
      cancelRequested := cancelRequested - {b.run};
      if b.session in foreground && foreground[b.session] == b.run { foreground := foreground - {b.session}; }
    }

    method Finish(b: Binding, outcome: Outcome) returns (r: Result)
      modifies this
      ensures Now() == Finished(old(Now()), b, outcome)
      ensures r.Done? <==> old(b.run !in fenced) && outcome.Fine?
    {
      if b.run in fenced {
        Forget(b);
        return Raised;
      }
      finishes := finishes + [b.run];
      r := Done;
      if !outcome.Fine? {
        fenced := fenced + {b.run};
        r := Raised;
      }
      Forget(b);
    }

    method Cancel(run: Run, row: Option<Row>, outcome: Outcome) returns (reply: Reply)
      modifies this
      ensures Now() == Cancelled(old(Now()), run, row, outcome)
      ensures reply == old(CancelReply(Now(), run, row, outcome))
    {
      if run !in tasks {
        if run !in bindings { return Said(false); }
        var binding := bindings[run];
        if row.None? || !row.value.pending { return Said(false); }
        finishes := finishes + [run];
        if outcome.Failure? { return NoReply; }
        Forget(binding);
        return Said(outcome.Fine?);
      }
      if tasks[run].done { return Said(false); }
      cancelRequested := cancelRequested + {run};
      tasks := tasks[run := tasks[run].(cancelling := true)];
      return Said(true);
    }

    method CancelSession(session: Session, row: Option<Row>, outcome: Outcome) returns (reply: Reply)
      modifies this
      ensures Now() == SessionCancelled(old(Now()), session, row, outcome)
      ensures reply == old(if session in foreground then CancelReply(Now(), foreground[session], row, outcome)
                           else Said(false))
    {
      if session !in foreground { return Said(false); }
      reply := Cancel(foreground[session], row, outcome);
    }

    method IsRunCancelled(run: Run) returns (answer: bool)
      ensures answer == IsCancelled(Now(), run)
    {
      if run in fenced { return true; }
      return run in tasks && tasks[run].cancelling;
    }

    /** The renewal loop of a heartbeat. */
    method Renew(runs: seq<Run>, failing: set<Run>)
      modifies this
      ensures Now() == AllRenewed(old(Now()), runs, failing)
    {
      ghost var was := Now();
      assert runs[0..] == runs;
      for i := 0 to |runs|
        invariant AllRenewed(Now(), runs[i..], failing) == AllRenewed(was, runs, failing)
      {
        var run := runs[i];
        assert runs[i..][1..] == runs[i + 1..];
        if run in tasks && run in bindings && !tasks[run].done && run in failing {
          fenced := fenced + {run};
          tasks := tasks[run := tasks[run].(cancelling := true)];
        }
      }
    }

    /** The check loop of a heartbeat. */
    method CheckPending(runs: seq<Run>, outcomes: map<Run, Outcome>)
      modifies this
      ensures Now() == AllChecked(old(Now()), runs, outcomes)
    {
      ghost var was := Now();
      assert runs[0..] == runs;
      for i := 0 to |runs|
        invariant AllChecked(Now(), runs[i..], outcomes) == AllChecked(was, runs, outcomes)
      {
        var run := runs[i];
        assert runs[i..][1..] == runs[i + 1..];
        if run in bindings && run !in tasks && run in outcomes {
          var binding := bindings[run];
          match outcomes[run] {
            case Fine =>
            case OwnershipLost => Forget(binding);
            case Failure =>
              fenced := fenced + {run};
              Forget(binding);
          }
        }
      }
    }

    /** One turn of the heartbeat loop; nothing else runs in between. */
    method Heartbeat(tasked: seq<Run>, failing: set<Run>, bound: seq<Run>, outcomes: map<Run, Outcome>)
      modifies this
      ensures Now() == Beaten(old(Now()), tasked, failing, bound, outcomes)
    {
      Renew(tasked, failing);
      CheckPending(bound, outcomes);
    }
  }

  // ---------------------------------------------------------------------------------------------
  // Runs of the service
  // ---------------------------------------------------------------------------------------------

  datatype Event =
    | Register(b: Binding, foreground: bool, accepted: bool)
    | Activate(b: Binding, row: Option<Row>, check: Outcome, activate: Outcome, task: Option<Task>)
    | Finish(b: Binding, outcome: Outcome)
    | Cancel(run: Run, row: Option<Row>, outcome: Outcome)
    | CancelSession(session: Session, row: Option<Row>, outcome: Outcome)
    | Heartbeat(tasked: seq<Run>, failing: set<Run>, bound: seq<Run>, outcomes: map<Run, Outcome>)
    | TaskEnds(run: Run)
    | Close

  function Step(s: State, e: Event): State {
    match e
    case Register(b, foreground, accepted) => Registered(s, b, foreground, accepted)
    case Activate(b, row, check, activate, task) => Activated(s, b, row, check, activate, task)
    case Finish(b, outcome) => Finished(s, b, outcome)
    case Cancel(run, row, outcome) => Cancelled(s, run, row, outcome)
    case CancelSession(session, row, outcome) => SessionCancelled(s, session, row, outcome)
    case Heartbeat(tasked, failing, bound, outcomes) => Beaten(s, tasked, failing, bound, outcomes)
    case TaskEnds(run) => TaskEnded(s, run)
    case Close => Closed(s)
  }

  function After(s: State, es: seq<Event>): State
    decreases |es|
  {
    if es == [] then s else After(Step(s, es[0]), es[1..])
  }

  /** The id of a new run was never used. */
  predicate IsNew(s: State, e: Event) {
    e.Register? ==> e.b.run !in s.admitted && e.b.run !in s.fenced && e.b.run !in s.tasks
  }

  predicate NewIds(s: State, es: seq<Event>)
    decreases |es|
  {
    es == [] || (IsNew(s, es[0]) && NewIds(Step(s, es[0]), es[1..]))
  }

  /** A run that is fenced and still bound has a task, and a foreground run belongs to its session. */
  ghost predicate Inv(s: State) {
    && (forall r :: r in s.fenced && r in s.bindings ==> r in s.tasks)
    && (forall r :: r in s.bindings ==>
          s.bindings[r].run == r && r in s.admitted && s.admitted[r] == s.bindings[r].session)
    && (forall q :: q in s.foreground ==> s.foreground[q] in s.admitted && s.admitted[s.foreground[q]] == q)
  }

  lemma {:induction false} ForgottenKeeps(s: State, b: Binding)
    requires Inv(s)
    ensures Inv(Forgotten(s, b))
  {
  }

  lemma {:induction false} FencedForgottenKeeps(s: State, b: Binding)
    requires Inv(s)
    ensures Inv(Forgotten(s.(fenced := s.fenced + {b.run}), b))
  {
  }

  lemma {:induction false} AllRenewedKeeps(s: State, runs: seq<Run>, failing: set<Run>)
    requires Inv(s)
    ensures Inv(AllRenewed(s, runs, failing))
    decreases |runs|
  {
    if runs != [] {
      assert Inv(Renewed(s, runs[0], failing));
      hide Inv, Renewed;
      AllRenewedKeeps(Renewed(s, runs[0], failing), runs[1..], failing);
    }
  }

  lemma {:induction false} AllCheckedKeeps(s: State, runs: seq<Run>, outcomes: map<Run, Outcome>)
    requires Inv(s)
    ensures Inv(AllChecked(s, runs, outcomes))
    decreases |runs|
  {
    if runs != [] {
      PendingCheckedKeeps(s, runs[0], outcomes);
      hide Inv, PendingChecked;
      AllCheckedKeeps(PendingChecked(s, runs[0], outcomes), runs[1..], outcomes);
    }
  }

  lemma {:induction false} PendingCheckedKeeps(s: State, run: Run, outcomes: map<Run, Outcome>)
    requires Inv(s)
    ensures Inv(PendingChecked(s, run, outcomes))
  {
    if run in s.bindings {
      ForgottenKeeps(s, s.bindings[run]);
      FencedForgottenKeeps(s, s.bindings[run]);
    }
  }

  lemma {:induction false} CancelledKeeps(s: State, run: Run, row: Option<Row>, outcome: Outcome)
    requires Inv(s)
    ensures Inv(Cancelled(s, run, row, outcome))
  {
    if run in s.bindings { ForgottenKeeps(s.(finishes := s.finishes + [run]), s.bindings[run]); }
  }

  lemma {:induction false} FinishedKeeps(s: State, b: Binding, outcome: Outcome)
    requires Inv(s)
    ensures Inv(Finished(s, b, outcome))
  {
    var called := s.(finishes := s.finishes + [b.run]);
    ForgottenKeeps(s, b);
    ForgottenKeeps(called, b);
    FencedForgottenKeeps(called, b);
  }

  lemma {:induction false} StepKeeps(s: State, e: Event)
    requires Inv(s) && IsNew(s, e)
    ensures Inv(Step(s, e))
  {
    match e
    case Finish(b, outcome) => hide Inv; FinishedKeeps(s, b, outcome);
    case Cancel(run, row, outcome) => hide Inv; CancelledKeeps(s, run, row, outcome);
    case CancelSession(session, row, outcome) =>
      if session in s.foreground { CancelledKeeps(s, s.foreground[session], row, outcome); }
    case Heartbeat(tasked, failing, bound, outcomes) =>
      hide Inv;
      AllRenewedKeeps(s, tasked, failing);
      AllCheckedKeeps(AllRenewed(s, tasked, failing), bound, outcomes);
    case _ =>
  }

  lemma {:induction false} RunKeeps(s: State, es: seq<Event>)
    requires Inv(s) && NewIds(s, es)
    ensures Inv(After(s, es))
    decreases |es|
  {
    hide Inv, Step;
    if es != [] {
      StepKeeps(s, es[0]);
      RunKeeps(Step(s, es[0]), es[1..]);
    }
  }

  // ---------------------------------------------------------------------------------------------
  // Fencing is permanent
  // ---------------------------------------------------------------------------------------------

  /** How often the registry was asked to finish a run. */
  function Finishes(finishes: seq<Run>, run: Run): nat {
    if finishes == [] then 0
    else Finishes(finishes[..|finishes| - 1], run) + if finishes[|finishes| - 1] == run then 1 else 0
  }

  lemma {:induction false} FinishesSnoc(finishes: seq<Run>, other: Run, run: Run)
    ensures Finishes(finishes + [other], run) == Finishes(finishes, run) + if other == run then 1 else 0
  {
    assert (finishes + [other])[..|finishes|] == finishes;
  }

  lemma {:induction false} BeatFences(s: State, runs: seq<Run>, failing: set<Run>)
    ensures s.fenced <= AllRenewed(s, runs, failing).fenced && AllRenewed(s, runs, failing).finishes == s.finishes
    decreases |runs|
  {
    if runs != [] { BeatFences(Renewed(s, runs[0], failing), runs[1..], failing); }
  }

  lemma {:induction false} CheckFences(s: State, runs: seq<Run>, outcomes: map<Run, Outcome>)
    ensures s.fenced <= AllChecked(s, runs, outcomes).fenced && AllChecked(s, runs, outcomes).finishes == s.finishes
    decreases |runs|
  {
    if runs != [] { CheckFences(PendingChecked(s, runs[0], outcomes), runs[1..], outcomes); }
  }

  lemma {:induction false} StepFences(s: State, e: Event, run: Run)
    requires Inv(s) && run in s.fenced
    ensures run in Step(s, e).fenced
    ensures Finishes(Step(s, e).finishes, run) == Finishes(s.finishes, run)
  {
    hide Finishes;
    match e
    case Finish(b, _) => FinishesSnoc(s.finishes, b.run, run);
    case Cancel(other, _, _) => FinishesSnoc(s.finishes, other, run);
    case CancelSession(session, _, _) =>
      if session in s.foreground { FinishesSnoc(s.finishes, s.foreground[session], run); }
    case Heartbeat(tasked, failing, bound, outcomes) =>
      hide Inv;
      BeatFences(s, tasked, failing);
      CheckFences(AllRenewed(s, tasked, failing), bound, outcomes);
    case _ =>
  }

  /** Once fenced, always fenced: the registry is never again asked to finish the run. */
  lemma {:induction false} FencedForever(s: State, es: seq<Event>, run: Run)
    requires Inv(s) && NewIds(s, es) && run in s.fenced
    ensures run in After(s, es).fenced
    ensures Finishes(After(s, es).finishes, run) == Finishes(s.finishes, run)
    decreases |es|
  {
    hide Inv, Step, Finishes;
    if es != [] {
      StepKeeps(s, es[0]);
      StepFences(s, es[0], run);
      FencedForever(Step(s, es[0]), es[1..], run);
    }
  }

  /**
   * From the start of the service: a run that is fenced at some point fails every later check and
   * finish, counts as cancelled, cannot be activated, and is never finished in the registry again.
   */
  lemma {:induction false} FencingIsPermanent(before: seq<Event>, later: seq<Event>, b: Binding)
    requires NewIds(FRESH, before + later) && b.run in After(FRESH, before).fenced
    ensures var s := After(FRESH, before + later);
            && (forall outcome :: !CheckPasses(s, b, outcome))
            && (forall outcome :: Finished(s, b, outcome) == Forgotten(s, b))
            && (forall row, check, activate :: !Activates(s, b, row, check, activate))
            && IsCancelled(s, b.run)
            && Finishes(s.finishes, b.run) == Finishes(After(FRESH, before).finishes, b.run)
  {
    hide After, Step, NewIds, Finishes;
    assert Inv(FRESH);
    AfterAppend(FRESH, before, later);
    RunKeeps(FRESH, before);
    FencedForever(After(FRESH, before), later, b.run);
  }

  lemma {:induction false} AfterAppend(s: State, a: seq<Event>, b: seq<Event>)
    ensures After(s, a + b) == After(After(s, a), b)
    ensures NewIds(s, a + b) <==> NewIds(s, a) && NewIds(After(s, a), b)
    decreases |a|
  {
    hide Step, IsNew;
    if a == [] {
      assert a + b == b;
    } else {
      assert (a + b)[1..] == a[1..] + b;
      AfterAppend(Step(s, a[0]), a[1..], b);
    }
  }

  // ---------------------------------------------------------------------------------------------
  // Ids that are used again
  // ---------------------------------------------------------------------------------------------

  /**
   * The registration of a run under an id that may be fenced: the service is open, the registry
   * accepts it, and the task of the earlier run is gone. The table's primary key lets the registry
   * accept an id it has had before only once that session's rows have been deleted.
   */
  predicate Reuses(s: State, e: Event, run: Run) {
    e.Register? && e.b.run == run && e.accepted && !s.closed && run !in s.tasks
  }

  predicate Reused(s: State, es: seq<Event>, run: Run)
    decreases |es|
  {
    es != [] && (Reuses(s, es[0], run) || Reused(Step(s, es[0]), es[1..], run))
  }

  /** No call can make the registry finish the run: it is fenced, and if bound at all, it has a task. */
  ghost predicate Shielded(s: State, run: Run) {
    run in s.fenced && (run in s.bindings ==> run in s.tasks) && forall r :: r in s.bindings ==> s.bindings[r].run == r
  }

  lemma {:induction false} RenewalShields(s: State, runs: seq<Run>, failing: set<Run>, run: Run)
    requires Shielded(s, run)
    ensures Shielded(AllRenewed(s, runs, failing), run)
    decreases |runs|
  {
    if runs != [] {
      assert Shielded(Renewed(s, runs[0], failing), run);
      hide Shielded, Renewed;
      RenewalShields(Renewed(s, runs[0], failing), runs[1..], failing, run);
    }
  }

  lemma {:induction false} CheckShields(s: State, runs: seq<Run>, outcomes: map<Run, Outcome>, run: Run)
    requires Shielded(s, run)
    ensures Shielded(AllChecked(s, runs, outcomes), run)
    decreases |runs|
  {
    if runs != [] {
      assert Shielded(PendingChecked(s, runs[0], outcomes), run);
      hide Shielded, PendingChecked;
      CheckShields(PendingChecked(s, runs[0], outcomes), runs[1..], outcomes, run);
    }
  }

  lemma {:induction false} CancelShields(s: State, other: Run, row: Option<Row>, outcome: Outcome, run: Run)
    requires Shielded(s, run)
    ensures var s' := Cancelled(s, other, row, outcome);
            Shielded(s', run) && Finishes(s'.finishes, run) == Finishes(s.finishes, run)
  {
    hide Finishes;
    FinishesSnoc(s.finishes, other, run);
  }

  lemma {:induction false} FinishShields(s: State, b: Binding, outcome: Outcome, run: Run)
    requires Shielded(s, run)
    ensures var s' := Finished(s, b, outcome);
            Shielded(s', run) && Finishes(s'.finishes, run) == Finishes(s.finishes, run)
  {
    hide Finishes;
    FinishesSnoc(s.finishes, b.run, run);
  }

  /** The shield holds until the id is used again, and while it holds the run is not finished. */
  lemma {:induction false} StepShields(s: State, e: Event, run: Run)
    requires Shielded(s, run)
    ensures Finishes(Step(s, e).finishes, run) == Finishes(s.finishes, run)
    ensures !Reuses(s, e, run) ==> Shielded(Step(s, e), run)
  {
    hide Finishes;
    match e
    case Finish(b, outcome) => hide Shielded, Finished; FinishShields(s, b, outcome, run);
    case Cancel(other, row, outcome) => hide Shielded, Cancelled; CancelShields(s, other, row, outcome, run);
    case CancelSession(session, row, outcome) =>
      hide Shielded, Cancelled;
      if session in s.foreground { CancelShields(s, s.foreground[session], row, outcome, run); }
    case Heartbeat(tasked, failing, bound, outcomes) =>
      hide Shielded, AllRenewed, AllChecked;
      BeatFences(s, tasked, failing);
      CheckFences(AllRenewed(s, tasked, failing), bound, outcomes);
      RenewalShields(s, tasked, failing, run);
      CheckShields(AllRenewed(s, tasked, failing), bound, outcomes, run);
    case _ =>
  }

  /** There is a moment in the run of events at which one more call makes the registry finish the run. */
  ghost predicate Finishable(s: State, es: seq<Event>, run: Run) {
    exists n: nat, e :: n <= |es| && Exposes(After(s, es[..n]), e, run)
  }

  ghost predicate Exposes(s: State, e: Event, run: Run) {
    Finishes(Step(s, e).finishes, run) > Finishes(s.finishes, run)
  }

  lemma {:induction false} ReuseExposes(s: State, e: Event, run: Run)
    requires Reuses(s, e, run)
    ensures Exposes(Step(s, e), Cancel(run, Some(Row(true, false, 0)), Fine), run)
  {
    hide Finishes;
    FinishesSnoc(Step(s, e).finishes, run, run);
  }

  lemma {:induction false} ShieldUntilReuse(s: State, es: seq<Event>, n: nat, run: Run)
    requires Shielded(s, run) && n <= |es| && !Reused(s, es, run)
    ensures Shielded(After(s, es[..n]), run)
    decreases n
  {
    hide Step, Shielded, Reuses;
    if n > 0 {
      StepShields(s, es[0], run);
      assert es[..n][1..] == es[1..][..n - 1];
      ShieldUntilReuse(Step(s, es[0]), es[1..], n - 1, run);
    }
  }

  lemma {:induction false} ReuseIsFound(s: State, es: seq<Event>, run: Run) returns (n: nat)
    requires Reused(s, es, run)
    ensures n < |es| && Reuses(After(s, es[..n]), es[n], run)
    decreases |es|
  {
    hide Step, Reuses;
    if Reuses(s, es[0], run) {
      n := 0;
    } else {
      var k := ReuseIsFound(Step(s, es[0]), es[1..], run);
      n := k + 1;
      assert es[..n][1..] == es[1..][..k];
    }
  }

  /**
   * After any history without used ids in which the run was fenced: along what follows, the registry
   * can be made to finish the run after all exactly when its id is registered again, accepted while
   * the service is open and the earlier task is gone.
   */
  lemma {:induction false} FinishedAfterAll(before: seq<Event>, later: seq<Event>, run: Run)
    requires NewIds(FRESH, before) && run in After(FRESH, before).fenced
    ensures Finishable(After(FRESH, before), later, run) <==> Reused(After(FRESH, before), later, run)
  {
    hide After, Step, NewIds, Reuses, Reused, Exposes;
    assert Inv(FRESH);
    RunKeeps(FRESH, before);
    var s := After(FRESH, before);
    assert Shielded(s, run);
    hide Inv, Shielded;
    if Reused(s, later, run) {
      var n := ReuseIsFound(s, later, run);
      AfterNext(s, later, n);
      ReuseExposes(After(s, later[..n]), later[n], run);
    } else {
      forall n: nat, e | n <= |later| ensures !Exposes(After(s, later[..n]), e, run) {
        ShieldUntilReuse(s, later, n, run);
        StepShields(After(s, later[..n]), e, run);
        assert !Exposes(After(s, later[..n]), e, run) by { NotExposed(After(s, later[..n]), e, run); }
      }
    }
  }

  lemma {:induction false} NotExposed(s: State, e: Event, run: Run)
    requires Finishes(Step(s, e).finishes, run) == Finishes(s.finishes, run)
    ensures !Exposes(s, e, run)
  {
  }

  lemma {:induction false} AfterNext(s: State, es: seq<Event>, n: nat)
    requires n < |es|
    ensures After(s, es[..n + 1]) == Step(After(s, es[..n]), es[n])
  {
    hide Step;
    assert es[..n + 1] == es[..n] + [es[n]];
    AfterAppend(s, es[..n], [es[n]]);
    assert [es[n]][1..] == [];
  }

  /** A reused id at work: the registry is asked to finish a fenced run. */
  lemma {:induction false} ReusedIdIsFinished()
    ensures var b, row := Binding(1, 0, 0), Row(true, false, 0);
            var s := After(FRESH, [Register(b, false, true), Finish(b, Failure)]);
            var s' := After(s, [Register(b, false, true), Cancel(1, Some(row), Fine)]);
            1 in s.fenced && Finishes(s'.finishes, 1) == Finishes(s.finishes, 1) + 1
  {
    var b, row := Binding(1, 0, 0), Row(true, false, 0);
    var first := [Register(b, false, true), Finish(b, Failure)];
    var second := [Register(b, false, true), Cancel(1, Some(row), Fine)];
    assert first[1..] == [Finish(b, Failure)] && first[1..][1..] == [];
    assert second[1..] == [Cancel(1, Some(row), Fine)] && second[1..][1..] == [];
    var s1 := Step(FRESH, first[0]);
    var s := Step(s1, first[1]);
    assert After(s1, first[1..]) == s;
    var s2 := Step(s, second[0]);
    var s' := Step(s2, second[1]);
    assert After(s2, second[1..]) == s';
    FinishesSnoc(s2.finishes, 1, 1);
  }

  // ---------------------------------------------------------------------------------------------
  // Frames
  // ---------------------------------------------------------------------------------------------

  /** Nothing the service holds about a run differs. */
  ghost predicate Untouched(s: State, s': State, r: Run) {
    && (r in s'.bindings <==> r in s.bindings) && (r in s.bindings ==> s'.bindings[r] == s.bindings[r])
    && (r in s'.tasks <==> r in s.tasks) && (r in s.tasks ==> s'.tasks[r] == s.tasks[r])
    && (r in s'.fenced <==> r in s.fenced) && (r in s'.cancelRequested <==> r in s.cancelRequested)
    && Finishes(s'.finishes, r) == Finishes(s.finishes, r)
  }

  lemma {:induction false} CancelTouchesOne(s: State, run: Run, row: Option<Row>, outcome: Outcome, r: Run)
    requires Inv(s) && r != run
    ensures Untouched(s, Cancelled(s, run, row, outcome), r)
  {
    hide Finishes;
    FinishesSnoc(s.finishes, run, r);
  }

  /** Cancelling a session touches no run but one that was registered for that session. */
  lemma {:induction false} CancelSessionTouchesOwn(es: seq<Event>, session: Session, row: Option<Row>,
                                                   outcome: Outcome, r: Run)
    requires NewIds(FRESH, es)
    requires var s := After(FRESH, es); r !in s.admitted || s.admitted[r] != session
    ensures var s := After(FRESH, es); Untouched(s, SessionCancelled(s, session, row, outcome), r)
  {
    hide After, NewIds, Untouched, Cancelled;
    var s := After(FRESH, es);
    assert Inv(FRESH);
    RunKeeps(FRESH, es);
    if session in s.foreground {
      CancelTouchesOne(s, s.foreground[session], row, outcome, r);
    } else {
      assert Untouched(s, s, r) by { SameIsUntouched(s, r); }
    }
  }

  lemma {:induction false} SameIsUntouched(s: State, r: Run)
    ensures Untouched(s, s, r)
  {
  }
}
