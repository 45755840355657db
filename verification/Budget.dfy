/** The per-run budget ledger: reserve, settle, release, close; and its service. */
module Budget {
  import opened Options

  /** One figure for every counter of an account. */
  datatype Amounts = Amounts(llm: int, tools: int, tokens: int, usd: real,
                             seconds: real, cpu: real, memory: real, callbacks: int)

  const ZERO := Amounts(0, 0, 0, 0.0, 0.0, 0.0, 0.0, 0)

  function Plus(a: Amounts, b: Amounts): Amounts {
    Amounts(a.llm + b.llm, a.tools + b.tools, a.tokens + b.tokens, a.usd + b.usd,
            a.seconds + b.seconds, a.cpu + b.cpu, a.memory + b.memory, a.callbacks + b.callbacks)
  }

  function Minus(a: Amounts, b: Amounts): Amounts {
    Amounts(a.llm - b.llm, a.tools - b.tools, a.tokens - b.tokens, a.usd - b.usd,
            a.seconds - b.seconds, a.cpu - b.cpu, a.memory - b.memory, a.callbacks - b.callbacks)
  }

  datatype Kind = LlmCall | ToolCall | SandboxResource | WallTime

  datatype Allocation = Allocation(seconds: real, cpu: real, memory: real, callbacks: int)

  datatype Request = Request(kind: Kind, tokens: int, usd: real, duration: real, spec: Option<Allocation>)

  /** A reservation as it is handed to the caller; `id` is 0 unless it was allowed. */
  datatype Decision = Decision(allowed: bool, kind: Kind, tokens: int, usd: real, duration: real,
                               allocation: Option<Allocation>, id: nat)

  /** Actual usage; None means unknown. */
  datatype Usage = Usage(tokens: Option<int>, usd: Option<real>, duration: Option<real>, callbacks: Option<int>)

  datatype Config = Config(wall: real, llm: int, tools: int, tokens: Option<int>, usd: Option<real>,
                           seconds: Option<real>, cpu: Option<real>, memory: Option<real>, callbacks: Option<int>)

  // ---------------------------------------------------------------------------------------------
  // The policy
  // ---------------------------------------------------------------------------------------------

  predicate FitsInt(used: int, more: int, cap: Option<int>) { cap.None? || used + more <= cap.value }
  predicate FitsReal(used: real, more: real, cap: Option<real>) { cap.None? || used + more <= cap.value }

  function Deny(kind: Kind, duration: real): Decision { Decision(false, kind, 0, 0.0, duration, None, 0) }

  predicate SandboxFits(c: Config, used: Amounts, spec: Allocation) {
    && FitsReal(used.seconds, spec.seconds, c.seconds) && FitsReal(used.cpu, spec.cpu, c.cpu)
    && FitsReal(used.memory, spec.memory, c.memory) && FitsInt(used.callbacks, spec.callbacks, c.callbacks)
  }

  /** `evaluate_reserve` */
  function Evaluate(c: Config, used: Amounts, elapsed: real, r: Request): Decision {
    match r.kind
    case LlmCall =>
      if used.llm + 1 > c.llm || !FitsInt(used.tokens, r.tokens, c.tokens) || !FitsReal(used.usd, r.usd, c.usd)
      then Deny(LlmCall, 0.0) else Decision(true, LlmCall, r.tokens, r.usd, 0.0, None, 0)
    case ToolCall =>
      if used.tools + 1 > c.tools then Deny(ToolCall, 0.0) else Decision(true, ToolCall, 0, 0.0, 0.0, None, 0)
    case WallTime =>
      if elapsed + r.duration > c.wall then Deny(WallTime, r.duration)
      else Decision(true, WallTime, 0, 0.0, r.duration, None, 0)
    case SandboxResource =>
      if r.spec.None? || !SandboxFits(c, used, r.spec.value) then Deny(SandboxResource, 0.0)
      else Decision(true, SandboxResource, 0, 0.0, 0.0, r.spec, 0)
  }

  /** What a reservation adds to the counters. */
  function Estimate(d: Decision): Amounts {
    match d.kind
    case LlmCall => Amounts(1, 0, d.tokens, d.usd, 0.0, 0.0, 0.0, 0)
    case ToolCall => Amounts(0, 1, 0, 0.0, 0.0, 0.0, 0.0, 0)
    case WallTime => ZERO
    case SandboxResource =>
      if d.allocation.None? then ZERO
      else var a := d.allocation.value; Amounts(0, 0, 0, 0.0, a.seconds, a.cpu, a.memory, a.callbacks)
  }

  function OrInt(actual: Option<int>, estimate: int): int { if actual.Some? then actual.value else estimate }
  function OrReal(actual: Option<real>, estimate: real): real { if actual.Some? then actual.value else estimate }

  /** What a settled call has consumed: the actual figure where it is known, else the estimate. */
  function Consumed(d: Decision, u: Usage): Amounts {
    match d.kind
    case LlmCall => Amounts(1, 0, OrInt(u.tokens, d.tokens), OrReal(u.usd, d.usd), 0.0, 0.0, 0.0, 0)
    case ToolCall => Amounts(0, 1, 0, 0.0, 0.0, 0.0, 0.0, 0)
    case WallTime => ZERO
    case SandboxResource =>
      if d.allocation.None? then ZERO
      else
        var a := d.allocation.value;
        Amounts(0, 0, 0, 0.0, OrReal(u.duration, if d.duration == 0.0 then a.seconds else d.duration),
                a.cpu, a.memory, OrInt(u.callbacks, a.callbacks))
  }

  // ---------------------------------------------------------------------------------------------
  // The account
  // ---------------------------------------------------------------------------------------------

  /** `settled` is history: everything settled so far, added up. */
  datatype Account = Account(counters: Amounts, pending: map<nat, Decision>, nextId: nat,
                             start: real, elapsed: real, settled: Amounts)

  const OPENED := Account(ZERO, map[], 0, 0.0, 0.0, ZERO)

  function Started(a: Account, now: real): real { if a.start == 0.0 then now else a.start }

  function Elapsed(a: Account, now: real): real {
    if Started(a, now) > 0.0 then now - Started(a, now) else a.elapsed
  }

  function Decide(c: Config, a: Account, r: Request, now: real): Decision {
    var d := Evaluate(c, a.counters, Elapsed(a, now), r);
    if d.allowed then d.(id := a.nextId + 1) else d
  }

  function Reserved(c: Config, a: Account, r: Request, now: real): Account {
    var clocked := a.(start := Started(a, now), elapsed := Elapsed(a, now));
    var d := Decide(c, a, r, now);
    if d.allowed then
      clocked.(counters := Plus(a.counters, Estimate(d)), pending := a.pending[d.id := d], nextId := d.id)
    else clocked
  }

  function Settled(a: Account, d: Decision, u: Usage): Account {
    if d.id !in a.pending then a
    else a.(counters := Plus(a.counters, Minus(Consumed(d, u), Estimate(d))),
         pending := a.pending - {d.id}, settled := Plus(a.settled, Consumed(d, u)))
  }

  function Released(a: Account, d: Decision): Account {
    if d.id !in a.pending then a
    else a.(counters := Minus(a.counters, Estimate(d)), pending := a.pending - {d.id})
  }

  /** The estimates still pending, added up over the ids up to `n`. */
  function Outstanding(pending: map<nat, Decision>, n: nat): Amounts {
    if n == 0 then ZERO
    else Plus(Outstanding(pending, n - 1), if n in pending then Estimate(pending[n]) else ZERO)
  }

  function Closed(a: Account): Account {
    a.(counters := Minus(a.counters, Outstanding(a.pending, a.nextId)), pending := map[])
  }

  lemma {:induction false} NothingToRelease(pending: map<nat, Decision>, counters: Amounts)
    ensures Minus(counters, Outstanding(pending, 0)) == counters
  {
  }

  lemma {:induction false} ReleaseOne(pending: map<nat, Decision>, id: nat, counters: Amounts)
    requires id > 0
    ensures var before := Minus(counters, Outstanding(pending, id - 1));
            Minus(counters, Outstanding(pending, id))
            == if id in pending then Minus(before, Estimate(pending[id])) else before
  {
  }

  class RunBudgetAccount {
    const config: Config
    var llm: int
    var tools: int
    var elapsed: real
    var tokens: int
    var usd: real
    var seconds: real
    var cpu: real
    var memory: real
    var callbacks: int
    var pending: map<nat, Decision>
    var nextId: nat
    var start: real
    ghost var settled: Amounts

    function Counters(): Amounts
      reads this
    {
      Amounts(llm, tools, tokens, usd, seconds, cpu, memory, callbacks)
    }

    ghost function State(): Account
      reads this
    {
      Account(Counters(), pending, nextId, start, elapsed, settled)
    }

    constructor (c: Config)
      ensures State() == OPENED && config == c
    {
      config := c;
      llm, tools, tokens, usd, seconds, cpu, memory, callbacks := 0, 0, 0, 0.0, 0.0, 0.0, 0.0, 0;
      pending, nextId, start, elapsed, settled := map[], 0, 0.0, 0.0, ZERO;
    }

    method Reserve(r: Request, now: real) returns (d: Decision)
      modifies this
      ensures State() == Reserved(config, old(State()), r, now)
      ensures d == Decide(config, old(State()), r, now)
    {
      if start == 0.0 { start := now; }
      if start > 0.0 { elapsed := now - start; }
      d := Evaluate(config, Counters(), elapsed, r);
      if d.allowed {
        nextId := nextId + 1;
        d := d.(id := nextId);
        ApplyReserve(d);
        pending := pending[nextId := d];
      }
    }

    method ApplyReserve(d: Decision)
      modifies this
      ensures State() == old(State()).(counters := Plus(old(Counters()), Estimate(d)))
    {
      match d.kind {
        case LlmCall => llm, tokens, usd := llm + 1, tokens + d.tokens, usd + d.usd;
        case ToolCall => tools := tools + 1;
        case WallTime =>
        case SandboxResource =>
          if d.allocation.Some? {
            var a := d.allocation.value;
            seconds, cpu := seconds + a.seconds, cpu + a.cpu;
            memory, callbacks := memory + a.memory, callbacks + a.callbacks;
          }
      }
    }

    method Settle(d: Decision, u: Usage)
      modifies this
      ensures State() == Settled(old(State()), d, u)
    {
      if d.id !in pending { return; }
      match d.kind {
        case LlmCall =>
          tokens := tokens + (OrInt(u.tokens, d.tokens) - d.tokens);
          usd := usd + (OrReal(u.usd, d.usd) - d.usd);
        case SandboxResource =>
          if d.allocation.Some? {
            var a := d.allocation.value;
            var duration := OrReal(u.duration, if d.duration == 0.0 then a.seconds else d.duration);
            seconds := seconds + (duration - a.seconds);
            callbacks := callbacks + (OrInt(u.callbacks, a.callbacks) - a.callbacks);
          }
        case _ =>
      }
      pending := pending - {d.id};
      settled := Plus(settled, Consumed(d, u));
    }

    method ApplyRelease(d: Decision)
      modifies this
      ensures State() == old(State()).(counters := Minus(old(Counters()), Estimate(d)))
    {
      match d.kind {
        case LlmCall => llm, tokens, usd := llm - 1, tokens - d.tokens, usd - d.usd;
        case ToolCall => tools := tools - 1;
        case WallTime =>
        case SandboxResource =>
          if d.allocation.Some? {
            var a := d.allocation.value;
            seconds, cpu := seconds - a.seconds, cpu - a.cpu;
            memory, callbacks := memory - a.memory, callbacks - a.callbacks;
          }
      }
    }

    method Release(d: Decision)
      modifies this
      ensures State() == Released(old(State()), d)
    {
      if d.id !in pending { return; }
      ApplyRelease(d);
      pending := pending - {d.id};
    }

    /** Releases every pending reservation, in the order of their ids, which is that of the dict. */
    method Close()
      modifies this
      ensures State() == Closed(old(State()))
    {
      hide Estimate, Plus, Minus, Outstanding;
      ghost var was := State();
      NothingToRelease(was.pending, was.counters);
      for id := 1 to nextId + 1
        invariant State() == was.(counters := Minus(was.counters, Outstanding(was.pending, id - 1)))
      {
        ReleaseOne(was.pending, id, was.counters);
        if id in pending { ApplyRelease(pending[id]); }
      }
      pending := map[];
    }
  }

  // ---------------------------------------------------------------------------------------------
  // The ledger balances
  // ---------------------------------------------------------------------------------------------

  /** Every counter is what has been settled plus what is pending; ids count up from 1. */
  ghost predicate Balanced(a: Account) {
    && a.counters == Plus(a.settled, Outstanding(a.pending, a.nextId))
    && forall id :: id in a.pending ==> 1 <= id <= a.nextId && a.pending[id].id == id
  }

  lemma {:induction false} OutstandingAgrees(p: map<nat, Decision>, q: map<nat, Decision>, n: nat)
    requires forall id :: 1 <= id <= n ==> (id in p <==> id in q) && (id in p ==> p[id] == q[id])
    ensures Outstanding(p, n) == Outstanding(q, n)
  {
    hide Plus, Estimate;
    if n > 0 { OutstandingAgrees(p, q, n - 1); }
  }

  lemma {:induction false} OutstandingWithout(p: map<nat, Decision>, id: nat, n: nat)
    requires id in p && 1 <= id <= n
    ensures Outstanding(p, n) == Plus(Outstanding(p - {id}, n), Estimate(p[id]))
  {
    hide Estimate;
    if id == n {
      OutstandingAgrees(p, p - {id}, n - 1);
    } else {
      OutstandingWithout(p, id, n - 1);
    }
  }

  lemma {:induction false} ReserveBalances(c: Config, a: Account, r: Request, now: real)
    requires Balanced(a)
    ensures Balanced(Reserved(c, a, r, now))
  {
    hide Estimate, Evaluate, Elapsed, Started, Plus;
    var d := Decide(c, a, r, now);
    if d.allowed {
      OutstandingAgrees(a.pending, a.pending[d.id := d], a.nextId);
      PlusAssociates(a.settled, Outstanding(a.pending, a.nextId), Estimate(d));
    }
  }

  lemma {:induction false} PlusAssociates(x: Amounts, y: Amounts, z: Amounts)
    ensures Plus(Plus(x, y), z) == Plus(x, Plus(y, z))
  {
  }

  /**
   * Settling a pending reservation keeps the balance exactly when what the caller hands back
   * estimates what was reserved under that id.
   */
  lemma {:induction false} SettleBalances(a: Account, d: Decision, u: Usage)
    requires Balanced(a) && d.id in a.pending
    ensures Balanced(Settled(a, d, u)) <==> Estimate(d) == Estimate(a.pending[d.id])
  {
    hide Estimate, Consumed;
    OutstandingWithout(a.pending, d.id, a.nextId);
  }

  lemma {:induction false} ReleaseBalances(a: Account, d: Decision)
    requires Balanced(a) && d.id in a.pending
    ensures Balanced(Released(a, d)) <==> Estimate(d) == Estimate(a.pending[d.id])
  {
    hide Estimate;
    OutstandingWithout(a.pending, d.id, a.nextId);
  }

  lemma {:induction false} NothingOutstanding(n: nat)
    ensures Outstanding(map[], n) == ZERO
  {
    if n > 0 { NothingOutstanding(n - 1); }
  }

  /** Closing leaves exactly what was settled. */
  lemma {:induction false} CloseLeavesSettled(a: Account)
    requires Balanced(a)
    ensures Closed(a).counters == a.settled && Closed(a).pending == map[] && Balanced(Closed(a))
  {
    hide Outstanding;
    NothingOutstanding(a.nextId);
  }

  // ---------------------------------------------------------------------------------------------
  // Runs of one account
  // ---------------------------------------------------------------------------------------------

  datatype Event =
    | Reserve(r: Request, now: real)
    | Settle(d: Decision, u: Usage)
    | Release(d: Decision)
    | Close

  function Step(c: Config, a: Account, e: Event): Account {
    match e
    case Reserve(r, now) => Reserved(c, a, r, now)
    case Settle(d, u) => Settled(a, d, u)
    case Release(d) => Released(a, d)
    case Close => Closed(a)
  }

  function After(c: Config, a: Account, es: seq<Event>): Account
    decreases |es|
  {
    if es == [] then a else After(c, Step(c, a, es[0]), es[1..])
  }

  /** The caller hands back the decision it was given, or one that is not pending any more. */
  predicate Honest(a: Account, e: Event) {
    (e.Settle? || e.Release?) && e.d.id in a.pending ==> e.d == a.pending[e.d.id]
  }

  predicate AllHonest(c: Config, a: Account, es: seq<Event>)
    decreases |es|
  {
    es == [] || (Honest(a, es[0]) && AllHonest(c, Step(c, a, es[0]), es[1..]))
  }

  lemma {:induction false} StepBalances(c: Config, a: Account, e: Event)
    requires Balanced(a) && Honest(a, e)
    ensures Balanced(Step(c, a, e))
  {
    hide Balanced, Estimate, Consumed, Reserved;
    match e
    case Reserve(r, now) => ReserveBalances(c, a, r, now);
    case Settle(d, u) => if d.id in a.pending { SettleBalances(a, d, u); }
    case Release(d) => if d.id in a.pending { ReleaseBalances(a, d); }
    case Close => CloseLeavesSettled(a);
  }

  /** After any run with the returned decisions, the ledger balances. */
  lemma {:induction false} LedgerBalances(c: Config, a: Account, es: seq<Event>)
    requires Balanced(a) && AllHonest(c, a, es)
    ensures Balanced(After(c, a, es))
    decreases |es|
  {
    hide Balanced, Step, Honest;
    if es != [] {
      StepBalances(c, a, es[0]);
      LedgerBalances(c, Step(c, a, es[0]), es[1..]);
    }
  }

  lemma {:induction false} NothingPendingBalances(a: Account)
    requires a.pending == map[] && a.counters == a.settled
    ensures Balanced(a)
  {
    hide Outstanding;
    NothingOutstanding(a.nextId);
  }

  /** So it does in any run of an opened account, and closing that run leaves what it settled. */
  lemma {:induction false} OpenedRunBalances(c: Config, es: seq<Event>)
    requires AllHonest(c, OPENED, es)
    ensures var a := After(c, OPENED, es); Balanced(a) && Closed(a).counters == a.settled
  {
    hide Balanced, Step, Honest;
    NothingPendingBalances(OPENED);
    LedgerBalances(c, OPENED, es);
    CloseLeavesSettled(After(c, OPENED, es));
  }

  /** A reservation that was closed stays closed: its id never comes back. */
  lemma {:induction false} LeavesOnce(c: Config, a: Account, es: seq<Event>, id: nat)
    requires id !in a.pending && id <= a.nextId
    ensures id !in After(c, a, es).pending && id <= After(c, a, es).nextId
    decreases |es|
  {
    hide Estimate, Consumed, Evaluate, Plus, Minus, Outstanding;
    if es != [] { LeavesOnce(c, Step(c, a, es[0]), es[1..], id); }
  }

  /** Settling or releasing it again, however much later, changes nothing. */
  lemma {:induction false} AgainChangesNothing(c: Config, a: Account, es: seq<Event>, d: Decision,
                                               u: Usage, d': Decision, u': Usage)
    requires Balanced(a) && d.id in a.pending && d'.id == d.id
    ensures var settled := After(c, Settled(a, d, u), es);
            Settled(settled, d', u') == settled && Released(settled, d') == settled
    ensures var released := After(c, Released(a, d), es);
            Settled(released, d', u') == released && Released(released, d') == released
  {
    hide After, Estimate, Consumed, Plus, Minus;
    LeavesOnce(c, Settled(a, d, u), es, d.id);
    LeavesOnce(c, Released(a, d), es, d.id);
  }

  // ---------------------------------------------------------------------------------------------
  // Caps
  // ---------------------------------------------------------------------------------------------

  function AtLeastZero(cap: int): nat { if cap > 0 then cap else 0 }

  ghost predicate CallsWithin(c: Config, a: Account) {
    && a.counters.llm <= AtLeastZero(c.llm) && a.counters.tools <= AtLeastZero(c.tools)
  }

  lemma {:induction false} OutstandingCalls(p: map<nat, Decision>, n: nat)
    ensures Outstanding(p, n).llm >= 0 && Outstanding(p, n).tools >= 0
  {
    if n > 0 { OutstandingCalls(p, n - 1); }
  }

  lemma {:induction false} StepWithinCalls(c: Config, a: Account, e: Event)
    requires CallsWithin(c, a)
    ensures CallsWithin(c, Step(c, a, e))
  {
    OutstandingCalls(a.pending, a.nextId);
    hide Outstanding;
  }

  /** Call counts never exceed their caps, whatever is handed back and reported. */
  lemma {:induction false} CallsNeverExceed(c: Config, a: Account, es: seq<Event>)
    requires CallsWithin(c, a)
    ensures CallsWithin(c, After(c, a, es))
    decreases |es|
  {
    hide Step;
    if es != [] {
      StepWithinCalls(c, a, es[0]);
      CallsNeverExceed(c, Step(c, a, es[0]), es[1..]);
    }
  }

  ghost predicate Within(c: Config, x: Amounts) {
    && FitsInt(x.tokens, 0, c.tokens) && FitsReal(x.usd, 0.0, c.usd) && FitsReal(x.seconds, 0.0, c.seconds)
    && FitsReal(x.cpu, 0.0, c.cpu) && FitsReal(x.memory, 0.0, c.memory) && FitsInt(x.callbacks, 0, c.callbacks)
  }

  /** In every amount that has a cap, the first is at most the second. */
  predicate NotMore(c: Config, x: Amounts, y: Amounts) {
    && (c.tokens.Some? ==> x.tokens <= y.tokens) && (c.usd.Some? ==> x.usd <= y.usd)
    && (c.seconds.Some? ==> x.seconds <= y.seconds) && (c.cpu.Some? ==> x.cpu <= y.cpu)
    && (c.memory.Some? ==> x.memory <= y.memory) && (c.callbacks.Some? ==> x.callbacks <= y.callbacks)
  }

  /** Where there is a cap, no request asks for less than nothing, and no call reports more than it had reserved. */
  ghost predicate Frugal(c: Config, e: Event) {
    match e
    case Reserve(r, _) =>
      && (c.tokens.Some? ==> r.tokens >= 0) && (c.usd.Some? ==> r.usd >= 0.0)
      && (r.spec.Some? ==>
            var a := r.spec.value;
            NotMore(c, ZERO, Amounts(0, 0, 0, 0.0, a.seconds, a.cpu, a.memory, a.callbacks)))
    case Settle(d, u) => NotMore(c, Consumed(d, u), Estimate(d))
    case Release(d) => NotMore(c, ZERO, Estimate(d))
    case Close => true
  }

  ghost predicate PendingNonNegative(c: Config, a: Account) {
    forall id :: id in a.pending ==> NotMore(c, ZERO, Estimate(a.pending[id]))
  }

  lemma {:induction false} OutstandingNonNegative(c: Config, p: map<nat, Decision>, n: nat)
    requires forall id :: id in p ==> NotMore(c, ZERO, Estimate(p[id]))
    ensures NotMore(c, ZERO, Outstanding(p, n))
  {
    hide Estimate;
    if n > 0 { OutstandingNonNegative(c, p, n - 1); }
  }

  lemma {:induction false} ReserveWithin(c: Config, a: Account, r: Request, now: real)
    requires Within(c, a.counters) && Frugal(c, Reserve(r, now)) && PendingNonNegative(c, a)
    ensures Within(c, Reserved(c, a, r, now).counters) && PendingNonNegative(c, Reserved(c, a, r, now))
  {
    var d := Decide(c, a, r, now);
    assert d.allowed ==> NotMore(c, ZERO, Estimate(d)) && Within(c, Plus(a.counters, Estimate(d)));
    hide Estimate, Evaluate, Elapsed, Started, Plus;
  }

  lemma {:induction false} StepWithin(c: Config, a: Account, e: Event)
    requires Within(c, a.counters) && Frugal(c, e) && PendingNonNegative(c, a)
    ensures Within(c, Step(c, a, e).counters) && PendingNonNegative(c, Step(c, a, e))
  {
    match e
    case Reserve(r, now) => ReserveWithin(c, a, r, now);
    case Settle(_, _) => hide Estimate, Consumed;
    case Release(_) => hide Estimate;
    case Close => hide Estimate, Outstanding; OutstandingNonNegative(c, a.pending, a.nextId);
  }

  /** Cost and sandbox caps hold throughout a run in which no call overruns its estimate of a capped amount. */
  lemma {:induction false} CostsWithinCaps(c: Config, a: Account, es: seq<Event>)
    requires Within(c, a.counters) && PendingNonNegative(c, a) && forall i :: 0 <= i < |es| ==> Frugal(c, es[i])
    ensures Within(c, After(c, a, es).counters)
    decreases |es|
  {
    hide Step, Within, Frugal, PendingNonNegative;
    if es != [] {
      StepWithin(c, a, es[0]);
      CostsWithinCaps(c, Step(c, a, es[0]), es[1..]);
    }
  }

  /** An account within its caps whose ledger balances and which holds the decision as pending. */
  ghost predicate Holds(c: Config, a: Account, d: Decision) {
    && Balanced(a) && Within(c, a.counters) && d.id in a.pending && a.pending[d.id] == d
    && NotMore(UNCAPPED, ZERO, a.settled)
  }

  /** Every amount counts. */
  const UNCAPPED := Config(0.0, 0, 0, Some(0), Some(0.0), Some(0.0), Some(0.0), Some(0.0), Some(0))

  /** Just the decision is pending, and every capped counter stands at its cap. */
  function Brimful(c: Config, d: Decision): Account {
    var e := Estimate(d);
    var full := Amounts(e.llm, e.tools, OrInt(c.tokens, e.tokens), OrReal(c.usd, e.usd), OrReal(c.seconds, e.seconds),
                        OrReal(c.cpu, e.cpu), OrReal(c.memory, e.memory), OrInt(c.callbacks, e.callbacks));
    Account(full, map[d.id := d], d.id, 0.0, 0.0, Minus(full, e))
  }

  lemma {:induction false} BrimfulHolds(c: Config, d: Decision)
    requires d.id > 0 && Within(c, Estimate(d))
    ensures Holds(c, Brimful(c, d), d)
  {
    hide Estimate, Outstanding;
    var p := map[d.id := d];
    OutstandingWithout(p, d.id, d.id);
    assert p - {d.id} == map[];
    NothingOutstanding(d.id);
  }

  /**
   * Settling a decision keeps every account that holds it within its caps exactly when, in every
   * capped amount, what it consumed is at most what was reserved.
   */
  lemma {:induction false} SettleKeepsCaps(c: Config, d: Decision, u: Usage)
    requires d.id > 0 && Within(c, Estimate(d))
    ensures (forall a :: Holds(c, a, d) ==> Within(c, Settled(a, d, u).counters))
            <==> NotMore(c, Consumed(d, u), Estimate(d))
  {
    BrimfulHolds(c, d);
    hide Estimate, Consumed, Balanced;
    if !NotMore(c, Consumed(d, u), Estimate(d)) {
      assert !Within(c, Settled(Brimful(c, d), d, u).counters);
    }
  }

  /** One account stays within its caps exactly when every overrun fits into what is left. */
  lemma {:induction false} SettleFits(c: Config, a: Account, d: Decision, u: Usage)
    requires d.id in a.pending
    ensures var over := Minus(Consumed(d, u), Estimate(d));
            Within(c, Settled(a, d, u).counters)
            <==> && FitsInt(a.counters.tokens, over.tokens, c.tokens) && FitsReal(a.counters.usd, over.usd, c.usd)
                 && FitsReal(a.counters.seconds, over.seconds, c.seconds) && FitsReal(a.counters.cpu, over.cpu, c.cpu)
                 && FitsReal(a.counters.memory, over.memory, c.memory)
                 && FitsInt(a.counters.callbacks, over.callbacks, c.callbacks)
  {
    hide Estimate, Consumed;
  }

  /** Settling a pending call that reports any usage over its estimate adds just that overrun. */
  lemma {:induction false} OverrunCounts(a: Account, d: Decision, tokens: int)
    requires d.id in a.pending && d.kind.LlmCall?
    ensures Settled(a, d, Usage(Some(tokens), None, None, None)).counters.tokens
            == a.counters.tokens + (tokens - d.tokens)
  {
  }

  /** So there is a usage that one call can report to take the tokens over their cap. */
  lemma {:induction false} OverrunExceedsCap(a: Account, c: Config, d: Decision)
    requires c.tokens.Some? && d.id in a.pending && d.kind.LlmCall? && Within(c, a.counters)
    ensures exists u :: !Within(c, Step(c, a, Settle(d, u)).counters)
  {
    var u := Usage(Some(c.tokens.value + 1 - a.counters.tokens + d.tokens), None, None, None);
    OverrunCounts(a, d, u.tokens.value);
    hide Settled;
    assert !Within(c, Step(c, a, Settle(d, u)).counters);
  }

  // ---------------------------------------------------------------------------------------------
  // The service
  // ---------------------------------------------------------------------------------------------

  /** A run's account with the configuration it was opened with. */
  datatype Opened = Opened(config: Config, account: Account)

  /** What a call does to the account of its own run. */
  function ServiceStep(default: Config, accounts: map<nat, Opened>, run: nat, e: Event): map<nat, Opened> {
    match e
    case Reserve(_, _) =>
      var o := if run in accounts then accounts[run] else Opened(default, OPENED);
      accounts[run := o.(account := Step(o.config, o.account, e))]
    case Close => accounts - {run}
    case _ =>
      if run in accounts then
        var o := accounts[run];
        accounts[run := o.(account := Step(o.config, o.account, e))]
      else accounts
  }

  class BudgetService {
    const default: Config
    var accounts: map<nat, Opened>

    constructor (c: Config)
      ensures default == c && accounts == map[]
    {
      default, accounts := c, map[];
    }

    method Open(run: nat, config: Option<Config>)
      modifies this
      ensures run in accounts
      ensures accounts == if run in old(accounts) then old(accounts)
                          else old(accounts)[run := Opened(if config.Some? then config.value else default, OPENED)]
    {
      if run in accounts { return; }
      accounts := accounts[run := Opened(if config.Some? then config.value else default, OPENED)];
    }

    method ReserveFor(run: nat, r: Request, now: real) returns (d: Decision)
      modifies this
      ensures accounts == ServiceStep(default, old(accounts), run, Reserve(r, now))
      ensures d == old(var o := if run in accounts then accounts[run] else Opened(default, OPENED);
                       Decide(o.config, o.account, r, now))
    {
      if run !in accounts { accounts := accounts[run := Opened(default, OPENED)]; }
      var o := accounts[run];
      d := Decide(o.config, o.account, r, now);
      accounts := accounts[run := o.(account := Reserved(o.config, o.account, r, now))];
    }

    method SettleFor(run: nat, d: Decision, u: Usage)
      modifies this
      ensures accounts == ServiceStep(default, old(accounts), run, Settle(d, u))
    {
      if run !in accounts { return; }
      accounts := accounts[run := accounts[run].(account := Settled(accounts[run].account, d, u))];
    }

    method ReleaseFor(run: nat, d: Decision)
      modifies this
      ensures accounts == ServiceStep(default, old(accounts), run, Release(d))
    {
      if run !in accounts { return; }
      accounts := accounts[run := accounts[run].(account := Released(accounts[run].account, d))];
    }

    method CloseRun(run: nat)
      modifies this
      ensures accounts == ServiceStep(default, old(accounts), run, Close)
    {
      accounts := accounts - {run};
    }
  }

  function ServiceAfter(default: Config, accounts: map<nat, Opened>, es: seq<(nat, Event)>): map<nat, Opened>
    decreases |es|
  {
    if es == [] then accounts
    else ServiceAfter(default, ServiceStep(default, accounts, es[0].0, es[0].1), es[1..])
  }

  function EventsOf(es: seq<(nat, Event)>, run: nat): seq<Event> {
    if es == [] then [] else (if es[0].0 == run then [es[0].1] else []) + EventsOf(es[1..], run)
  }

  /** Calls for other runs might as well not have been made. */
  lemma {:induction false} RunsAreIsolated(default: Config, accounts: map<nat, Opened>, es: seq<(nat, Event)>, run: nat)
    requires run in accounts && Close !in EventsOf(es, run)
    ensures var m := ServiceAfter(default, accounts, es);
            run in m && m[run] == Opened(accounts[run].config,
                                         After(accounts[run].config, accounts[run].account, EventsOf(es, run)))
    decreases |es|
  {
    hide Step;
    if es != [] {
      var next := ServiceStep(default, accounts, es[0].0, es[0].1);
      var rest := EventsOf(es[1..], run);
      assert es[0].0 == run ==> EventsOf(es, run)[0] == es[0].1 && EventsOf(es, run)[1..] == rest;
      assert es[0].0 != run ==> EventsOf(es, run) == rest;
      RunsAreIsolated(default, next, es[1..], run);
    }
  }
}
