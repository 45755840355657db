/** Claiming pending delegation members: a fair interleave of queues. */
module RoundRobin {

  datatype Member = Member(delegation: nat, id: nat)

  /** An item of the dict of lists: a delegation and its members still to be claimed. */
  datatype Queue = Queue(key: nat, members: seq<Member>)

  predicate Good(q: Queue) {
    q.members != [] && forall i :: 0 <= i < |q.members| ==> q.members[i].delegation == q.key
  }

  predicate HasKey(qs: seq<Queue>, d: nat) { qs != [] && (qs[0].key == d || HasKey(qs[1..], d)) }

  /** No key twice, no queue empty, every member in its delegation's queue. */
  predicate Valid(qs: seq<Queue>) {
    qs != [] ==> Good(qs[0]) && !HasKey(qs[1..], qs[0].key) && Valid(qs[1..])
  }

  /** The members of one delegation, in order. */
  function Of(ms: seq<Member>, d: nat): seq<Member> {
    if ms == [] then [] else OneOf(ms[0], d) + Of(ms[1..], d)
  }

  function OneOf(m: Member, d: nat): seq<Member> { if m.delegation == d then [m] else [] }

  function QueueOf(qs: seq<Queue>, d: nat): seq<Member> {
    if qs == [] then [] else if qs[0].key == d then qs[0].members else QueueOf(qs[1..], d)
  }

  /** `setdefault(…, []).append(m)` */
  function Enqueue(qs: seq<Queue>, m: Member): seq<Queue> {
    if qs == [] then [Queue(m.delegation, [m])]
    else if qs[0].key == m.delegation then [Queue(qs[0].key, qs[0].members + [m])] + qs[1..]
    else [qs[0]] + Enqueue(qs[1..], m)
  }

  function Grouped(pending: seq<Member>): seq<Queue> {
    if pending == [] then [] else Enqueue(Grouped(pending[..|pending| - 1]), pending[|pending| - 1])
  }

  /** The members that a pass over the keys takes. */
  function Heads(qs: seq<Queue>): seq<Member> {
    if qs == [] then [] else qs[0].members[..Least(1, |qs[0].members|)] + Heads(qs[1..])
  }

  function Least(a: nat, b: nat): nat { if a <= b then a else b }

  /** What it leaves of one queue; an emptied queue is deleted. */
  function Left(q: Queue): seq<Queue> { if |q.members| > 1 then [Queue(q.key, q.members[1..])] else [] }

  function Tails(qs: seq<Queue>): seq<Queue> { if qs == [] then [] else Left(qs[0]) + Tails(qs[1..]) }

  function Total(qs: seq<Queue>): nat { if qs == [] then 0 else |qs[0].members| + 1 + Total(qs[1..]) }

  lemma {:induction false} RoundShrinks(qs: seq<Queue>)
    ensures Total(Tails(qs)) + |qs| <= Total(qs)
  {
    if qs != [] {
      RoundShrinks(qs[1..]);
      if |qs[0].members| > 1 {
        var q := Queue(qs[0].key, qs[0].members[1..]);
        assert ([q] + Tails(qs[1..]))[1..] == Tails(qs[1..]);
      } else {
        assert [] + Tails(qs[1..]) == Tails(qs[1..]);
      }
    }
  }

  /** Round after round, one member of every delegation that has any left. */
  function Interleave(qs: seq<Queue>): seq<Member>
    decreases Total(qs)
  {
    if qs == [] then [] else
      RoundShrinks(qs);
      Heads(qs) + Interleave(Tails(qs))
  }

  // ---------------------------------------------------------------------------------------------
  // The loop
  // ---------------------------------------------------------------------------------------------

  /** Where a delegation's queue stands in the dict. */
  function Lookup(qs: seq<Queue>, d: nat): (i: nat)
    requires HasKey(qs, d)
    ensures i < |qs| && qs[i].key == d
  {
    if qs[0].key == d then 0 else 1 + Lookup(qs[1..], d)
  }

  lemma {:induction false} TailsAppend(a: seq<Queue>, b: seq<Queue>)
    ensures Tails(a + b) == Tails(a) + Tails(b) && Heads(a + b) == Heads(a) + Heads(b)
  {
    hide Left, Least;
    if a == [] {
      assert a + b == b;
    } else {
      assert (a + b)[1..] == a[1..] + b;
      TailsAppend(a[1..], b);
    }
  }

  lemma {:induction false} HasKeyAppend(a: seq<Queue>, b: seq<Queue>, d: nat)
    ensures HasKey(a + b, d) <==> HasKey(a, d) || HasKey(b, d)
  {
    if a == [] {
      assert a + b == b;
    } else {
      assert (a + b)[1..] == a[1..] + b;
      HasKeyAppend(a[1..], b, d);
    }
  }

  lemma {:induction false} TailsKeys(qs: seq<Queue>, d: nat)
    requires HasKey(Tails(qs), d)
    ensures HasKey(qs, d)
  {
    if qs != [] && qs[0].key != d {
      HasKeyAppend(Left(qs[0]), Tails(qs[1..]), d);
      TailsKeys(qs[1..], d);
    }
  }

  /** A key not among those in front is found right behind them. */
  lemma {:induction false} LookupAfter(a: seq<Queue>, q: Queue, b: seq<Queue>)
    requires !HasKey(a, q.key)
    ensures HasKey(a + [q] + b, q.key) && Lookup(a + [q] + b, q.key) == |a|
  {
    var all := a + [q] + b;
    if a == [] {
      assert all[0] == q;
    } else {
      assert all[1..] == a[1..] + [q] + b;
      LookupAfter(a[1..], q, b);
    }
  }

  /** In a valid dict, a key does not occur in front of itself. */
  lemma {:induction false} KeysApart(qs: seq<Queue>, i: nat)
    requires Valid(qs) && i < |qs|
    ensures !HasKey(qs[..i], qs[i].key) && Good(qs[i])
  {
    if i > 0 {
      assert qs[..i][1..] == qs[1..][..i - 1];
      KeysApart(qs[1..], i - 1);
      KeyAt(qs[1..], i - 1);
    }
  }

  lemma {:induction false} KeyAt(qs: seq<Queue>, i: nat)
    requires i < |qs|
    ensures HasKey(qs, qs[i].key)
  {
    if i > 0 { KeyAt(qs[1..], i - 1); }
  }

  method Group(pending: seq<Member>) returns (qs: seq<Queue>)
    ensures qs == Grouped(pending)
  {
    qs := [];
    for i := 0 to |pending|
      invariant qs == Grouped(pending[..i])
    {
      assert pending[..i + 1][..i] == pending[..i];
      qs := Enqueue(qs, pending[i]);
    }
    assert pending[..|pending|] == pending;
  }

  lemma {:induction false} OneRound(q: Queue)
    requires q.members != []
    ensures Heads([q]) == [q.members[0]] && Tails([q]) == Left(q)
  {
    assert Heads([q][1..]) == [] && Tails([q][1..]) == [];
  }

  /** Pop the head of one delegation's queue, and delete the queue once it is empty. */
  method Pop(qs: seq<Queue>, d: nat) returns (m: Member, left: seq<Queue>)
    requires HasKey(qs, d) && qs[Lookup(qs, d)].members != []
    ensures var at := Lookup(qs, d);
            m == qs[at].members[0] && left == qs[..at] + Left(qs[at]) + qs[at + 1..]
  {
    hide HasKey;
    var at := Lookup(qs, d);
    var group := qs[at].members;
    m := group[0];
    if group[1..] == [] {
      left := qs[..at] + qs[at + 1..];
    } else {
      left := qs[at := Queue(d, group[1..])];
    }
  }

  lemma {:induction false} Parts(a: seq<Queue>, q: Queue, b: seq<Queue>)
    ensures var all := a + [q] + b;
            all[..|a|] == a && all[|a|] == q && all[|a| + 1..] == b
  {
  }

  /** One pass over the keys. */
  method Round(qs: seq<Queue>, sofar: seq<Member>) returns (left: seq<Queue>, out: seq<Member>)
    requires Valid(qs)
    ensures left == Tails(qs) && out == sofar + Heads(qs)
  {
    hide Heads, Tails, Valid, HasKey, Good, Left, Lookup;
    left, out := qs, sofar;
    NoQueues();
    assert qs[..0] == [];
    for i := 0 to |qs|
      invariant left == Tails(qs[..i]) + qs[i..]
      invariant out == sofar + Heads(qs[..i])
    {
      ghost var a := Tails(qs[..i]);
      RoundSoFar(qs, i);
      assert left == a + [qs[i]] + qs[i + 1..];
      Found(qs, i);
      Parts(a, qs[i], qs[i + 1..]);
      var m;
      m, left := Pop(left, qs[i].key);
      out := out + [m];
    }
    assert qs[..|qs|] == qs;
  }

  lemma {:induction false} RoundSoFar(qs: seq<Queue>, i: nat)
    requires Valid(qs) && i < |qs|
    ensures Tails(qs[..i + 1]) == Tails(qs[..i]) + Left(qs[i])
    ensures qs[i].members != [] && Heads(qs[..i + 1]) == Heads(qs[..i]) + [qs[i].members[0]]
  {
    hide Heads, Tails, HasKey, Left;
    KeysApart(qs, i);
    OneRound(qs[i]);
    TailsAppend(qs[..i], [qs[i]]);
    assert qs[..i + 1] == qs[..i] + [qs[i]];
  }

  lemma {:induction false} NoQueues()
    ensures Tails([]) == [] && Heads([]) == []
  {
  }

  lemma {:induction false} Found(qs: seq<Queue>, i: nat)
    requires Valid(qs) && i < |qs|
    ensures qs[i].members != []
    ensures var left := Tails(qs[..i]) + [qs[i]] + qs[i + 1..];
            HasKey(left, qs[i].key) && Lookup(left, qs[i].key) == |Tails(qs[..i])|
  {
    hide Tails, Valid, HasKey, Lookup;
    KeysApart(qs, i);
    if HasKey(Tails(qs[..i]), qs[i].key) { TailsKeys(qs[..i], qs[i].key); }
    LookupAfter(Tails(qs[..i]), qs[i], qs[i + 1..]);
  }

  lemma {:induction false} TailsValid(qs: seq<Queue>)
    requires Valid(qs)
    ensures Valid(Tails(qs))
  {
    if qs != [] {
      TailsValid(qs[1..]);
      if |qs[0].members| > 1 {
        var q := Queue(qs[0].key, qs[0].members[1..]);
        assert forall i :: 0 <= i < |q.members| ==> q.members[i] == qs[0].members[i + 1];
        assert Good(q);
        if HasKey(Tails(qs[1..]), q.key) { TailsKeys(qs[1..], q.key); }
        assert ([q] + Tails(qs[1..]))[1..] == Tails(qs[1..]);
      } else {
        assert [] + Tails(qs[1..]) == Tails(qs[1..]);
      }
    }
  }

  lemma {:induction false} EnqueueValid(qs: seq<Queue>, m: Member)
    requires Valid(qs)
    ensures Valid(Enqueue(qs, m))
    ensures forall d :: HasKey(Enqueue(qs, m), d) ==> HasKey(qs, d) || d == m.delegation
  {
    if qs == [] {
    } else if qs[0].key == m.delegation {
      assert ([Queue(qs[0].key, qs[0].members + [m])] + qs[1..])[1..] == qs[1..];
    } else {
      EnqueueValid(qs[1..], m);
      assert ([qs[0]] + Enqueue(qs[1..], m))[1..] == Enqueue(qs[1..], m);
    }
  }

  lemma {:induction false} GroupedValid(pending: seq<Member>)
    ensures Valid(Grouped(pending))
  {
    hide Valid, Enqueue;
    if pending == [] {
      assert Valid([]) by { NothingValid(); }
    } else {
      GroupedValid(pending[..|pending| - 1]);
      EnqueueValid(Grouped(pending[..|pending| - 1]), pending[|pending| - 1]);
    }
  }

  lemma {:induction false} NothingValid()
    ensures Valid([])
  {
  }

  method ClaimOrder(pending: seq<Member>) returns (interleaved: seq<Member>)
    ensures interleaved == Interleave(Grouped(pending))
  {
    hide Valid, Heads, Tails, Grouped, Total, Interleave;
    var qs := Group(pending);
    GroupedValid(pending);
    interleaved := [];
    while qs != []
      invariant Valid(qs)
      invariant interleaved + Interleave(qs) == Interleave(Grouped(pending))
      decreases Total(qs)
    {
      RoundShrinks(qs);
      TailsValid(qs);
      InterleaveStep(qs);
      qs, interleaved := Round(qs, interleaved);
    }
    InterleaveStep(qs);
  }

  lemma {:induction false} InterleaveStep(qs: seq<Queue>)
    ensures Interleave(qs) == if qs == [] then [] else Heads(qs) + Interleave(Tails(qs))
  {
  }

  // ---------------------------------------------------------------------------------------------
  // Permutation, order and fairness
  // ---------------------------------------------------------------------------------------------

  lemma {:induction false} OfAppend(a: seq<Member>, b: seq<Member>, d: nat)
    ensures Of(a + b, d) == Of(a, d) + Of(b, d)
  {
    hide OneOf;
    if a == [] {
      assert a + b == b;
    } else {
      assert (a + b)[1..] == a[1..] + b;
      OfAppend(a[1..], b, d);
    }
  }

  lemma {:induction false} OfOne(m: Member, d: nat)
    ensures Of([m], d) == OneOf(m, d)
  {
    hide OneOf;
    assert Of([m][1..], d) == [];
  }

  lemma {:induction false} NotQueued(qs: seq<Queue>, d: nat)
    requires Valid(qs) && !HasKey(qs, d)
    ensures QueueOf(qs, d) == [] && Of(Heads(qs), d) == [] && !HasKey(Tails(qs), d) && QueueOf(Tails(qs), d) == []
  {
    if HasKey(Tails(qs), d) { TailsKeys(qs, d); }
    NoKey(Tails(qs), d);
    if qs != [] {
      NotQueued(qs[1..], d);
      HeadsCons(qs);
      hide Heads, Tails;
      OfAppend([qs[0].members[0]], Heads(qs[1..]), d);
      OfOne(qs[0].members[0], d);
    }
  }

  lemma {:induction false} NoKey(qs: seq<Queue>, d: nat)
    requires !HasKey(qs, d)
    ensures QueueOf(qs, d) == []
  {
    if qs != [] { NoKey(qs[1..], d); }
  }

  lemma {:induction false} HeadsCons(qs: seq<Queue>)
    requires Valid(qs) && qs != []
    ensures Heads(qs) == [qs[0].members[0]] + Heads(qs[1..])
  {
  }

  lemma {:induction false} QueueOfLeft(q: Queue, rest: seq<Queue>, d: nat)
    requires q.members != []
    ensures QueueOf(Left(q) + rest, d) == if q.key == d && |q.members| > 1 then q.members[1..] else QueueOf(rest, d)
  {
    if |q.members| > 1 {
      assert (Left(q) + rest)[1..] == rest;
    } else {
      assert Left(q) + rest == rest;
    }
  }

  /** A round takes the head of every queue and leaves its tail. */
  lemma {:induction false} RoundOf(qs: seq<Queue>, d: nat)
    requires Valid(qs)
    ensures QueueOf(qs, d) == Of(Heads(qs), d) + QueueOf(Tails(qs), d)
    ensures |Of(Heads(qs), d)| == if QueueOf(qs, d) == [] then 0 else 1
  {
    if qs != [] {
      var q, rest := qs[0], qs[1..];
      HeadsCons(qs);
      QueueOfLeft(q, Tails(rest), d);
      assert Tails(qs) == Left(q) + Tails(rest);
      hide Heads, Tails, HasKey, Left;
      OfAppend([q.members[0]], Heads(rest), d);
      OfOne(q.members[0], d);
      if q.key == d {
        NotQueued(rest, d);
        assert q.members == [q.members[0]] + q.members[1..];
      } else {
        RoundOf(rest, d);
      }
    }
  }

  lemma {:induction false} InterleaveOf(qs: seq<Queue>, d: nat)
    requires Valid(qs)
    ensures Of(Interleave(qs), d) == QueueOf(qs, d)
    decreases Total(qs)
  {
    hide Valid, Heads, Tails, Total;
    if qs == [] {
      assert Of([], d) == [];
    } else {
      RoundShrinks(qs);
      TailsValid(qs);
      RoundOf(qs, d);
      hide QueueOf;
      InterleaveOf(Tails(qs), d);
      OfAppend(Heads(qs), Interleave(Tails(qs)), d);
    }
  }

  lemma {:induction false} EnqueueOf(qs: seq<Queue>, m: Member, d: nat)
    ensures QueueOf(Enqueue(qs, m), d) == QueueOf(qs, d) + OneOf(m, d)
  {
    if qs == [] {
    } else if qs[0].key == m.delegation {
      assert ([Queue(qs[0].key, qs[0].members + [m])] + qs[1..])[1..] == qs[1..];
    } else {
      assert ([qs[0]] + Enqueue(qs[1..], m))[1..] == Enqueue(qs[1..], m);
      EnqueueOf(qs[1..], m, d);
    }
  }

  lemma {:induction false} GroupedOf(pending: seq<Member>, d: nat)
    ensures QueueOf(Grouped(pending), d) == Of(pending, d)
  {
    if pending != [] {
      hide Enqueue, QueueOf, Of, OneOf;
      var init, m := pending[..|pending| - 1], pending[|pending| - 1];
      GroupedOf(init, d);
      EnqueueOf(Grouped(init), m, d);
      assert pending == init + [m];
      OfAppend(init, [m], d);
      OfOne(m, d);
    }
  }

  lemma {:induction false} OfCounts(ms: seq<Member>, m: Member)
    ensures multiset(Of(ms, m.delegation))[m] == multiset(ms)[m]
  {
    if ms != [] {
      OfCounts(ms[1..], m);
      assert ms == [ms[0]] + ms[1..];
      assert multiset(ms) == multiset([ms[0]]) + multiset(ms[1..]);
      var rest := Of(ms[1..], m.delegation);
      assert multiset(OneOf(ms[0], m.delegation) + rest) == multiset(OneOf(ms[0], m.delegation)) + multiset(rest);
    }
  }

  /** Nobody is lost or claimed twice, and every delegation keeps its own order. */
  lemma {:induction false} ClaimsEveryMember(pending: seq<Member>)
    ensures multiset(Interleave(Grouped(pending))) == multiset(pending)
    ensures forall d :: Of(Interleave(Grouped(pending)), d) == Of(pending, d)
  {
    hide Interleave, Grouped, Of, QueueOf, Valid;
    var qs, out := Grouped(pending), Interleave(Grouped(pending));
    GroupedValid(pending);
    forall d ensures Of(out, d) == Of(pending, d) {
      InterleaveOf(qs, d);
      GroupedOf(pending, d);
    }
    forall m ensures multiset(out)[m] == multiset(pending)[m] {
      OfCounts(out, m);
      OfCounts(pending, m);
    }
  }

  lemma {:induction false} PrefixOf(ms: seq<Member>, n: nat, d: nat)
    requires n <= |ms|
    ensures |Of(ms[..n], d)| <= |Of(ms, d)|
  {
    hide Of;
    assert ms == ms[..n] + ms[n..];
    OfAppend(ms[..n], ms[n..], d);
  }

  lemma {:induction false} FairPrefix(qs: seq<Queue>, n: nat, d: nat, e: nat)
    requires Valid(qs) && n <= |Interleave(qs)|
    requires |Of(Interleave(qs)[..n], e)| < |QueueOf(qs, e)|
    ensures |Of(Interleave(qs)[..n], d)| <= |Of(Interleave(qs)[..n], e)| + 1
    decreases Total(qs)
  {
    if qs != [] {
      hide Of, QueueOf, Heads, Tails, Valid, Total;
      RoundShrinks(qs);
      TailsValid(qs);
      RoundOf(qs, d);
      RoundOf(qs, e);
      var heads, rest := Heads(qs), Interleave(Tails(qs));
      if n <= |heads| {
        assert Interleave(qs)[..n] == heads[..n];
        PrefixOf(heads, n, d);
      } else {
        var m := n - |heads|;
        assert Interleave(qs)[..n] == heads + rest[..m];
        OfAppend(heads, rest[..m], d);
        OfAppend(heads, rest[..m], e);
        FairPrefix(Tails(qs), m, d, e);
      }
    }
  }

  /** While a delegation still has members waiting, no other has been claimed two more often. */
  lemma {:induction false} ClaimsFairly(pending: seq<Member>, n: nat, d: nat, e: nat)
    requires n <= |Interleave(Grouped(pending))|
    requires |Of(Interleave(Grouped(pending))[..n], e)| < |Of(pending, e)|
    ensures |Of(Interleave(Grouped(pending))[..n], d)| <= |Of(Interleave(Grouped(pending))[..n], e)| + 1
  {
    hide Interleave, Grouped, Of, QueueOf, Valid;
    GroupedValid(pending);
    GroupedOf(pending, e);
    FairPrefix(Grouped(pending), n, d, e);
  }
}
