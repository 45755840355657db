/** The history a provider sees: the latest summary in place of what it summarizes. */
module Compaction {

  datatype Message = Message(id: nat, isSummary: bool, isSummarized: bool)

  predicate NotSummary(m: Message) { !m.isSummary }
  predicate NotSummarized(m: Message) { !m.isSummarized }
  predicate Summary(m: Message) { m.isSummary }

  /** Neither a summary nor summarized. */
  predicate Live(m: Message) { !m.isSummary && !m.isSummarized }

  /** A message that a summary has replaced. */
  predicate Replaced(m: Message) { m.isSummarized && !m.isSummary }

  function Filter(p: Message -> bool, ms: seq<Message>): seq<Message> {
    if ms == [] then [] else (if p(ms[0]) then [ms[0]] else []) + Filter(p, ms[1..])
  }

  function Lives(ms: seq<Message>): seq<Message> { Filter(Live, ms) }

  function IdsOf(ms: seq<Message>): set<nat> { if ms == [] then {} else {ms[0].id} + IdsOf(ms[1..]) }

  function Outside(ids: set<nat>, ms: seq<Message>): seq<Message> {
    if ms == [] then [] else (if ms[0].id !in ids then [ms[0]] else []) + Outside(ids, ms[1..])
  }

  /** Everything from position `i` on but the summaries other than the one at `latest`. */
  function OneSummary(ms: seq<Message>, latest: nat, i: nat): seq<Message>
    requires i <= |ms|
    decreases |ms| - i
  {
    if i == |ms| then []
    else (if !ms[i].isSummary || i == latest then [ms[i]] else []) + OneSummary(ms, latest, i + 1)
  }

  /** The index of the latest summary, or -1. */
  function LatestSummary(ms: seq<Message>): (i: int)
    ensures -1 <= i < |ms|
    ensures i >= 0 ==> ms[i].isSummary
    ensures forall k :: i < k < |ms| ==> !ms[k].isSummary
  {
    if ms == [] then -1
    else if ms[|ms| - 1].isSummary then |ms| - 1
    else LatestSummary(ms[..|ms| - 1])
  }

  /** The index of the first replaced message at or after `i`, or -1. */
  function FirstReplaced(ms: seq<Message>, i: nat): (f: int)
    requires i <= |ms|
    ensures f == -1 || i <= f < |ms|
    ensures f >= 0 ==> Replaced(ms[f])
    ensures forall k :: i <= k < (if f >= 0 then f else |ms|) ==> !Replaced(ms[k])
    decreases |ms| - i
  {
    if i == |ms| then -1 else if Replaced(ms[i]) then i else FirstReplaced(ms, i + 1)
  }

  /** The first replaced message before the latest summary, or -1. */
  function Boundary(ms: seq<Message>): (f: int)
    requires LatestSummary(ms) >= 0
    ensures -1 <= f < LatestSummary(ms)
    ensures f >= 0 ==> Replaced(ms[f])
    ensures forall k :: 0 <= k < (if f >= 0 then f else LatestSummary(ms)) ==> !Replaced(ms[k])
  {
    FirstReplaced(ms[..LatestSummary(ms)], 0)
  }

  function Compact(ms: seq<Message>): seq<Message> {
    var latest := LatestSummary(ms);
    if latest == -1 then Filter(NotSummarized, ms)
    else if Boundary(ms) == -1 then OneSummary(ms, latest, 0)
    else
      var head := Lives(ms[..Boundary(ms)]);
      head + [ms[latest]] + Outside(IdsOf(head), Lives(ms))
  }

  lemma {:induction false} LatestStep(ms: seq<Message>, i: nat)
    requires i < |ms|
    ensures LatestSummary(ms[..i + 1]) == if ms[i].isSummary then i else LatestSummary(ms[..i])
  {
  }

  /** The search from the back. */
  method FindLatestSummary(ms: seq<Message>) returns (latest: int)
    ensures latest == LatestSummary(ms)
  {
    hide LatestSummary;
    latest := -1;
    assert ms[..|ms|] == ms;
    for i := |ms| downto 0
      invariant latest == -1
      invariant LatestSummary(ms) == LatestSummary(ms[..i])
    {
      LatestStep(ms, i);
      if ms[i].isSummary { return i; }
    }
    assert LatestSummary(ms[..0]) == -1;
  }

  /** The search from the front. */
  method FindFirstReplaced(ms: seq<Message>) returns (first: int)
    ensures first == FirstReplaced(ms, 0)
  {
    first := -1;
    for i := 0 to |ms|
      invariant first == -1
      invariant FirstReplaced(ms, 0) == FirstReplaced(ms, i)
    {
      if Replaced(ms[i]) { return i; }
    }
  }

  method BuildLatestContext(ms: seq<Message>) returns (out: seq<Message>)
    ensures out == Compact(ms)
  {
    hide Filter, Outside, IdsOf, OneSummary, LatestSummary, FirstReplaced;
    var latest := FindLatestSummary(ms);
    if latest == -1 { return Filter(NotSummarized, ms); }
    var first := FindFirstReplaced(ms[..latest]);
    if first == -1 { return OneSummary(ms, latest, 0); }
    var head := Lives(ms[..first]);
    return head + [ms[latest]] + Outside(IdsOf(head), Lives(ms));
  }

  // ---------------------------------------------------------------------------------------------
  // Filters
  // ---------------------------------------------------------------------------------------------

  lemma {:induction false} FilterAppend(p: Message -> bool, a: seq<Message>, b: seq<Message>)
    ensures Filter(p, a + b) == Filter(p, a) + Filter(p, b)
  {
    if a == [] {
      assert a + b == b;
    } else {
      assert (a + b)[1..] == a[1..] + b;
      FilterAppend(p, a[1..], b);
    }
  }

  lemma {:induction false} FilterFilter(p: Message -> bool, q: Message -> bool, ms: seq<Message>)
    requires forall m :: p(m) ==> q(m)
    ensures Filter(p, Filter(q, ms)) == Filter(p, ms)
  {
    if ms != [] {
      FilterFilter(p, q, ms[1..]);
      var rest := Filter(q, ms[1..]);
      if q(ms[0]) {
        assert ([ms[0]] + rest)[1..] == rest;
      } else {
        assert [] + rest == rest;
      }
    }
  }

  lemma {:induction false} FilterNone(p: Message -> bool, ms: seq<Message>)
    requires forall i :: 0 <= i < |ms| ==> !p(ms[i])
    ensures Filter(p, ms) == []
  {
    if ms != [] { FilterNone(p, ms[1..]); }
  }

  lemma {:induction false} FilterAll(p: Message -> bool, ms: seq<Message>)
    requires forall i :: 0 <= i < |ms| ==> p(ms[i])
    ensures Filter(p, ms) == ms
  {
    if ms != [] { FilterAll(p, ms[1..]); }
  }

  lemma {:induction false} FilterHas(p: Message -> bool, ms: seq<Message>, m: Message)
    ensures m in Filter(p, ms) <==> m in ms && p(m)
  {
    if ms != [] { FilterHas(p, ms[1..], m); }
  }

  lemma {:induction false} FilterOne(p: Message -> bool, m: Message)
    ensures Filter(p, [m]) == if p(m) then [m] else []
  {
  }

  lemma {:induction false} OutsideAppend(ids: set<nat>, a: seq<Message>, b: seq<Message>)
    ensures Outside(ids, a + b) == Outside(ids, a) + Outside(ids, b)
  {
    if a == [] {
      assert a + b == b;
    } else {
      assert (a + b)[1..] == a[1..] + b;
      OutsideAppend(ids, a[1..], b);
    }
  }

  lemma {:induction false} OutsideOwn(ids: set<nat>, ms: seq<Message>)
    requires IdsOf(ms) <= ids
    ensures Outside(ids, ms) == []
  {
    if ms != [] { OutsideOwn(ids, ms[1..]); }
  }

  /** Dropping the messages with some ids drops none exactly when none has such an id. */
  lemma {:induction false} OutsideAll(ids: set<nat>, ms: seq<Message>)
    ensures |Outside(ids, ms)| <= |ms|
    ensures Outside(ids, ms) == ms <==> ids !! IdsOf(ms)
    ensures ids !! IdsOf(ms) <==> |Outside(ids, ms)| == |ms|
  {
    if ms != [] {
      OutsideAll(ids, ms[1..]);
      if ms[0].id !in ids { assert ([ms[0]] + Outside(ids, ms[1..]))[1..] == Outside(ids, ms[1..]); }
    }
  }

  lemma {:induction false} OutsideLives(ids: set<nat>, ms: seq<Message>)
    requires forall i :: 0 <= i < |ms| ==> Live(ms[i])
    ensures forall i :: 0 <= i < |Outside(ids, ms)| ==> Live(Outside(ids, ms)[i])
  {
    if ms != [] { OutsideLives(ids, ms[1..]); }
  }

  lemma {:induction false} LivesAreLive(ms: seq<Message>)
    ensures forall i :: 0 <= i < |Lives(ms)| ==> Live(Lives(ms)[i])
  {
    forall i | 0 <= i < |Lives(ms)| ensures Live(Lives(ms)[i]) { FilterHas(Live, ms, Lives(ms)[i]); }
  }

  /** After the latest summary there is no other: the comprehension is one filter on each side of it. */
  lemma {:induction false} OneSummaryBefore(ms: seq<Message>, latest: nat, i: nat)
    requires i <= latest < |ms| && latest == LatestSummary(ms)
    ensures OneSummary(ms, latest, i) == Filter(NotSummary, ms[i..latest]) + [ms[latest]] + ms[latest + 1..]
    decreases latest - i
  {
    if i < latest {
      OneSummaryBefore(ms, latest, i + 1);
      assert ms[i..latest][1..] == ms[i + 1..latest];
    } else {
      OneSummaryAfter(ms, latest, i + 1);
    }
  }

  lemma {:induction false} OneSummaryAfter(ms: seq<Message>, latest: nat, i: nat)
    requires latest < i <= |ms| && latest == LatestSummary(ms)
    ensures OneSummary(ms, latest, i) == ms[i..]
    decreases |ms| - i
  {
    if i < |ms| { OneSummaryAfter(ms, latest, i + 1); }
  }

  // ---------------------------------------------------------------------------------------------
  // The laws
  // ---------------------------------------------------------------------------------------------

  /** A live message behind the boundary shares its id with one in front of it. */
  ghost predicate Clash(ms: seq<Message>) {
    LatestSummary(ms) >= 0 && Boundary(ms) >= 0
    && !(IdsOf(Lives(ms[..Boundary(ms)])) !! IdsOf(Lives(ms[Boundary(ms)..])))
  }

  ghost predicate UniqueIds(ms: seq<Message>) { forall i, j :: 0 <= i < j < |ms| ==> ms[i].id != ms[j].id }

  lemma {:induction false} IdsOfHas(ms: seq<Message>, id: nat)
    ensures id in IdsOf(ms) <==> exists i :: 0 <= i < |ms| && ms[i].id == id
  {
    if ms != [] {
      IdsOfHas(ms[1..], id);
      if id in IdsOf(ms[1..]) {
        var i :| 0 <= i < |ms| - 1 && ms[1..][i].id == id;
        assert ms[i + 1].id == id;
      }
      if i :| 0 < i < |ms| && ms[i].id == id { assert ms[1..][i - 1].id == id; }
    }
  }

  lemma {:induction false} LivesIds(ms: seq<Message>, id: nat)
    requires id in IdsOf(Lives(ms))
    ensures exists i :: 0 <= i < |ms| && ms[i].id == id
  {
    IdsOfHas(Lives(ms), id);
    var k :| 0 <= k < |Lives(ms)| && Lives(ms)[k].id == id;
    FilterHas(Live, ms, Lives(ms)[k]);
    var i :| 0 <= i < |ms| && ms[i] == Lives(ms)[k];
  }

  lemma {:induction false} SameIdTwice(ms: seq<Message>, i: nat, j: nat)
    requires i < j < |ms| && ms[i].id == ms[j].id
    ensures !UniqueIds(ms)
  {
  }

  lemma {:induction false} UniqueIdsDoNotClash(ms: seq<Message>)
    requires UniqueIds(ms)
    ensures !Clash(ms)
  {
    if Clash(ms) {
      ClashIsSameIds(ms);
      assert false;
    }
  }

  lemma {:induction false} ClashIsSameIds(ms: seq<Message>)
    requires Clash(ms)
    ensures !UniqueIds(ms)
  {
    hide LatestSummary, IdsOf, Filter;
    var f := Boundary(ms);
    var id :| id in IdsOf(Lives(ms[..f])) && id in IdsOf(Lives(ms[f..]));
    LivesIds(ms[..f], id);
    LivesIds(ms[f..], id);
    var i :| 0 <= i < |ms[..f]| && ms[..f][i].id == id;
    var j :| 0 <= j < |ms[f..]| && ms[f..][j].id == id;
    SameIdTwice(ms, i, f + j);
  }

  lemma {:induction false} OutsideHead(ms: seq<Message>, f: nat)
    requires f <= |ms|
    ensures var head := Lives(ms[..f]); Outside(IdsOf(head), Lives(ms)) == Outside(IdsOf(head), Lives(ms[f..]))
  {
    hide Filter, Outside, IdsOf;
    var head, tail := Lives(ms[..f]), Lives(ms[f..]);
    assert ms == ms[..f] + ms[f..];
    FilterAppend(Live, ms[..f], ms[f..]);
    OutsideAppend(IdsOf(head), head, tail);
    OutsideOwn(IdsOf(head), head);
    assert [] + Outside(IdsOf(head), tail) == Outside(IdsOf(head), tail);
  }

  lemma {:induction false} HeadAndTail(ms: seq<Message>)
    requires LatestSummary(ms) >= 0 && Boundary(ms) >= 0
    ensures var f := Boundary(ms);
            Compact(ms) == Lives(ms[..f]) + [ms[LatestSummary(ms)]] + Outside(IdsOf(Lives(ms[..f])), Lives(ms[f..]))
  {
    hide Filter, Outside, IdsOf, Lives, Boundary, LatestSummary;
    OutsideHead(ms, Boundary(ms));
  }

  /**
   * If a replaced message precedes the latest summary and no ids clash, the summary stands right
   * after the live messages before the first replaced one, the other live messages follow it, and
   * nothing else is there.
   */
  lemma {:induction false} CompactStandsInPlace(ms: seq<Message>)
    requires LatestSummary(ms) >= 0 && Boundary(ms) >= 0 && !Clash(ms)
    ensures var f := Boundary(ms);
            Compact(ms) == Lives(ms[..f]) + [ms[LatestSummary(ms)]] + Lives(ms[f..])
  {
    HeadAndTail(ms);
    OutsideAll(IdsOf(Lives(ms[..Boundary(ms)])), Lives(ms[Boundary(ms)..]));
  }

  lemma {:induction false} LivesAround(head: seq<Message>, summary: Message, tail: seq<Message>)
    requires summary.isSummary
    requires (forall i :: 0 <= i < |head| ==> Live(head[i])) && forall i :: 0 <= i < |tail| ==> Live(tail[i])
    ensures Lives(head + [summary] + tail) == head + tail
  {
    hide Filter;
    AroundSummary(Live, head, summary, tail);
    FilterAll(Live, head);
    FilterAll(Live, tail);
    assert head + [] + tail == head + tail;
  }

  lemma {:induction false} LivesOfCompact(ms: seq<Message>)
    requires LatestSummary(ms) >= 0 && Boundary(ms) >= 0
    ensures var f := Boundary(ms);
            Lives(Compact(ms)) == Lives(ms[..f]) + Outside(IdsOf(Lives(ms[..f])), Lives(ms[f..]))
  {
    hide Outside, IdsOf, Lives, Boundary, LatestSummary, Compact, Live;
    HeadAndTail(ms);
    var f := Boundary(ms);
    LivesAreLive(ms[..f]);
    LivesAreLive(ms[f..]);
    var head, tail := Lives(ms[..f]), Outside(IdsOf(Lives(ms[..f])), Lives(ms[f..]));
    OutsideLives(IdsOf(head), Lives(ms[f..]));
    LivesAround(head, ms[LatestSummary(ms)], tail);
  }

  lemma {:induction false} LivesWithoutBoundary(ms: seq<Message>)
    requires LatestSummary(ms) == -1 || Boundary(ms) == -1
    ensures Lives(Compact(ms)) == Lives(ms)
  {
    var latest := LatestSummary(ms);
    if latest == -1 {
      FilterFilter(Live, NotSummarized, ms);
    } else {
      OneSummaryBefore(ms, latest, 0);
      assert ms[0..latest] == ms[..latest];
      var a, m, b := ms[..latest], ms[latest], ms[latest + 1..];
      assert ms == a + [m] + b;
      FilterAppend(Live, a + [m], b);
      FilterAppend(Live, a, [m]);
      FilterAppend(Live, Filter(NotSummary, a) + [m], b);
      FilterAppend(Live, Filter(NotSummary, a), [m]);
      FilterFilter(Live, NotSummary, a);
    }
  }

  /** Every live message comes out once and in order, exactly when no ids clash. */
  lemma {:induction false} CompactKeepsLives(ms: seq<Message>)
    ensures Lives(Compact(ms)) == Lives(ms) <==> !Clash(ms)
  {
    hide LatestSummary, Boundary, Compact, Filter, Outside, IdsOf, Lives;
    if LatestSummary(ms) == -1 || Boundary(ms) == -1 {
      LivesWithoutBoundary(ms);
    } else {
      LivesOfCompact(ms);
      LivesSplit(ms, Boundary(ms));
    }
  }

  /** Dropping from the rest what shares an id with the head drops nothing exactly when nothing does. */
  lemma {:induction false} LivesSplit(ms: seq<Message>, f: nat)
    requires f <= |ms|
    ensures var head, tail := Lives(ms[..f]), Lives(ms[f..]);
            head + Outside(IdsOf(head), tail) == Lives(ms) <==> IdsOf(head) !! IdsOf(tail)
  {
    hide Filter, Outside, IdsOf;
    var head, tail := Lives(ms[..f]), Lives(ms[f..]);
    assert ms == ms[..f] + ms[f..];
    FilterAppend(Live, ms[..f], ms[f..]);
    OutsideAll(IdsOf(head), tail);
    assert head + Outside(IdsOf(head), tail) == head + tail ==> |Outside(IdsOf(head), tail)| == |tail|;
  }

  lemma {:induction false} NoSummaries(ms: seq<Message>)
    requires forall i :: 0 <= i < |ms| ==> Live(ms[i])
    ensures Filter(Summary, ms) == [] && Filter(Replaced, ms) == []
  {
    FilterNone(Summary, ms);
    FilterNone(Replaced, ms);
  }

  /** What is in the output besides live messages. */
  lemma {:induction false} OthersOfCompact(ms: seq<Message>)
    ensures Filter(Summary, Compact(ms)) == if LatestSummary(ms) >= 0 then [ms[LatestSummary(ms)]] else []
    ensures Filter(Replaced, Compact(ms))
            == if LatestSummary(ms) >= 0 && Boundary(ms) == -1 then Filter(Replaced, ms[LatestSummary(ms) + 1..])
               else []
  {
    var latest := LatestSummary(ms);
    if latest == -1 {
      OthersWithoutSummary(ms);
    } else if Boundary(ms) == -1 {
      OthersWithoutBoundary(ms);
    } else {
      HeadAndTail(ms);
      var f := Boundary(ms);
      var head, tail := Lives(ms[..f]), Outside(IdsOf(Lives(ms[..f])), Lives(ms[f..]));
      LivesAreLive(ms[..f]);
      LivesAreLive(ms[f..]);
      OutsideLives(IdsOf(head), Lives(ms[f..]));
      NoSummaries(head);
      NoSummaries(tail);
      AroundSummary(Summary, head, ms[latest], tail);
      AroundSummary(Replaced, head, ms[latest], tail);
    }
  }

  lemma {:induction false} AroundSummary(p: Message -> bool, a: seq<Message>, m: Message, b: seq<Message>)
    ensures Filter(p, a + [m] + b) == Filter(p, a) + (if p(m) then [m] else []) + Filter(p, b)
  {
    FilterAppend(p, a + [m], b);
    FilterAppend(p, a, [m]);
    FilterOne(p, m);
  }

  lemma {:induction false} OthersWithoutSummary(ms: seq<Message>)
    requires LatestSummary(ms) == -1
    ensures Filter(Summary, Compact(ms)) == [] && Filter(Replaced, Compact(ms)) == []
  {
    var out := Filter(NotSummarized, ms);
    forall i | 0 <= i < |out| ensures Live(out[i]) {
      FilterHas(NotSummarized, ms, out[i]);
      var k :| 0 <= k < |ms| && ms[k] == out[i];
    }
    NoSummaries(out);
  }

  lemma {:induction false} LivesBefore(ms: seq<Message>)
    requires LatestSummary(ms) >= 0 && Boundary(ms) == -1
    ensures var a := Filter(NotSummary, ms[..LatestSummary(ms)]); forall i :: 0 <= i < |a| ==> Live(a[i])
  {
    hide Filter, FirstReplaced;
    var latest := LatestSummary(ms);
    var a := Filter(NotSummary, ms[..latest]);
    forall i | 0 <= i < |a| ensures Live(a[i]) {
      FilterHas(NotSummary, ms[..latest], a[i]);
      var k :| 0 <= k < latest && ms[..latest][k] == a[i];
      assert !Replaced(ms[k]);
    }
  }

  lemma {:induction false} NoSummaryAfter(ms: seq<Message>)
    requires LatestSummary(ms) >= 0
    ensures Filter(Summary, ms[LatestSummary(ms) + 1..]) == []
  {
    hide Filter;
    FilterNone(Summary, ms[LatestSummary(ms) + 1..]);
  }

  lemma {:induction false} OthersWithoutBoundary(ms: seq<Message>)
    requires LatestSummary(ms) >= 0 && Boundary(ms) == -1
    ensures Filter(Summary, Compact(ms)) == [ms[LatestSummary(ms)]]
    ensures Filter(Replaced, Compact(ms)) == Filter(Replaced, ms[LatestSummary(ms) + 1..])
  {
    hide Filter, FirstReplaced, LatestSummary, OneSummary, Boundary;
    var latest := LatestSummary(ms);
    OneSummaryBefore(ms, latest, 0);
    assert ms[0..latest] == ms[..latest];
    var a, b := Filter(NotSummary, ms[..latest]), ms[latest + 1..];
    LivesBefore(ms);
    NoSummaries(a);
    NoSummaryAfter(ms);
    AroundSummary(Summary, a, ms[latest], b);
    AroundSummary(Replaced, a, ms[latest], b);
    assert [] + [ms[latest]] + [] == [ms[latest]];
    assert [] + [] + Filter(Replaced, b) == Filter(Replaced, b);
  }

  lemma {:induction false} FilterFinds(p: Message -> bool, ms: seq<Message>)
    ensures Filter(p, ms) == [] <==> forall m :: m in ms ==> !p(m)
  {
    if ms != [] { FilterFinds(p, ms[1..]); }
  }

  ghost predicate ReplacedFrom(ms: seq<Message>, i: nat) { exists k :: i <= k < |ms| && Replaced(ms[k]) }

  lemma {:induction false} ReplacedAfter(ms: seq<Message>, i: nat)
    requires i <= |ms|
    ensures Filter(Replaced, ms[i..]) != [] <==> ReplacedFrom(ms, i)
  {
    hide Filter, Replaced;
    FilterFinds(Replaced, ms[i..]);
    if m :| m in ms[i..] && Replaced(m) {
      var k :| 0 <= k < |ms[i..]| && ms[i..][k] == m;
      assert ms[i + k] == m;
    }
    if k :| i <= k < |ms| && Replaced(ms[k]) { assert ms[i..][k - i] == ms[k]; }
  }

  /**
   * The output holds exactly the latest summary, if there is one, and a replaced message is left in
   * it exactly when none precedes that summary and one follows it.
   */
  lemma {:induction false} CompactReplaces(ms: seq<Message>)
    ensures Filter(Summary, Compact(ms)) == if LatestSummary(ms) >= 0 then [ms[LatestSummary(ms)]] else []
    ensures (exists m :: m in Compact(ms) && Replaced(m))
            <==> LatestSummary(ms) >= 0 && Boundary(ms) == -1 && ReplacedFrom(ms, LatestSummary(ms) + 1)
  {
    hide Filter, Boundary, LatestSummary, Compact, Replaced, ReplacedFrom;
    OthersOfCompact(ms);
    FilterFinds(Replaced, Compact(ms));
    if LatestSummary(ms) >= 0 { ReplacedAfter(ms, LatestSummary(ms) + 1); }
  }
}
