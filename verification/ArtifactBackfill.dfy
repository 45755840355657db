/** The cursor-less backfill loops: when they end, what they count, what they leave. */
module ArtifactBackfill {

  /** What trying to fill a row comes to, for as long as the loop runs. */
  datatype Fate = Fixable | Skips | Fails

  /** A row in id order; `missing` is what puts it in the next batch. */
  datatype Row = Row(missing: bool, fate: Fate)

  /** The registry clamps every limit it is asked for. */
  function Clamp(limit: int): nat { if limit < 1 then 1 else if limit > 500 then 500 else limit }

  function Tried(r: Row): Row { if r.missing && r.fate.Fixable? then r.(missing := false) else r }

  /** The positions of the rows that still lack the field, in order. */
  function Missing(rows: seq<Row>): (ps: seq<nat>)
    ensures forall i :: 0 <= i < |ps| ==> ps[i] < |rows| && rows[ps[i]].missing
    ensures forall i, j :: 0 <= i < j < |ps| ==> ps[i] < ps[j]
    ensures forall p :: 0 <= p < |rows| && rows[p].missing ==> p in ps
  {
    if rows == [] then []
    else
      var n := |rows| - 1;
      Missing(rows[..n]) + if rows[n].missing then [n] else []
  }

  /** `SELECT … ORDER BY id LIMIT …` */
  function Batch(rows: seq<Row>, batchSize: int): (ps: seq<nat>)
    ensures forall i :: 0 <= i < |ps| ==> ps[i] < |rows| && rows[ps[i]].missing
    ensures forall i, j :: 0 <= i < j < |ps| ==> ps[i] < ps[j]
    ensures |ps| <= Clamp(batchSize)
  {
    var ps := Missing(rows);
    if |ps| <= Clamp(batchSize) then ps else ps[..Clamp(batchSize)]
  }

  /** The rows after those at the given positions have been tried. */
  function TryAll(rows: seq<Row>, ps: seq<nat>): (r: seq<Row>)
    ensures |r| == |rows|
    ensures forall i :: 0 <= i < |rows| ==> r[i] == if i in ps then Tried(rows[i]) else rows[i]
  {
    seq(|rows|, i requires 0 <= i < |rows| => if i in ps then Tried(rows[i]) else rows[i])
  }

  function Pass(rows: seq<Row>, batchSize: int): seq<Row> { TryAll(rows, Batch(rows, batchSize)) }

  /** The loop leaves after a pass over an empty or a short batch. */
  predicate Leaves(rows: seq<Row>, batchSize: int) {
    Batch(rows, batchSize) == [] || |Batch(rows, batchSize)| < batchSize
  }

  function MissingSet(rows: seq<Row>): set<nat> { set p | 0 <= p < |rows| && rows[p].missing }

  /** The rows no pass will ever fill. */
  function StuckSet(rows: seq<Row>): set<nat> { set p | 0 <= p < |rows| && rows[p].missing && !rows[p].fate.Fixable? }

  /** The exact condition for the loop to end. */
  predicate Ends(rows: seq<Row>, batchSize: int) { batchSize > 500 || |StuckSet(rows)| < Clamp(batchSize) }

  /** Every row that can be filled is. */
  function Filled(rows: seq<Row>): (r: seq<Row>)
    ensures |r| == |rows| && forall i :: 0 <= i < |rows| ==> r[i] == Tried(rows[i])
  {
    seq(|rows|, i requires 0 <= i < |rows| => Tried(rows[i]))
  }

  // ---------------------------------------------------------------------------------------------
  // Counting
  // ---------------------------------------------------------------------------------------------

  lemma {:induction false} MissingCount(rows: seq<Row>)
    ensures |Missing(rows)| == |MissingSet(rows)|
  {
    if rows == [] {
      assert MissingSet(rows) == {};
    } else {
      MissingCount(rows[..|rows| - 1]);
      MissingSetSnoc(rows);
      hide MissingSet;
    }
  }

  lemma {:induction false} MissingSetSnoc(rows: seq<Row>)
    requires rows != []
    ensures var n := |rows| - 1;
            |MissingSet(rows)| == |MissingSet(rows[..n])| + if rows[n].missing then 1 else 0
  {
    var n := |rows| - 1;
    var rest := MissingSet(rows[..n]);
    assert MissingSet(rows) == if rows[n].missing then rest + {n} else rest;
  }

  /** Rising positions are as many as the set they make. */
  lemma {:induction false} RisingFits(ps: seq<nat>, s: set<nat>)
    requires forall i, j :: 0 <= i < j < |ps| ==> ps[i] < ps[j]
    requires forall i :: 0 <= i < |ps| ==> ps[i] in s
    ensures |ps| <= |s|
  {
    if ps != [] {
      var n := |ps| - 1;
      RisingFits(ps[..n], s - {ps[n]});
    }
  }

  lemma {:induction false} SubsetIsSmaller(a: set<nat>, b: set<nat>)
    requires a <= b
    ensures |a| <= |b| && (a != b ==> |a| < |b|)
  {
    assert b == a + (b - a);
    if a != b { assert b - a != {}; }
  }

  lemma {:induction false} BatchCount(rows: seq<Row>, batchSize: int)
    ensures |Batch(rows, batchSize)| == if |MissingSet(rows)| <= Clamp(batchSize) then |MissingSet(rows)|
                                        else Clamp(batchSize)
  {
    MissingCount(rows);
  }

  lemma {:induction false} TryKeepsStuck(rows: seq<Row>, ps: seq<nat>)
    ensures StuckSet(TryAll(rows, ps)) == StuckSet(rows)
    ensures MissingSet(TryAll(rows, ps)) <= MissingSet(rows)
  {
  }

  lemma {:induction false} StuckAreMissing(rows: seq<Row>)
    ensures |StuckSet(rows)| <= |MissingSet(rows)|
  {
    SubsetIsSmaller(StuckSet(rows), MissingSet(rows));
  }

  // ---------------------------------------------------------------------------------------------
  // Progress and no progress
  // ---------------------------------------------------------------------------------------------

  /** A pass changes nothing exactly when its whole batch is stuck. */
  lemma {:induction false} NoProgress(rows: seq<Row>, batchSize: int)
    ensures Pass(rows, batchSize) == rows
            <==> forall i :: 0 <= i < |Batch(rows, batchSize)| ==> !rows[Batch(rows, batchSize)[i]].fate.Fixable?
  {
  }

  /** If the loop is to end, a batch that does not end it fills at least one row. */
  lemma {:induction false} PassProgresses(rows: seq<Row>, batchSize: int)
    requires Ends(rows, batchSize) && !Leaves(rows, batchSize)
    ensures |MissingSet(Pass(rows, batchSize))| < |MissingSet(rows)|
    ensures batchSize <= 500
  {
    hide Missing, Batch, TryAll;
    var ps := Batch(rows, batchSize);
    BatchCount(rows, batchSize);
    if forall i :: 0 <= i < |ps| ==> !rows[ps[i]].fate.Fixable? {
      RisingFits(ps, StuckSet(rows));
      assert false;
    }
    var i :| 0 <= i < |ps| && rows[ps[i]].fate.Fixable?;
    TryKeepsStuck(rows, ps);
    assert ps[i] in MissingSet(rows) && ps[i] !in MissingSet(Pass(rows, batchSize));
    SubsetIsSmaller(MissingSet(Pass(rows, batchSize)), MissingSet(rows));
  }

  lemma {:induction false} EndsStays(rows: seq<Row>, batchSize: int)
    ensures Ends(Pass(rows, batchSize), batchSize) <==> Ends(rows, batchSize)
  {
    TryKeepsStuck(rows, Batch(rows, batchSize));
  }

  /** The loop has left by the end of its `n`-th pass. */
  predicate LeavesWithin(rows: seq<Row>, batchSize: int, n: nat)
    decreases n
  {
    n > 0 && (Leaves(rows, batchSize) || LeavesWithin(Pass(rows, batchSize), batchSize, n - 1))
  }

  lemma {:induction false} Terminates(rows: seq<Row>, batchSize: int)
    requires Ends(rows, batchSize)
    ensures LeavesWithin(rows, batchSize, |MissingSet(rows)| + 1)
    decreases |MissingSet(rows)|
  {
    if !Leaves(rows, batchSize) {
      var rows' := Pass(rows, batchSize);
      PassProgresses(rows, batchSize);
      EndsStays(rows, batchSize);
      Terminates(rows', batchSize);
      LongerIsFine(rows', batchSize, |MissingSet(rows')| + 1, |MissingSet(rows)|);
    }
  }

  lemma {:induction false} LongerIsFine(rows: seq<Row>, batchSize: int, n: nat, m: nat)
    requires n <= m && LeavesWithin(rows, batchSize, n)
    ensures LeavesWithin(rows, batchSize, m)
    decreases n
  {
    if !Leaves(rows, batchSize) { LongerIsFine(Pass(rows, batchSize), batchSize, n - 1, m - 1); }
  }

  lemma {:induction false} NeverLeaves(rows: seq<Row>, batchSize: int, n: nat)
    requires !Ends(rows, batchSize)
    ensures !LeavesWithin(rows, batchSize, n)
    decreases n
  {
    if n > 0 {
      BatchCount(rows, batchSize);
      StuckAreMissing(rows);
      EndsStays(rows, batchSize);
      NeverLeaves(Pass(rows, batchSize), batchSize, n - 1);
    }
  }

  /**
   * The loop ends exactly when the batch size exceeds the clamp or the stuck rows do not fill a
   * batch: then within one pass more than there are rows to fill, and otherwise after no number.
   */
  lemma {:induction false} EndsExactly(rows: seq<Row>, batchSize: int)
    ensures Ends(rows, batchSize) ==> LeavesWithin(rows, batchSize, |MissingSet(rows)| + 1)
    ensures !Ends(rows, batchSize) ==> forall n: nat :: !LeavesWithin(rows, batchSize, n)
  {
    hide Ends, Leaves, Pass, MissingSet;
    if Ends(rows, batchSize) {
      Terminates(rows, batchSize);
    } else {
      forall n: nat ensures !LeavesWithin(rows, batchSize, n) { NeverLeaves(rows, batchSize, n); }
    }
  }

  /** A batch size over the clamp ends after one pass, and misses what the clamp cut off. */
  lemma {:induction false} LargeBatchMisses(rows: seq<Row>, batchSize: int)
    requires batchSize > 500
    ensures Leaves(rows, batchSize)
    ensures Pass(rows, batchSize) == Filled(rows)
            <==> forall i :: 500 <= i < |Missing(rows)| ==> !rows[Missing(rows)[i]].fate.Fixable?
  {
  }

  lemma {:induction false} LastPassFills(rows: seq<Row>, batchSize: int)
    requires batchSize <= 500 && Leaves(rows, batchSize)
    ensures Pass(rows, batchSize) == Filled(rows)
  {
  }

  lemma {:induction false} FilledAgain(rows: seq<Row>, ps: seq<nat>)
    ensures Filled(TryAll(rows, ps)) == Filled(rows)
  {
  }

  // ---------------------------------------------------------------------------------------------
  // The loop
  // ---------------------------------------------------------------------------------------------

  class Backfill {
    var rows: seq<Row>
    var processed: nat
    var updated: nat
    var skipped: nat
    var failed: nat

    constructor (stored: seq<Row>)
      ensures rows == stored && processed == updated == skipped == failed == 0
    {
      rows, processed, updated, skipped, failed := stored, 0, 0, 0, 0;
    }

    /** The counts add up, and every row filled was counted once. */
    ghost predicate Counted(before: seq<Row>)
      reads this
    {
      processed == updated + skipped + failed && updated + |MissingSet(rows)| == |MissingSet(before)|
    }

    method TryRow(p: nat, ghost before: seq<Row>)
      requires p < |rows| && rows[p].missing && Counted(before)
      modifies this
      ensures rows == old(rows)[p := Tried(old(rows)[p])]
      ensures Counted(before) && processed == old(processed) + 1
      ensures skipped == old(skipped) + if rows[p].fate.Skips? then 1 else 0
      ensures failed == old(failed) + if rows[p].fate.Fails? then 1 else 0
    {
      processed := processed + 1;
      match rows[p].fate {
        case Skips => skipped := skipped + 1;
        case Fails => failed := failed + 1;
        case Fixable =>
          ghost var was := MissingSet(rows);
          rows := rows[p := Row(false, Fixable)];
          assert MissingSet(rows) == was - {p};
          updated := updated + 1;
      }
    }

    method TryBatch(batch: seq<nat>, ghost before: seq<Row>)
      requires Counted(before)
      requires forall i :: 0 <= i < |batch| ==> batch[i] < |rows| && rows[batch[i]].missing
      requires forall i, j :: 0 <= i < j < |batch| ==> batch[i] < batch[j]
      modifies this
      ensures rows == TryAll(old(rows), batch)
      ensures Counted(before) && processed == old(processed) + |batch|
    {
      assert TryAll(rows, []) == rows;
      for i := 0 to |batch|
        invariant rows == TryAll(old(rows), batch[..i])
        invariant Counted(before) && processed == old(processed) + i
      {
        assert batch[..i + 1] == batch[..i] + [batch[i]];
        TryRow(batch[i], before);
        assert rows == TryAll(old(rows), batch[..i + 1]);
      }
      assert batch[..|batch|] == batch;
    }

    /** The whole backfill, on a registry where it ends. */
    method Run(batchSize: int)
      requires Ends(rows, batchSize) && processed == updated == skipped == failed == 0
      modifies this
      ensures Counted(old(rows))
      ensures rows == if batchSize <= 500 then Filled(old(rows)) else Pass(old(rows), batchSize)
    {
      ghost var before := rows;
      while true
        invariant Counted(before) && Ends(rows, batchSize)
        invariant Filled(rows) == Filled(before)
        invariant batchSize > 500 ==> rows == before
        decreases |MissingSet(rows)|
      {
        ghost var was := rows;
        var batch := Batch(rows, batchSize);
        if Leaves(rows, batchSize) {
          if batchSize <= 500 { LastPassFills(rows, batchSize); }
        } else {
          PassProgresses(rows, batchSize);
        }
        EndsStays(rows, batchSize);
        FilledAgain(rows, batch);
        if batch == [] {
          assert Pass(rows, batchSize) == rows;
          break;
        }
        TryBatch(batch, before);
        if |batch| < batchSize { break; }
      }
    }
  }
}
