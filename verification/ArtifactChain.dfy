/** What every interleaving of artifact operations keeps, and what their files come to. */
module ArtifactChain {
  import opened Options
  import opened ArtifactRevisions

  // ---------------------------------------------------------------------------------------------
  // One inserted row keeps every chain
  // ---------------------------------------------------------------------------------------------

  lemma {:induction false} HistoryAppend(rows: seq<Revision>, row: Revision, a: nat)
    ensures History(rows + [row], a) == History(rows, a) + if row.artifact == a then [row] else []
  {
  }

  lemma {:induction false} HistoryHas(rows: seq<Revision>, a: nat, i: nat)
    requires i < |rows| && rows[i].artifact == a
    ensures rows[i] in History(rows, a)
  {
    if i < |rows| - 1 { HistoryHas(rows[..|rows| - 1], a, i); }
  }

  lemma {:induction false} HistoryOnly(rows: seq<Revision>, a: nat, i: nat)
    requires i < |History(rows, a)|
    ensures History(rows, a)[i] in rows && History(rows, a)[i].artifact == a
  {
    var init := rows[..|rows| - 1];
    if i < |History(init, a)| { HistoryOnly(init, a, i); }
  }

  lemma {:induction false} ChainPrefix(h: seq<Revision>, r: Revision)
    ensures Chain(h + [r]) <==> Chain(h) && r.number == |h| + 1
                                && r.parent == if h == [] then None else Some(h[|h| - 1].id)
  {
    var all := h + [r];
    forall i | 0 <= i < |h| ensures Link(all, i) <==> Link(h, i) {}
    assert Chain(all) ==> Link(all, |h|);
    hide Link;
    assert Chain(all) ==> forall i :: 0 <= i < |h| ==> Link(all, i);
  }

  /** In a chain the highest number is the number of revisions. */
  lemma {:induction false} HighestInChain(rows: seq<Revision>, a: nat)
    requires Chain(History(rows, a))
    ensures MaxNumber(rows, a) == |History(rows, a)|
  {
    if rows != [] {
      var init, last := rows[..|rows| - 1], rows[|rows| - 1];
      if last.artifact == a {
        ChainPrefix(History(init, a), last);
      } else {
        assert History(init, a) + [] == History(init, a);
      }
      HighestInChain(init, a);
    }
  }

  lemma {:induction false} InsertKeepsChain(t: Tables, row: Revision, a: nat)
    requires ChainOk(t, a) && ChainOk(t, row.artifact)
    requires MayCreate(t, row) || (row.parent.Some? && MayAppend(t, row.artifact, row, row.parent.value))
    ensures ChainOk(Insert(t, row), a)
  {
    hide IdTaken, History, MaxNumber, Find, Chain;
    HistoryAppend(t.rows, row, a);
    if a == row.artifact {
      HighestInChain(t.rows, a);
      ChainPrefix(History(t.rows, a), row);
    } else {
      assert History(t.rows, a) + [] == History(t.rows, a);
    }
  }

  lemma {:induction false} InsertKeepsChains(t: Tables, row: Revision)
    requires ChainsOk(t)
    requires MayCreate(t, row) || (row.parent.Some? && MayAppend(t, row.artifact, row, row.parent.value))
    ensures ChainsOk(Insert(t, row))
  {
    hide MayCreate, MayAppend, ChainOk;
    assert ChainOk(t, row.artifact);
    forall a ensures ChainOk(Insert(t, row), a) {
      assert ChainOk(t, a);
      InsertKeepsChain(t, row, a);
    }
  }

  lemma {:induction false} InsertKeepsIds(t: Tables, row: Revision)
    requires IdsDistinct(t.rows) && !IdTaken(t.rows, row.id)
    ensures IdsDistinct(Insert(t, row).rows)
  {
  }

  // ---------------------------------------------------------------------------------------------
  // Frames: what one action leaves to the others
  // ---------------------------------------------------------------------------------------------

  /** No row, no committed file and no file of operation `j` has changed. */
  ghost predicate Keeps(w: World, w': World, j: nat) {
    && w.tables.rows <= w'.tables.rows
    && forall k :: k in w.owner && (w.owner[k] == ByRevision || w.owner[k] == ByOp(j)) ==>
         k in w'.owner && w'.owner[k] == w.owner[k]
         && k in w.files && k in w'.files && w'.files[k] == w.files[k]
  }

  lemma {:induction false} RowsKeepBytes(w: World, w': World, j: nat, r: Revision)
    requires FilesOk(w) && Keeps(w, w', j) && r in w.tables.rows
    ensures BytesOf(w'.files, r.content) == BytesOf(w.files, r.content) && BytesOf(w.files, r.content).Some?
  {
  }

  lemma {:induction false} RowFrame(w: World, w': World, j: nat, row: Revision, temp: Option<nat>)
    requires FilesOk(w) && Keeps(w, w', j) && RowOk(w, row, temp)
    requires temp.Some? ==> temp.value in w.owner && w.owner[temp.value] == ByOp(j)
    ensures RowOk(w', row, temp)
  {
  }

  /** What an operation relies on outlives the actions of the others. */
  lemma {:induction false} OpFrame(w: World, w': World, j: nat)
    requires FilesOk(w) && Keeps(w, w', j) && j < |w.ops| && j < |w'.ops| && w'.ops[j] == w.ops[j] && OpOk(w, j)
    ensures OpOk(w', j)
  {
    hide FilesOk, RowOk, BytesOf;
    match w.ops[j]
    case Inserting(row, temp) => RowFrame(w, w', j, row, temp);
    case Loaded(_, _, _, _, source, _) => if source.Some? { RowsKeepBytes(w, w', j, source.value); }
    case Appending(_, _, row, temp) => RowFrame(w, w', j, row, temp);
    case Finished(committed) =>
      if committed.Some? {
        var i :| 0 <= i < |w.tables.rows| && w.tables.rows[i].id == committed.value;
        assert w'.tables.rows[i] == w.tables.rows[i];
      }
    case _ =>
  }

  lemma {:induction false} RollbackFrame(w: World, w': World, j: nat, rows: seq<Revision>)
    requires FilesOk(w) && Keeps(w, w', j) && rows == w.tables.rows && RollbacksOk(rows, w.files)
    ensures RollbacksOk(rows, w'.files)
  {
  }

  // ---------------------------------------------------------------------------------------------
  // Each kind of action keeps the invariant
  // ---------------------------------------------------------------------------------------------

  lemma {:induction false} OthersKeep(w: World, w': World, i: nat)
    requires FilesOk(w) && OpsOk(w) && |w.ops| <= |w'.ops|
    requires forall j :: 0 <= j < |w.ops| && j != i ==> Keeps(w, w', j) && w'.ops[j] == w.ops[j]
    requires i < |w'.ops| ==> OpOk(w', i)
    requires |w'.ops| <= |w.ops| || (|w'.ops| == |w.ops| + 1 && i == |w.ops|)
    ensures OpsOk(w')
  {
    hide FilesOk, OpOk, Keeps;
    forall j | 0 <= j < |w'.ops| ensures OpOk(w', j) {
      if j != i { OpFrame(w, w', j); }
    }
  }

  /** An operation moves on with the same file in hand, or none. */
  lemma {:induction false} MoveKeeps(w: World, i: nat, op: Op)
    requires Inv(w) && i < |w.ops| && HeldBy(op) == HeldBy(w.ops[i]) && OpOk(SetOp(w, i, op), i)
    ensures Inv(SetOp(w, i, op))
  {
    hide ChainsOk, IdsDistinct, RollbacksOk, OpOk;
    var w' := SetOp(w, i, op);
    assert FilesOk(w');
    OthersKeep(w, w', i);
    forall k | k in w'.owner ensures OwnerOk(w', k) { assert OwnerOk(w, k); }
  }

  lemma {:induction false} BeginKeeps(w: World, op: Op)
    requires Inv(w) && HeldBy(op).None? && OpOk(Begin(w, op), |w.ops|)
    ensures Inv(Begin(w, op))
  {
    hide ChainsOk, IdsDistinct, RollbacksOk, OpOk;
    var w' := Begin(w, op);
    assert FilesOk(w');
    OthersKeep(w, w', |w.ops|);
    forall k | k in w'.owner ensures OwnerOk(w', k) { assert OwnerOk(w, k); }
  }

  lemma {:induction false} WriteKeeps(w: World, i: nat, ref: nat, payload: Bytes, op: Op)
    requires Inv(w) && i < |w.ops| && HeldBy(w.ops[i]).None? && ref !in w.files && HeldBy(op) == Some(ref)
    requires OpOk(WriteFile(w, i, ref, payload, op), i)
    ensures Inv(WriteFile(w, i, ref, payload, op))
  {
    hide ChainsOk, IdsDistinct, RollbacksOk, OpOk;
    var w' := WriteFile(w, i, ref, payload, op);
    assert FilesOk(w');
    OthersKeep(w, w', i);
    assert Keeps(w, w', |w.ops|) by { NobodyHeldBy(w, |w.ops|); }
    RollbackFrame(w, w', |w.ops|, w.tables.rows);
    forall k | k in w'.owner ensures OwnerOk(w', k) { if k != ref { assert OwnerOk(w, k); } }
  }

  lemma {:induction false} NobodyHeldBy(w: World, j: nat)
    requires OwnersOk(w) && j >= |w.ops|
    ensures forall k :: k in w.owner ==> w.owner[k] != ByOp(j)
  {
  }

  lemma {:induction false} DeleteKeeps(w: World, i: nat, ref: nat)
    requires Inv(w) && i < |w.ops| && HeldBy(w.ops[i]) == Some(ref)
    ensures Inv(DeleteFile(w, i, ref))
  {
    hide ChainsOk, IdsDistinct, RollbacksOk;
    var w' := DeleteFile(w, i, ref);
    assert OpOk(w, i);
    hide OpOk;
    assert OpOk(w', i) by { FinishedIsOk(w', i); }
    OthersKeep(w, w', i);
    assert FilesOk(w');
    NobodyHeldBy(w, |w.ops|);
    RollbackFrame(w, w', |w.ops|, w.tables.rows);
    forall k | k in w'.owner ensures OwnerOk(w', k) { assert OwnerOk(w, k); }
  }

  lemma {:induction false} FinishedIsOk(w: World, i: nat)
    requires i < |w.ops| && w.ops[i] == Finished(None)
    ensures OpOk(w, i)
  {
  }

  lemma {:induction false} LeaveKeeps(w: World, i: nat)
    requires Inv(w) && i < |w.ops|
    ensures Inv(Leave(w, i))
  {
    hide ChainsOk, IdsDistinct, RollbacksOk;
    var w' := Leave(w, i);
    assert OpOk(w, i);
    hide OpOk;
    FinishedIsOk(w', i);
    OthersKeep(w, w', i);
    assert FilesOk(w');
    forall k | k in w'.owner ensures OwnerOk(w', k) { assert OwnerOk(w, k); }
  }

  lemma {:induction false} CommitFiles(w: World, i: nat, row: Revision, temp: Option<nat>)
    requires Inv(w) && i < |w.ops| && HeldBy(w.ops[i]) == temp && OpOk(w, i) && RowOk(w, row, temp)
    ensures FilesOk(Commit(w, i, row, temp)) && OwnersOk(Commit(w, i, row, temp))
  {
    hide ChainsOk, IdsDistinct, RollbacksOk, OpsOk, CopiesIn;
    var w' := Commit(w, i, row, temp);
    var rows, rows' := w.tables.rows, w'.tables.rows;
    assert rows' == rows + [row];
    forall k | k in w'.owner ensures OwnerOk(w', k) {
      assert OwnerOk(w, k);
      CommittedGrows(rows, row, k);
    }
  }

  lemma {:induction false} CommittedGrows(rows: seq<Revision>, row: Revision, k: nat)
    ensures IsCommitted(rows + [row], k) <==> IsCommitted(rows, k) || row.content == Stored(k)
  {
    var rows' := rows + [row];
    assert rows'[|rows|] == row;
    if m :| 0 <= m < |rows| && rows[m].content == Stored(k) { assert rows'[m].content == Stored(k); }
  }

  lemma {:induction false} CommitRollbacks(rows: seq<Revision>, files: map<nat, Bytes>, row: Revision)
    requires RollbacksOk(rows, files) && (row.rollbackOf.Some? ==> CopiesIn(rows, files, row))
    ensures RollbacksOk(rows + [row], files)
  {
    hide CopiesIn;
    var rows' := rows + [row];
    forall j | 0 <= j < |rows'| && rows'[j].rollbackOf.Some? ensures CopiesIn(rows'[..j], files, rows'[j]) {
      if j < |rows| {
        assert rows'[..j] == rows[..j];
      } else {
        assert rows'[..j] == rows;
      }
    }
  }

  lemma {:induction false} CommitKeeps(w: World, i: nat, row: Revision, temp: Option<nat>)
    requires Inv(w) && i < |w.ops| && HeldBy(w.ops[i]) == temp && OpOk(w, i) && RowOk(w, row, temp)
    requires MayCreate(w.tables, row) || (row.parent.Some? && MayAppend(w.tables, row.artifact, row, row.parent.value))
    ensures Inv(Commit(w, i, row, temp))
  {
    var w' := Commit(w, i, row, temp);
    InsertKeepsChains(w.tables, row);
    InsertKeepsIds(w.tables, row);
    CommitFiles(w, i, row, temp);
    CommitRollbacks(w.tables.rows, w.files, row);
    assert w'.tables.rows[|w.tables.rows|].id == row.id;
    assert OpOk(w', i);
    hide ChainsOk, IdsDistinct, RollbacksOk, OwnersOk, OpOk, MayAppend, MayCreate, RowOk;
    OthersKeep(w, w', i);
  }

  // ---------------------------------------------------------------------------------------------
  // Every step, every run
  // ---------------------------------------------------------------------------------------------

  lemma {:induction false} FailKeeps(w: World, i: nat, temp: Option<nat>)
    requires Inv(w) && i < |w.ops| && HeldBy(w.ops[i]) == temp
    ensures Inv(Fail(w, i, temp))
  {
    assert OpOk(w, i);
    MoveKeeps(w, i, if temp.Some? then Compensating(temp.value) else Finished(None));
  }

  lemma {:induction false} PrepareKeeps(w: World, i: nat)
    requires Inv(w) && i < |w.ops| && w.ops[i].Checked?
    ensures Inv(Prepare(w, i, w.ops[i]))
  {
    hide ChainsOk, IdsDistinct, RollbacksOk, FilesOk, OwnersOk, OpsOk;
    var op := w.ops[i];
    match op.change
    case Update(id, payload, file) =>
      MoveKeeps(w, i, if file then Loaded(op.artifact, op.expected, id, op.base, None, payload)
                      else Appending(op.artifact, op.expected,
                                     NextRow(op.artifact, id, op.base, None, Inline(payload)), None));
    case Rollback(id, target) =>
      var found := Find(w.tables.rows, op.artifact, target);
      if found.None? {
        FailKeeps(w, i, None);
      } else {
        MoveKeeps(w, i, Targeted(op.artifact, op.expected, id, op.base, found.value));
      }
  }

  lemma {:induction false} CopyOfRow(w: World, artifact: nat, target: Revision, row: Revision)
    requires RowIn(w.tables.rows, artifact, target) && row.artifact == artifact && row.rollbackOf == Some(target.id)
    requires BytesOf(w.files, row.content) == BytesOf(w.files, target.content)
    ensures CopiesIn(w.tables.rows, w.files, row)
  {
  }

  lemma {:induction false} CopyKeeps(w: World, i: nat)
    requires Inv(w) && i < |w.ops| && w.ops[i].Targeted?
    ensures Inv(Copy(w, i, w.ops[i]))
  {
    hide ChainsOk, IdsDistinct, RollbacksOk, FilesOk, OwnersOk;
    var op := w.ops[i];
    assert OpOk(w, i);
    match op.target.content
    case Inline(_) =>
      var row := NextRow(op.artifact, op.id, op.base, Some(op.target.id), op.target.content);
      CopyOfRow(w, op.artifact, op.target, row);
      MoveKeeps(w, i, Appending(op.artifact, op.expected, row, None));
    case Stored(ref) =>
      if ref !in w.files {
        FailKeeps(w, i, None);
      } else {
        MoveKeeps(w, i, Loaded(op.artifact, op.expected, op.id, op.base, Some(op.target), w.files[ref]));
      }
  }

  lemma {:induction false} WriteStepKeeps(w: World, i: nat, name: nat)
    requires Inv(w) && i < |w.ops| && w.ops[i].Loaded? && name !in w.files
    ensures Inv(Write(w, i, w.ops[i], name))
  {
    var op := w.ops[i];
    assert OpOk(w, i);
    var rollbackOf := if op.source.Some? then Some(op.source.value.id) else None;
    var row := NextRow(op.artifact, op.id, op.base, rollbackOf, Stored(name));
    var next := Appending(op.artifact, op.expected, row, Some(name));
    var w' := WriteFile(w, i, name, op.payload, next);
    if op.source.Some? {
      assert BytesOf(w'.files, op.source.value.content) == Some(op.payload);
      CopyOfRow(w', op.artifact, op.source.value, row);
    }
    hide ChainsOk, IdsDistinct, RollbacksOk, FilesOk, OwnersOk, OpsOk, CopiesIn;
    WriteKeeps(w, i, name, op.payload, next);
  }

  lemma {:induction false} ActKeeps(w: World, i: nat, name: nat)
    requires Inv(w) && i < |w.ops| && !(WritesFile(w.ops[i]) && name in w.files)
    ensures Inv(Act(w, i, name))
  {
    assert OpOk(w, i);
    hide ChainsOk, IdsDistinct, RollbacksOk, FilesOk, OwnersOk, OpsOk, Prepare, Copy, Write, MayCreate, Commit, Fail;
    var op := w.ops[i];
    match op
    case Drafted(artifact, id, payload) =>
      WriteKeeps(w, i, name, payload, Inserting(Revision(id, artifact, 1, None, None, Stored(name)), Some(name)));
    case Inserting(row, temp) =>
      if MayCreate(w.tables, row) { CommitKeeps(w, i, row, temp); } else { FailKeeps(w, i, temp); }
    case Started(artifact, expected, change) =>
      if artifact !in w.tables.current {
        FailKeeps(w, i, None);
      } else {
        MoveKeeps(w, i, Located(artifact, expected, change, w.tables.current[artifact]));
      }
    case Located(artifact, expected, change, currentId) =>
      var found := Find(w.tables.rows, artifact, currentId);
      if found.None? || expected != found.value.id {
        FailKeeps(w, i, None);
      } else {
        MoveKeeps(w, i, Checked(artifact, expected, change, found.value));
      }
    case Checked(_, _, _, _) => PrepareKeeps(w, i);
    case Targeted(_, _, _, _, _) => CopyKeeps(w, i);
    case Loaded(_, _, _, _, _, _) => WriteStepKeeps(w, i, name);
    case Appending(artifact, expected, row, temp) =>
      if MayAppend(w.tables, artifact, row, expected) { CommitKeeps(w, i, row, temp); } else { FailKeeps(w, i, temp); }
    case Compensating(ref) => DeleteKeeps(w, i, ref);
    case Finished(_) =>
  }

  lemma {:induction false} StepKeeps(w: World, e: Event)
    requires Inv(w)
    ensures Inv(Step(w, e))
  {
    hide ChainsOk, IdsDistinct, RollbacksOk, FilesOk, OwnersOk, OpsOk, Act, Fail, Leave;
    match e
    case Create(artifact, id, payload, file) =>
      BeginKeeps(w, if file then Drafted(artifact, id, payload)
                    else Inserting(Revision(id, artifact, 1, None, None, Inline(payload)), None));
    case Revise(artifact, expected, change) => BeginKeeps(w, Started(artifact, expected, change));
    case Advance(i, ok, name) =>
      if i < |w.ops| && !(WritesFile(w.ops[i]) && name in w.files) {
        if ok { ActKeeps(w, i, name); } else { RefuseKeeps(w, i); }
      }
    case Abandon(i) => if i < |w.ops| { LeaveKeeps(w, i); }
  }

  lemma {:induction false} RefuseKeeps(w: World, i: nat)
    requires Inv(w) && i < |w.ops|
    ensures Inv(Refuse(w, i))
  {
    hide Inv, Fail, Leave;
    match w.ops[i]
    case Compensating(_) => LeaveKeeps(w, i);
    case Finished(_) =>
    case op => FailKeeps(w, i, HeldBy(op));
  }

  lemma {:induction false} EmptyIsFine()
    ensures Inv(EMPTY)
  {
  }

  lemma {:induction false} RunKeeps(w: World, es: seq<Event>)
    requires Inv(w)
    ensures Inv(Run(w, es))
    decreases |es|
  {
    hide Inv, Step;
    if es != [] {
      StepKeeps(w, es[0]);
      RunKeeps(Step(w, es[0]), es[1..]);
    }
  }

  // ---------------------------------------------------------------------------------------------
  // The laws
  // ---------------------------------------------------------------------------------------------

  /**
   * However creates, updates and rollbacks interleave, fail or are cancelled: every artifact's
   * revisions are numbered 1 to n, each parent is the predecessor, the current revision is the
   * n-th, and a rollback holds the bytes of the earlier revision it names.
   */
  lemma {:induction false} RevisionChain(es: seq<Event>)
    ensures var w := Run(EMPTY, es);
            && (forall a :: a in w.tables.current ==>
                  var h := History(w.tables.rows, a);
                  h != [] && h[|h| - 1].id == w.tables.current[a]
                  && forall i :: 0 <= i < |h| ==> Link(h, i))
            && IdsDistinct(w.tables.rows)
            && RollbacksOk(w.tables.rows, w.files)
            && forall i :: 0 <= i < |w.tables.rows| ==> w.tables.rows[i].artifact in w.tables.current
  {
    hide Run, IdsDistinct, RollbacksOk, Link, History;
    EmptyIsFine();
    RunKeeps(EMPTY, es);
    var w := Run(EMPTY, es);
    forall a | a in w.tables.current
      ensures var h := History(w.tables.rows, a);
              h != [] && h[|h| - 1].id == w.tables.current[a] && forall i :: 0 <= i < |h| ==> Link(h, i)
    {
      assert ChainOk(w.tables, a);
    }
    forall i | 0 <= i < |w.tables.rows| ensures w.tables.rows[i].artifact in w.tables.current {
      assert ChainOk(w.tables, w.tables.rows[i].artifact);
      HistoryHas(w.tables.rows, w.tables.rows[i].artifact, i);
    }
  }

  /** Committed rows stay first, and their files stay as they are. */
  ghost predicate Extends(w: World, w': World) {
    && w.tables.rows <= w'.tables.rows
    && forall k :: k in w.owner && w.owner[k] == ByRevision ==>
         k in w'.owner && w'.owner[k] == ByRevision && k in w.files && k in w'.files && w'.files[k] == w.files[k]
  }

  lemma {:induction false} WriteExtends(w: World, i: nat, ref: nat, payload: Bytes, op: Op)
    requires Inv(w) && i < |w.ops| && ref !in w.files
    ensures Extends(w, WriteFile(w, i, ref, payload, op))
  {
  }

  lemma {:induction false} CommitExtends(w: World, i: nat, row: Revision, temp: Option<nat>)
    requires Inv(w) && i < |w.ops|
    ensures Extends(w, Commit(w, i, row, temp))
  {
  }

  lemma {:induction false} DeleteExtends(w: World, i: nat, ref: nat)
    requires Inv(w) && i < |w.ops| && HeldBy(w.ops[i]) == Some(ref)
    ensures Extends(w, DeleteFile(w, i, ref))
  {
    assert OpOk(w, i);
    hide ChainsOk, IdsDistinct, RollbacksOk, OwnersOk, OpsOk;
  }

  lemma {:induction false} MoveExtends(w: World, i: nat, op: Op)
    requires Inv(w) && i < |w.ops|
    ensures Extends(w, SetOp(w, i, op))
  {
  }

  lemma {:induction false} ActExtends(w: World, i: nat, name: nat)
    requires Inv(w) && i < |w.ops| && !(WritesFile(w.ops[i]) && name in w.files)
    ensures Extends(w, Act(w, i, name))
  {
    hide Inv, Extends, SetOp, WriteFile, Commit, DeleteFile, MayCreate, MayAppend, Find, NextRow;
    var op := w.ops[i];
    forall next ensures Extends(w, SetOp(w, i, next)) { MoveExtends(w, i, next); }
    NothingExtends(w);
    match op
    case Drafted(artifact, id, payload) =>
      WriteExtends(w, i, name, payload, Inserting(Revision(id, artifact, 1, None, None, Stored(name)), Some(name)));
    case Inserting(row, temp) => CommitExtends(w, i, row, temp);
    case Loaded(_, _, _, _, _, payload) =>
      var rollbackOf := if op.source.Some? then Some(op.source.value.id) else None;
      WriteExtends(w, i, name, payload,
                   Appending(op.artifact, op.expected, NextRow(op.artifact, op.id, op.base, rollbackOf, Stored(name)),
                             Some(name)));
    case Appending(_, _, row, temp) => CommitExtends(w, i, row, temp);
    case Compensating(ref) => DeleteExtends(w, i, ref);
    case _ =>
  }

  lemma {:induction false} RefuseExtends(w: World, i: nat)
    requires Inv(w) && i < |w.ops|
    ensures Extends(w, Refuse(w, i))
  {
    hide Inv, Leave;
    LeaveExtends(w, i);
    NothingExtends(w);
  }

  lemma {:induction false} NothingExtends(w: World)
    requires Inv(w)
    ensures Extends(w, w)
  {
  }

  lemma {:induction false} StepExtends(w: World, e: Event)
    requires Inv(w)
    ensures Extends(w, Step(w, e))
  {
    match e
    case Advance(i, _, name) =>
      if i < |w.ops| && !(WritesFile(w.ops[i]) && name in w.files) {
        hide Act, Refuse, Leave;
        ActExtends(w, i, name);
        RefuseExtends(w, i);
      }
    case Abandon(i) =>
      if i < |w.ops| && !w.ops[i].Finished? { LeaveExtends(w, i); }
    case _ =>
  }

  lemma {:induction false} LeaveExtends(w: World, i: nat)
    requires Inv(w) && i < |w.ops|
    ensures Extends(w, Leave(w, i))
  {
    assert OpOk(w, i);
    hide ChainsOk, IdsDistinct, RollbacksOk, OwnersOk, OpsOk;
  }

  /** A committed revision is never changed, moved or lost, and neither are its bytes. */
  lemma {:induction false} CommittedStays(w: World, es: seq<Event>)
    requires Inv(w)
    ensures w.tables.rows <= Run(w, es).tables.rows
    ensures forall r :: r in w.tables.rows ==>
              BytesOf(w.files, r.content).Some?
              && BytesOf(Run(w, es).files, r.content) == BytesOf(w.files, r.content)
    decreases |es|
  {
    if es == [] {
      CommittedHasBytes(w, w);
    } else {
      var w' := Step(w, es[0]);
      StepKeeps(w, es[0]);
      StepExtends(w, es[0]);
      CommittedStays(w', es[1..]);
      CommittedHasBytes(w, w');
      hide Inv, Step, Extends, BytesOf;
    }
  }

  lemma {:induction false} CommittedHasBytes(w: World, w': World)
    requires Inv(w) && Extends(w, w')
    ensures forall r :: r in w.tables.rows ==>
              BytesOf(w.files, r.content).Some? && BytesOf(w'.files, r.content) == BytesOf(w.files, r.content)
  {
  }

  lemma {:induction false} HistoryDistinct(rows: seq<Revision>, a: nat)
    requires IdsDistinct(rows)
    ensures IdsDistinct(History(rows, a))
  {
    if rows != [] {
      var init, last := rows[..|rows| - 1], rows[|rows| - 1];
      HistoryDistinct(init, a);
      forall i | 0 <= i < |History(init, a)| ensures History(init, a)[i].id != last.id { HistoryOnly(init, a, i); }
    }
  }

  /** No update is lost: a revision has at most one child, so of two rivals at most one commits. */
  lemma {:induction false} OneChild(w: World, i: nat, j: nat)
    requires Inv(w) && i < |w.tables.rows| && j < |w.tables.rows|
    requires w.tables.rows[i].artifact == w.tables.rows[j].artifact
             && w.tables.rows[i].parent == w.tables.rows[j].parent
    ensures i == j
  {
    hide FilesOk, RollbacksOk, OwnersOk, OpsOk;
    var rows := w.tables.rows;
    var a := rows[i].artifact;
    var h := History(rows, a);
    HistoryHas(rows, a, i);
    HistoryHas(rows, a, j);
    HistoryDistinct(rows, a);
    hide History;
    var m :| 0 <= m < |h| && h[m] == rows[i];
    var n :| 0 <= n < |h| && h[n] == rows[j];
    assert ChainOk(w.tables, a);
    assert Link(h, m) && Link(h, n);
  }

  // ---------------------------------------------------------------------------------------------
  // Files at rest
  // ---------------------------------------------------------------------------------------------

  /**
   * The event strands a file: its operation is cancelled or its values are refused with the file in
   * hand, or the delete fails.
   */
  predicate Leaks(w: World, e: Event) {
    match e
    case Advance(i, ok, _) => i < |w.ops| && !ok && w.ops[i].Compensating?
    case Abandon(i) => i < |w.ops| && HeldBy(w.ops[i]).Some?
    case _ => false
  }

  predicate Leaky(w: World, es: seq<Event>)
    decreases |es|
  {
    es != [] && (Leaks(w, es[0]) || Leaky(Step(w, es[0]), es[1..]))
  }

  ghost predicate HasStray(w: World) { exists k :: k in w.owner && w.owner[k] == Nobody }

  /** The strays are those of the owner map, whatever else changes. */
  lemma {:induction false} SameOwnerStrays(w: World, w': World)
    requires w'.owner == w.owner
    ensures HasStray(w') <==> HasStray(w)
  {
  }

  lemma {:induction false} OneOwnerStrays(w: World, w': World, ref: nat)
    requires w'.owner - {ref} == w.owner - {ref}
    requires (ref in w.owner ==> w.owner[ref] != Nobody) && (ref in w'.owner ==> w'.owner[ref] != Nobody)
    ensures HasStray(w') <==> HasStray(w)
  {
    if k :| k in w.owner && w.owner[k] == Nobody {
      assert k in w'.owner - {ref};
      assert k in w'.owner && w'.owner[k] == Nobody;
    }
    if k :| k in w'.owner && w'.owner[k] == Nobody {
      assert k in w.owner - {ref};
      assert k in w.owner && w.owner[k] == Nobody;
    }
  }

  lemma {:induction false} WriteStrays(w: World, i: nat, ref: nat, payload: Bytes, op: Op)
    requires Inv(w) && i < |w.ops| && ref !in w.files
    ensures HasStray(WriteFile(w, i, ref, payload, op)) <==> HasStray(w)
  {
    hide ChainsOk, IdsDistinct, RollbacksOk, OwnersOk, OpsOk, HasStray;
    var w' := WriteFile(w, i, ref, payload, op);
    assert w'.owner - {ref} == w.owner - {ref};
    OneOwnerStrays(w, w', ref);
  }

  lemma {:induction false} CommitStrays(w: World, i: nat, row: Revision, temp: Option<nat>)
    requires Inv(w) && i < |w.ops| && HeldBy(w.ops[i]) == temp
    ensures HasStray(Commit(w, i, row, temp)) <==> HasStray(w)
  {
    assert OpOk(w, i);
    hide ChainsOk, IdsDistinct, RollbacksOk, OwnersOk, OpsOk, OpOk, FilesOk, HasStray, Insert;
    var w' := Commit(w, i, row, temp);
    if temp.Some? {
      assert w'.owner - {temp.value} == w.owner - {temp.value};
      OneOwnerStrays(w, w', temp.value);
    } else {
      SameOwnerStrays(w, w');
    }
  }

  lemma {:induction false} DeleteStrays(w: World, i: nat, ref: nat)
    requires Inv(w) && i < |w.ops| && HeldBy(w.ops[i]) == Some(ref)
    ensures HasStray(DeleteFile(w, i, ref)) <==> HasStray(w)
  {
    assert OpOk(w, i);
    hide ChainsOk, IdsDistinct, RollbacksOk, OwnersOk, OpsOk, OpOk, FilesOk, HasStray;
    var w' := DeleteFile(w, i, ref);
    assert w'.owner - {ref} == w.owner - {ref};
    OneOwnerStrays(w, w', ref);
  }

  lemma {:induction false} ActStrays(w: World, i: nat, name: nat)
    requires Inv(w) && i < |w.ops| && !(WritesFile(w.ops[i]) && name in w.files)
    ensures HasStray(Act(w, i, name)) <==> HasStray(w)
  {
    hide Inv, HasStray, SetOp, WriteFile, Commit, DeleteFile, MayCreate, MayAppend, Find, NextRow;
    var op := w.ops[i];
    forall next ensures HasStray(SetOp(w, i, next)) <==> HasStray(w) { MoveStrays(w, i, next); }
    match op
    case Drafted(artifact, id, payload) =>
      WriteStrays(w, i, name, payload, Inserting(Revision(id, artifact, 1, None, None, Stored(name)), Some(name)));
    case Inserting(row, temp) => CommitStrays(w, i, row, temp);
    case Loaded(_, _, _, _, _, payload) =>
      var rollbackOf := if op.source.Some? then Some(op.source.value.id) else None;
      WriteStrays(w, i, name, payload,
                  Appending(op.artifact, op.expected, NextRow(op.artifact, op.id, op.base, rollbackOf, Stored(name)),
                            Some(name)));
    case Appending(_, _, row, temp) => CommitStrays(w, i, row, temp);
    case Compensating(ref) => DeleteStrays(w, i, ref);
    case _ =>
  }

  lemma {:induction false} MoveStrays(w: World, i: nat, op: Op)
    requires i < |w.ops|
    ensures HasStray(SetOp(w, i, op)) <==> HasStray(w)
  {
  }

  lemma {:induction false} LeaveStrays(w: World, i: nat)
    requires Inv(w) && i < |w.ops|
    ensures HasStray(Leave(w, i)) <==> HasStray(w) || HeldBy(w.ops[i]).Some?
  {
    assert OpOk(w, i);
    var w' := Leave(w, i);
    hide ChainsOk, IdsDistinct, RollbacksOk, OwnersOk, OpsOk;
    if HeldBy(w.ops[i]).Some? { assert w'.owner[HeldBy(w.ops[i]).value] == Nobody; }
    if k :| k in w.owner && w.owner[k] == Nobody { assert k in w'.owner && w'.owner[k] == Nobody; }
  }

  lemma {:induction false} StepStrays(w: World, e: Event)
    requires Inv(w)
    ensures HasStray(Step(w, e)) <==> HasStray(w) || Leaks(w, e)
  {
    hide Inv, Act, Leave;
    match e
    case Advance(i, ok, name) =>
      if i < |w.ops| && !(WritesFile(w.ops[i]) && name in w.files) {
        if ok { ActStrays(w, i, name); } else { RefuseStrays(w, i); }
      }
    case Abandon(i) => if i < |w.ops| && !w.ops[i].Finished? { LeaveStrays(w, i); }
    case _ =>
  }

  lemma {:induction false} RefuseStrays(w: World, i: nat)
    requires Inv(w) && i < |w.ops|
    ensures HasStray(Refuse(w, i)) <==> HasStray(w) || w.ops[i].Compensating?
  {
    hide Inv, Leave;
    if w.ops[i].Compensating? { LeaveStrays(w, i); }
  }

  lemma {:induction false} RunStrays(w: World, es: seq<Event>)
    requires Inv(w)
    ensures HasStray(Run(w, es)) <==> HasStray(w) || Leaky(w, es)
    decreases |es|
  {
    hide Inv, Step, HasStray, Leaks;
    if es != [] {
      StepKeeps(w, es[0]);
      StepStrays(w, es[0]);
      RunStrays(Step(w, es[0]), es[1..]);
    }
  }

  ghost predicate AtRest(w: World) { forall i :: 0 <= i < |w.ops| ==> w.ops[i].Finished? }

  lemma {:induction false} RestingOwner(w: World, k: nat)
    requires Inv(w) && AtRest(w) && k in w.files
    ensures IsCommitted(w.tables.rows, k) <==> w.owner[k] != Nobody
  {
  }

  lemma {:induction false} CommittedHasFile(w: World, k: nat)
    requires Inv(w) && IsCommitted(w.tables.rows, k)
    ensures k in w.files
  {
  }

  /**
   * Once every operation has ended, the owned files are exactly those that committed revisions
   * name, exactly when no operation was cancelled, or had its values refused, with a file in hand
   * and no delete failed. A file in hand is one whose write has landed, before the cancellation or,
   * in its thread, after it.
   */
  lemma {:induction false} FilesAtRest(es: seq<Event>)
    requires AtRest(Run(EMPTY, es))
    ensures var w := Run(EMPTY, es);
            (forall k :: k in w.files <==> IsCommitted(w.tables.rows, k)) <==> !Leaky(EMPTY, es)
  {
    var w := Run(EMPTY, es);
    EmptyIsFine();
    RunKeeps(EMPTY, es);
    RunStrays(EMPTY, es);
    hide AtRest, IsCommitted, Run, Leaky;
    forall k | IsCommitted(w.tables.rows, k) ensures k in w.files { CommittedHasFile(w, k); }
    forall k | k in w.files ensures IsCommitted(w.tables.rows, k) <==> w.owner[k] != Nobody { RestingOwner(w, k); }
    assert !HasStray(EMPTY);
    assert w.files.Keys == w.owner.Keys;
  }

  /** A create that is cancelled after its file is written leaves the file behind. */
  lemma {:induction false} CancelledCreateLeaks()
    ensures var w := Run(EMPTY, [Create(0, 0, [1], true), Advance(0, true, 7), Abandon(0)]);
            AtRest(w) && 7 in w.files && !IsCommitted(w.tables.rows, 7)
  {
    var es := [Create(0, 0, [1], true), Advance(0, true, 7), Abandon(0)];
    assert es[1..] == [Advance(0, true, 7), Abandon(0)];
    assert es[1..][1..] == [Abandon(0)];
    assert es[1..][1..][1..] == [];
    var w1 := Step(EMPTY, es[0]);
    var w2 := Step(w1, es[1]);
    var w3 := Step(w2, es[2]);
    assert Run(w3, []) == w3;
    assert Run(w2, [Abandon(0)]) == w3;
    assert Run(w1, es[1..]) == w3;
  }

  /** How many actions an operation still has before it. */
  function Remaining(op: Op): nat {
    match op
    case Finished(_) => 0
    case Compensating(_) => 1
    case Appending(_, _, _, _) => 2
    case Inserting(_, _) => 2
    case Loaded(_, _, _, _, _, _) => 3
    case Drafted(_, _, _) => 3
    case Targeted(_, _, _, _, _) => 4
    case Checked(_, _, _, _) => 5
    case Located(_, _, _, _) => 6
    case Started(_, _, _) => 7
  }

  /** Every action brings its operation nearer to its end, whatever the others do, and only its own. */
  lemma {:induction false} OperationsEnd(w: World, i: nat, ok: bool, name: nat)
    requires i < |w.ops| && !w.ops[i].Finished? && name !in w.files
    ensures var w' := Step(w, Advance(i, ok, name));
            && |w'.ops| == |w.ops|
            && Remaining(w'.ops[i]) < Remaining(w.ops[i])
            && forall j :: 0 <= j < |w.ops| && j != i ==> w'.ops[j] == w.ops[j]
  {
    hide Find, MayAppend, MayCreate, NextRow;
  }
}
