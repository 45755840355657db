/** The artifact revision chain: creates, updates and rollbacks in any interleaving. */
module ArtifactRevisions {
  import opened Options

  // An operation reads, writes a file, compares and sets, and compensates, one awaited action at a time.

  type Bytes = seq<bv8>

  /** Content lives in the row itself or in a file the revision owns. */
  datatype Content = Inline(text: Bytes) | Stored(ref: nat)

  datatype Revision = Revision(id: nat, artifact: nat, number: nat, parent: Option<nat>, rollbackOf: Option<nat>,
                               content: Content)

  /** The two tables: every artifact's current revision, and the revisions in insertion order. */
  datatype Tables = Tables(current: map<nat, nat>, rows: seq<Revision>)

  // ---------------------------------------------------------------------------------------------
  // The registry
  // ---------------------------------------------------------------------------------------------

  /** The rows of one artifact. */
  function History(rows: seq<Revision>, artifact: nat): seq<Revision> {
    if rows == [] then []
    else
      var init, last := rows[..|rows| - 1], rows[|rows| - 1];
      History(init, artifact) + if last.artifact == artifact then [last] else []
  }

  /** `MAX(revision_number)`, or 0. */
  function MaxNumber(rows: seq<Revision>, artifact: nat): nat {
    if rows == [] then 0
    else
      var m, last := MaxNumber(rows[..|rows| - 1], artifact), rows[|rows| - 1];
      if last.artifact == artifact && last.number > m then last.number else m
  }

  /** `get_revision`: looked up by artifact and id. */
  function Find(rows: seq<Revision>, artifact: nat, id: nat): (r: Option<Revision>)
    ensures r.Some? ==> r.value in rows && r.value.artifact == artifact && r.value.id == id
    ensures r.None? ==> forall i :: 0 <= i < |rows| ==> rows[i].artifact != artifact || rows[i].id != id
  {
    if rows == [] then None
    else if rows[0].artifact == artifact && rows[0].id == id then Some(rows[0])
    else Find(rows[1..], artifact, id)
  }

  predicate IdTaken(rows: seq<Revision>, id: nat) { exists i :: 0 <= i < |rows| && rows[i].id == id }

  /** What `append_revision` demands before it inserts. */
  predicate MayAppend(t: Tables, artifact: nat, row: Revision, expected: nat) {
    && row.artifact == artifact
    && artifact in t.current && t.current[artifact] == expected
    && row.parent == Some(expected)
    && row.number == MaxNumber(t.rows, artifact) + 1
    && Find(t.rows, artifact, expected).Some?
    && (row.rollbackOf.Some? ==> Find(t.rows, artifact, row.rollbackOf.value).Some?)
    && !IdTaken(t.rows, row.id)
  }

  predicate MayCreate(t: Tables, row: Revision) {
    row.number == 1 && row.parent.None? && row.rollbackOf.None?
    && row.artifact !in t.current && !IdTaken(t.rows, row.id)
  }

  function Insert(t: Tables, row: Revision): Tables {
    Tables(t.current[row.artifact := row.id], t.rows + [row])
  }

  /** The registry as it runs: each call is one transaction. */
  class Registry {
    var current: map<nat, nat>
    var rows: seq<Revision>

    function State(): Tables
      reads this
    {
      Tables(current, rows)
    }

    constructor ()
      ensures State() == Tables(map[], [])
    {
      current, rows := map[], [];
    }

    method HighestNumber(artifact: nat) returns (highest: nat)
      ensures highest == MaxNumber(rows, artifact)
    {
      highest := 0;
      for i := 0 to |rows|
        invariant highest == MaxNumber(rows[..i], artifact)
      {
        assert rows[..i + 1][..i] == rows[..i];
        if rows[i].artifact == artifact && rows[i].number > highest { highest := rows[i].number; }
      }
      assert rows[..|rows|] == rows;
    }

    method CreateWithInitial(initial: Revision) returns (ok: bool)
      modifies this
      ensures ok <==> old(MayCreate(State(), initial))
      ensures State() == if ok then Insert(old(State()), initial) else old(State())
    {
      if initial.number != 1 || initial.parent.Some? || initial.rollbackOf.Some? { return false; }
      if initial.artifact in current || IdTaken(rows, initial.id) { return false; }
      current := current[initial.artifact := initial.id];
      rows := rows + [initial];
      return true;
    }

    method Append(artifact: nat, row: Revision, expected: nat) returns (ok: bool)
      modifies this
      ensures ok <==> old(MayAppend(State(), artifact, row, expected))
      ensures State() == if ok then Insert(old(State()), row) else old(State())
    {
      if row.artifact != artifact || artifact !in current { return false; }
      if current[artifact] != expected { return false; }
      if row.parent != Some(current[artifact]) { return false; }
      var highest := HighestNumber(artifact);
      if row.number != highest + 1 { return false; }
      if Find(rows, artifact, row.parent.value).None? { return false; }
      if row.rollbackOf.Some? && Find(rows, artifact, row.rollbackOf.value).None? { return false; }
      if IdTaken(rows, row.id) { return false; }
      rows := rows + [row];
      current := current[artifact := row.id];
      return true;
    }
  }

  // ---------------------------------------------------------------------------------------------
  // Operations in flight
  // ---------------------------------------------------------------------------------------------

  /** What an update writes, or which revision a rollback goes back to. */
  datatype Change = Update(id: nat, payload: Bytes, file: bool) | Rollback(id: nat, target: nat)

  /** Where an operation stands; each constructor names what it has in hand for its next action. */
  datatype Op =
    | Drafted(artifact: nat, id: nat, payload: Bytes)
    | Inserting(row: Revision, temp: Option<nat>)
    | Started(artifact: nat, expected: nat, change: Change)
    | Located(artifact: nat, expected: nat, change: Change, currentId: nat)
    | Checked(artifact: nat, expected: nat, change: Change, base: Revision)
    | Targeted(artifact: nat, expected: nat, id: nat, base: Revision, target: Revision)
    | Loaded(artifact: nat, expected: nat, id: nat, base: Revision, source: Option<Revision>, payload: Bytes)
    | Appending(artifact: nat, expected: nat, row: Revision, temp: Option<nat>)
    | Compensating(ref: nat)
    | Finished(committed: Option<nat>)

  /** Who answers for a file; kept only to state what happens to files. */
  datatype Owner = ByOp(op: nat) | ByRevision | Nobody

  datatype World = World(tables: Tables, files: map<nat, Bytes>, owner: map<nat, Owner>, ops: seq<Op>)

  datatype Event =
    | Create(artifact: nat, id: nat, payload: Bytes, file: bool)
    | Revise(artifact: nat, expected: nat, change: Change)
    /** An operation takes its next action, if the outside world lets it; a generated file name is new. */
    | Advance(op: nat, ok: bool, name: nat)
    /**
     * An operation is cancelled, or its revision value is invalid: it stops without compensating. The
     * calls of store and registry run in threads, which a cancellation does not stop: a write that lands
     * after its await was cancelled is that action of the operation, followed by this event.
     */
    | Abandon(op: nat)

  const EMPTY := World(Tables(map[], []), map[], map[], [])

  function HeldBy(op: Op): Option<nat> {
    match op
    case Inserting(_, temp) => temp
    case Appending(_, _, _, temp) => temp
    case Compensating(ref) => Some(ref)
    case _ => None
  }

  function SetOp(w: World, i: nat, op: Op): World
    requires i < |w.ops|
  {
    w.(ops := w.ops[i := op])
  }

  function Fail(w: World, i: nat, temp: Option<nat>): World
    requires i < |w.ops|
  {
    SetOp(w, i, if temp.Some? then Compensating(temp.value) else Finished(None))
  }

  /** `write_atomic`: a new file under a generated name. */
  function WriteFile(w: World, i: nat, ref: nat, payload: Bytes, op: Op): World
    requires i < |w.ops|
  {
    SetOp(w, i, op).(files := w.files[ref := payload], owner := w.owner[ref := ByOp(i)])
  }

  function Commit(w: World, i: nat, row: Revision, temp: Option<nat>): World
    requires i < |w.ops|
  {
    SetOp(w, i, Finished(Some(row.id))).(
    tables := Insert(w.tables, row),
    owner := if temp.Some? then w.owner[temp.value := ByRevision] else w.owner)
  }

  function DeleteFile(w: World, i: nat, ref: nat): World
    requires i < |w.ops|
  {
    SetOp(w, i, Finished(None)).(files := w.files - {ref}, owner := w.owner - {ref})
  }

  /** The operation ends and leaves its file, if it had one, behind. */
  function Leave(w: World, i: nat): World
    requires i < |w.ops|
  {
    var temp := HeldBy(w.ops[i]);
    SetOp(w, i, Finished(None)).(owner := if temp.Some? then w.owner[temp.value := Nobody] else w.owner)
  }

  function NextRow(artifact: nat, id: nat, base: Revision, rollbackOf: Option<nat>, content: Content): Revision {
    Revision(id, artifact, base.number + 1, Some(base.id), rollbackOf, content)
  }

  /** After the current revision has been read: conflict, or go on to the change. */
  function Check(w: World, i: nat, op: Op): World
    requires i < |w.ops| && op.Located?
  {
    var found := Find(w.tables.rows, op.artifact, op.currentId);
    if found.None? || op.expected != found.value.id then Fail(w, i, None)
    else SetOp(w, i, Checked(op.artifact, op.expected, op.change, found.value))
  }

  /** After the policy has let the edit through. */
  function Prepare(w: World, i: nat, op: Op): World
    requires i < |w.ops| && op.Checked?
  {
    match op.change
    case Update(id, payload, file) =>
      SetOp(w, i, if file then Loaded(op.artifact, op.expected, id, op.base, None, payload)
                  else Appending(op.artifact, op.expected,
                                 NextRow(op.artifact, id, op.base, None, Inline(payload)), None))
    case Rollback(id, target) =>
      var found := Find(w.tables.rows, op.artifact, target);
      if found.None? then Fail(w, i, None)
      else SetOp(w, i, Targeted(op.artifact, op.expected, id, op.base, found.value))
  }

  /** A rollback copies inline content, and reads a file to copy it. */
  function Copy(w: World, i: nat, op: Op): World
    requires i < |w.ops| && op.Targeted?
  {
    match op.target.content
    case Inline(_) =>
      SetOp(w, i, Appending(op.artifact, op.expected,
                            NextRow(op.artifact, op.id, op.base, Some(op.target.id), op.target.content), None))
    case Stored(ref) =>
      if ref !in w.files then Fail(w, i, None)
      else SetOp(w, i, Loaded(op.artifact, op.expected, op.id, op.base, Some(op.target), w.files[ref]))
  }

  function Write(w: World, i: nat, op: Op, name: nat): World
    requires i < |w.ops| && op.Loaded?
  {
    var rollbackOf := if op.source.Some? then Some(op.source.value.id) else None;
    WriteFile(w, i, name, op.payload,
              Appending(op.artifact, op.expected, NextRow(op.artifact, op.id, op.base, rollbackOf, Stored(name)),
                        Some(name)))
  }

  function Draft(w: World, i: nat, op: Op, name: nat): World
    requires i < |w.ops| && op.Drafted?
  {
    WriteFile(w, i, name, op.payload,
              Inserting(Revision(op.id, op.artifact, 1, None, None, Stored(name)), Some(name)))
  }

  function Act(w: World, i: nat, name: nat): World
    requires i < |w.ops|
  {
    var op := w.ops[i];
    match op
    case Drafted(_, _, _) => Draft(w, i, op, name)
    case Inserting(row, temp) =>
      if MayCreate(w.tables, row) then Commit(w, i, row, temp) else Fail(w, i, temp)
    case Started(artifact, expected, change) =>
      if artifact !in w.tables.current then Fail(w, i, None)
      else SetOp(w, i, Located(artifact, expected, change, w.tables.current[artifact]))
    case Located(_, _, _, _) => Check(w, i, op)
    case Checked(_, _, _, _) => Prepare(w, i, op)
    case Targeted(_, _, _, _, _) => Copy(w, i, op)
    case Loaded(_, _, _, _, _, _) => Write(w, i, op, name)
    case Appending(artifact, expected, row, temp) =>
      if MayAppend(w.tables, artifact, row, expected) then Commit(w, i, row, temp) else Fail(w, i, temp)
    case Compensating(ref) => DeleteFile(w, i, ref)
    case Finished(_) => w
  }

  /** The outside world refuses the action: nothing is done, and a written file is compensated. */
  function Refuse(w: World, i: nat): World
    requires i < |w.ops|
  {
    match w.ops[i]
    case Compensating(_) => Leave(w, i)
    case Finished(_) => w
    case op => Fail(w, i, HeldBy(op))
  }

  predicate WritesFile(op: Op) { op.Drafted? || op.Loaded? }

  function Begin(w: World, op: Op): World { w.(ops := w.ops + [op]) }

  function Step(w: World, e: Event): World {
    match e
    case Create(artifact, id, payload, file) =>
      Begin(w, if file then Drafted(artifact, id, payload)
               else Inserting(Revision(id, artifact, 1, None, None, Inline(payload)), None))
    case Revise(artifact, expected, change) => Begin(w, Started(artifact, expected, change))
    case Advance(i, ok, name) =>
      if i >= |w.ops| || (WritesFile(w.ops[i]) && name in w.files) then w
      else if ok then Act(w, i, name)
      else Refuse(w, i)
    case Abandon(i) =>
      if i >= |w.ops| || w.ops[i].Finished? then w else Leave(w, i)
  }

  function Run(w: World, es: seq<Event>): World
    decreases |es|
  {
    if es == [] then w else Run(Step(w, es[0]), es[1..])
  }

  // ---------------------------------------------------------------------------------------------
  // The invariant
  // ---------------------------------------------------------------------------------------------

  /** What a revision's content is; None if its file is gone. */
  function BytesOf(files: map<nat, Bytes>, content: Content): Option<Bytes> {
    match content
    case Inline(text) => Some(text)
    case Stored(ref) => if ref in files then Some(files[ref]) else None
  }

  /** Numbered from 1, each revision on top of the one before it. */
  ghost predicate Chain(h: seq<Revision>) { forall i :: 0 <= i < |h| ==> Link(h, i) }

  ghost predicate Link(h: seq<Revision>, i: nat)
    requires i < |h|
  {
    h[i].number == i + 1 && h[i].parent == if i == 0 then None else Some(h[i - 1].id)
  }

  ghost predicate ChainsOk(t: Tables) {
    forall a :: ChainOk(t, a)
  }

  ghost predicate ChainOk(t: Tables, a: nat) {
    var h := History(t.rows, a);
    Chain(h) && (a in t.current <==> h != []) && (h != [] ==> h[|h| - 1].id == t.current[a])
  }

  ghost predicate IdsDistinct(rows: seq<Revision>) {
    forall i, j :: 0 <= i < j < |rows| ==> rows[i].id != rows[j].id
  }

  /** Every committed file is there, marked as committed, and belongs to one revision. */
  ghost predicate FilesOk(w: World) {
    var rows := w.tables.rows;
    && w.files.Keys == w.owner.Keys
    && (forall i :: 0 <= i < |rows| && rows[i].content.Stored? ==>
          rows[i].content.ref in w.owner && w.owner[rows[i].content.ref] == ByRevision)
    && (forall i, j :: 0 <= i < j < |rows| && rows[i].content.Stored? && rows[j].content.Stored? ==>
          rows[i].content.ref != rows[j].content.ref)
  }

  /** Every owner named for a file is the one that has it. */
  ghost predicate OwnersOk(w: World) {
    forall k :: k in w.owner ==> OwnerOk(w, k)
  }

  ghost predicate OwnerOk(w: World, k: nat)
    requires k in w.owner
  {
    match w.owner[k]
    case ByOp(i) => i < |w.ops| && HeldBy(w.ops[i]) == Some(k)
    case ByRevision => IsCommitted(w.tables.rows, k)
    case Nobody => true
  }

  ghost predicate IsCommitted(rows: seq<Revision>, ref: nat) {
    exists i :: 0 <= i < |rows| && rows[i].content == Stored(ref)
  }

  ghost predicate RowIn(rows: seq<Revision>, artifact: nat, r: Revision) {
    r in rows && r.artifact == artifact
  }

  /** A row about to be inserted owns what the operation holds, and copies what it says it copies. */
  ghost predicate RowOk(w: World, row: Revision, temp: Option<nat>) {
    && (temp.Some? ==> row.content == Stored(temp.value))
    && (temp.None? ==> row.content.Inline?)
    && (row.rollbackOf.Some? ==> CopiesIn(w.tables.rows, w.files, row))
  }

  ghost predicate CopiesIn(rows: seq<Revision>, files: map<nat, Bytes>, row: Revision) {
    row.rollbackOf.Some?
    && exists i :: 0 <= i < |rows| && rows[i].id == row.rollbackOf.value && rows[i].artifact == row.artifact
                   && BytesOf(files, rows[i].content) == BytesOf(files, row.content)
  }

  ghost predicate OpOk(w: World, i: nat)
    requires i < |w.ops|
  {
    && (HeldBy(w.ops[i]).Some? ==> HeldBy(w.ops[i]).value in w.owner && w.owner[HeldBy(w.ops[i]).value] == ByOp(i))
    && match w.ops[i]
       case Inserting(row, temp) => RowOk(w, row, temp)
       case Targeted(artifact, _, _, _, target) => RowIn(w.tables.rows, artifact, target)
       case Loaded(artifact, _, _, _, source, payload) =>
         source.Some? ==> RowIn(w.tables.rows, artifact, source.value)
                          && BytesOf(w.files, source.value.content) == Some(payload)
       case Appending(artifact, _, row, temp) => row.artifact == artifact && RowOk(w, row, temp)
       case Finished(committed) => committed.Some? ==> IdTaken(w.tables.rows, committed.value)
       case _ => true
  }

  ghost predicate OpsOk(w: World) { forall i :: 0 <= i < |w.ops| ==> OpOk(w, i) }

  /** Every committed rollback holds the bytes of an earlier revision of the same artifact. */
  ghost predicate RollbacksOk(rows: seq<Revision>, files: map<nat, Bytes>) {
    forall j :: 0 <= j < |rows| && rows[j].rollbackOf.Some? ==> CopiesIn(rows[..j], files, rows[j])
  }

  ghost predicate Inv(w: World) {
    ChainsOk(w.tables) && IdsDistinct(w.tables.rows) && FilesOk(w) && OwnersOk(w) && OpsOk(w)
    && RollbacksOk(w.tables.rows, w.files)
  }
}
