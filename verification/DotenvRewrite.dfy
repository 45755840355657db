/** Rewriting a dotenv text record by record: blanking secrets, editing one key, superseding values. */
module DotenvRewrite {
  import opened Options
  import opened Text
  import opened Dotenv
  import opened DotenvPrint
  import opened DotenvLines

  // ---------------------------------------------------------------------------------------------
  // Dictionaries: a list of bindings in order, and the map that a later binding wins in
  // ---------------------------------------------------------------------------------------------

  type Bindings = seq<(string, string)>

  function ToMap(bs: Bindings): map<string, string> {
    if bs == [] then map[] else map[bs[0].0 := bs[0].1] + ToMap(bs[1..])
  }

  /** The items of a Python `dict`: no key twice. */
  ghost predicate IsDict(bs: Bindings) {
    forall i, j :: 0 <= i < j < |bs| ==> bs[i].0 != bs[j].0
  }

  ghost predicate KeysOk(bs: Bindings) { forall i :: 0 <= i < |bs| ==> IsKey(bs[i].0) }

  function BindingOf(r: Record): Bindings { if r.Assignment? then [(r.key, r.value)] else [] }

  function Assignments(rs: seq<Record>): Bindings {
    if rs == [] then [] else BindingOf(rs[0]) + Assignments(rs[1..])
  }

  /** The assignments of a text, in order. */
  function Binds(t: string): Bindings { Assignments(Scan(t)) }

  function Parse(t: string): map<string, string> { ToMap(Binds(t)) }

  lemma {:induction false} ToMapAppend(a: Bindings, b: Bindings)
    ensures ToMap(a + b) == ToMap(a) + ToMap(b)
  {
    if a == [] {
      assert a + b == b;
    } else {
      assert (a + b)[1..] == a[1..] + b;
      ToMapAppend(a[1..], b);
      MapsAssociate(map[a[0].0 := a[0].1], ToMap(a[1..]), ToMap(b));
    }
  }

  lemma {:induction false} MapsAssociate(m: map<string, string>, n: map<string, string>, o: map<string, string>)
    ensures m + n + o == m + (n + o)
  {
  }

  lemma {:induction false} AssignmentsAppend(a: seq<Record>, b: seq<Record>)
    ensures Assignments(a + b) == Assignments(a) + Assignments(b)
  {
    if a == [] {
      assert a + b == b;
    } else {
      hide BindingOf;
      assert (a + b)[1..] == a[1..] + b;
      AssignmentsAppend(a[1..], b);
    }
  }

  lemma {:induction false} ToMapKeys(bs: Bindings, k: string)
    ensures k in ToMap(bs) <==> exists i :: 0 <= i < |bs| && bs[i].0 == k
  {
    if bs != [] {
      ToMapKeys(bs[1..], k);
      if k in ToMap(bs[1..]) {
        var i :| 0 <= i < |bs| - 1 && bs[1..][i].0 == k;
        assert bs[i + 1].0 == k;
      }
      if i :| 0 <= i < |bs| && bs[i].0 == k && bs[0].0 != k {
        assert bs[1..][i - 1].0 == k;
      }
    }
  }

  /** A dictionary maps each of its keys to the value listed with it. */
  lemma {:induction false} ToMapOfDict(bs: Bindings, i: nat)
    requires IsDict(bs) && i < |bs|
    ensures bs[i].0 in ToMap(bs) && ToMap(bs)[bs[i].0] == bs[i].1
  {
    if i == 0 {
      ToMapKeys(bs[1..], bs[0].0);
    } else {
      ToMapOfDict(bs[1..], i - 1);
    }
  }

  /** Reading one more record sets its key, if it has one. */
  lemma {:induction false} BindOne(rs: seq<Record>, i: nat)
    requires i < |rs|
    ensures ToMap(Assignments(rs[..i + 1]))
            == if rs[i].Raw? then ToMap(Assignments(rs[..i]))
               else ToMap(Assignments(rs[..i]))[rs[i].key := rs[i].value]
  {
    assert rs[..i + 1] == rs[..i] + [rs[i]];
    AssignmentsAppend(rs[..i], [rs[i]]);
    assert Assignments([rs[i]]) == BindingOf(rs[i]);
    ToMapAppend(Assignments(rs[..i]), BindingOf(rs[i]));
  }

  method ParseEnv(text: string) returns (values: map<string, string>)
    ensures values == Parse(text)
  {
    var records := ScanEnv(text);
    values := map[];
    for i := 0 to |records|
      invariant values == ToMap(Assignments(records[..i]))
    {
      BindOne(records, i);
      if records[i].Assignment? {
        values := values[records[i].key := records[i].value];
      }
    }
    assert records[..|records|] == records;
  }

  // ---------------------------------------------------------------------------------------------
  // One-line-per-record rewriting
  // ---------------------------------------------------------------------------------------------

  const SECRET_MARKERS := ["_API_KEY", "_SECRET", "_TOKEN", "PASSWORD", "ACCESS_KEY", "PRIVATE_KEY"]

  predicate Contains(s: string, part: string) {
    exists i :: 0 <= i <= |s| && part <= s[i..]
  }

  predicate EndsWith(s: string, end: string) { |end| <= |s| && s[|s| - |end|..] == end }

  predicate IsSecretKey(key: string) {
    var upper := Upper(key);
    !EndsWith(upper, "_PATH") && exists i :: 0 <= i < |SECRET_MARKERS| && Contains(upper, SECRET_MARKERS[i])
  }

  /** The three rewrites: blank the secrets, set or remove one key, replace by a key's new value. */
  datatype Rewrite =
    | Blank
    | Edit(key: string, value: Option<string>)
    | Supersede(values: map<string, string>)

  /** The lines a written value really makes: a value that does not round-trip adds an empty one. */
  function LinesOf(key: string, value: string): seq<string> {
    if RoundTrips(value) then [PrintLine(key, value)] else [PrintLine(key, ReadBack(value)), "\n"]
  }

  /** Whether the rewrite writes (or removes) an assignment of `k` that holds `v`. */
  predicate Touches(w: Rewrite, k: string, v: string) {
    match w
    case Blank => IsSecretKey(k)
    case Edit(key, _) => k == key
    case Supersede(values) => k in values && values[k] != v
  }

  /** What it writes there; None removes the assignment. */
  function Target(w: Rewrite, k: string): Option<string> {
    match w
    case Blank => Some("")
    case Edit(_, value) => value
    case Supersede(values) => if k in values then Some(values[k]) else None
  }

  predicate Rewrites(w: Rewrite, r: Record) { r.Assignment? && Touches(w, r.key, r.value) }

  function Piece(w: Rewrite, r: Record): seq<string> {
    if !Rewrites(w, r) then [r.raw]
    else if Target(w, r.key).None? then []
    else LinesOf(r.key, Target(w, r.key).value)
  }

  function Pieces(w: Rewrite, rs: seq<Record>): seq<string> {
    if rs == [] then [] else Piece(w, rs[0]) + Pieces(w, rs[1..])
  }

  function Rewritten(w: Rewrite, t: string): string { Concat(Pieces(w, Scan(t))) }

  lemma {:induction false} PiecesAppend(w: Rewrite, a: seq<Record>, b: seq<Record>)
    ensures Pieces(w, a + b) == Pieces(w, a) + Pieces(w, b)
  {
    if a == [] {
      assert a + b == b;
    } else {
      assert (a + b)[1..] == a[1..] + b;
      PiecesAppend(w, a[1..], b);
    }
  }

  /** The record a printed line scans to. */
  function Printed(k: string, v: string): Record { Assignment(PrintLine(k, v), k, v) }

  lemma {:induction false} PrintedLine(k: string, v: string)
    requires IsKey(k) && RoundTrips(v)
    ensures Complete(PrintLine(k, v)) && HeadRecord(PrintLine(k, v)) == Printed(k, v)
  {
    hide ScanHead, SerializeValue, RoundTrips, IsKey;
    PrintedLineScans(k, v);
    var p := PrintLine(k, v);
    assert p[..|p|] == p;
  }

  lemma {:induction false} EmptyLine()
    ensures Complete("\n") && HeadRecord("\n") == Raw("\n")
  {
  }

  /** A rewritten line, as bytes and as records. */
  lemma {:induction false} LinesOfScan(k: string, v: string)
    requires IsKey(k)
    ensures AllComplete(LinesOf(k, v)) && Concat(LinesOf(k, v)) == PrintLine(k, v)
    ensures Records(LinesOf(k, v)) == [Printed(k, ReadBack(v))] + if RoundTrips(v) then [] else [Raw("\n")]
  {
    hide ScanHead, PrintLine, RoundTrips, Complete, HeadRecord, IsKey;
    PrintedLine(k, ReadBack(v));
    EmptyLine();
    var ps := LinesOf(k, v);
    assert Concat([ps[0]]) == ps[0];
    assert Records([]) == [];
    if !RoundTrips(v) {
      LineOfBadValue(k, v);
      assert ps[1..] == ["\n"];
      assert Concat(["\n"]) == "\n";
      assert Records(["\n"]) == [Raw("\n")];
    }
  }

  // ---------------------------------------------------------------------------------------------
  // Rewriting commutes with scanning
  // ---------------------------------------------------------------------------------------------

  /** The records a record turns into. */
  function Image(w: Rewrite, r: Record): seq<Record> {
    if !Rewrites(w, r) then [r]
    else if Target(w, r.key).None? then []
    else Wrote(r.key, Target(w, r.key).value)
  }

  function Wrote(k: string, v: string): seq<Record> {
    [Printed(k, ReadBack(v))] + if RoundTrips(v) then [] else [Raw("\n")]
  }

  function Images(w: Rewrite, rs: seq<Record>): seq<Record> {
    if rs == [] then [] else Image(w, rs[0]) + Images(w, rs[1..])
  }

  lemma {:induction false} LinesAppend(ps: seq<string>, qs: seq<string>)
    requires AllComplete(ps) && Lines(qs)
    ensures Lines(ps + qs)
  {
    hide Complete, Single;
    if qs == [] {
      assert ps + qs == ps;
      AllCompleteIsLines(ps);
    } else {
      assert (ps + qs)[..|ps + qs| - 1] == ps + qs[..|qs| - 1];
    }
  }

  lemma {:induction false} PieceScans(w: Rewrite, p: string)
    requires Single(p)
    ensures var r := HeadRecord(p);
            && Records(Piece(w, r)) == Image(w, r)
            && Lines(Piece(w, r))
            && (Complete(p) || Rewrites(w, r) ==> AllComplete(Piece(w, r)))
  {
    hide ScanHead, PrintLine, RoundTrips, Complete, Touches, Target, IsKey, LinesOf;
    var r := HeadRecord(p);
    ScanSingle(p);
    assert Records([p]) == [r] by { assert Records([]) == []; }
    if Rewrites(w, r) {
      if Target(w, r.key).Some? { LinesOfScan(r.key, Target(w, r.key).value); }
      AllCompleteIsLines(Piece(w, r));
    }
  }

  lemma {:induction false} PiecesScan(w: Rewrite, ps: seq<string>)
    requires Lines(ps)
    ensures Lines(Pieces(w, Records(ps)))
    ensures Records(Pieces(w, Records(ps))) == Images(w, Records(ps))
  {
    hide Piece, Image, Complete, Single, HeadRecord;
    if ps != [] {
      var r, rest := HeadRecord(ps[0]), ps[1..];
      assert Records(ps)[1..] == Records(rest);
      if |ps| == 1 {
        assert rest == [];
      } else {
        LinesTail(ps);
        CompleteIsSingle(ps[0]);
      }
      PieceScans(w, ps[0]);
      PiecesScan(w, rest);
      RecordsAppend(Piece(w, r), Pieces(w, Records(rest)));
      if |ps| == 1 {
        assert Pieces(w, Records(ps)) == Piece(w, r);
      } else {
        LinesAppend(Piece(w, r), Pieces(w, Records(rest)));
      }
    }
  }

  /** For every text, open quotes and all: scanning a rewritten text gives the rewritten records. */
  lemma {:induction false} ScanRewritten(w: Rewrite, t: string)
    ensures Scan(Rewritten(w, t)) == Images(w, Scan(t))
    ensures Lines(Pieces(w, Scan(t)))
    ensures Raws(Scan(Rewritten(w, t))) == Pieces(w, Scan(t))
  {
    ScanGivesLines(t);
    PiecesScan(w, Raws(Scan(t)));
    ScanLines(Pieces(w, Scan(t)));
  }

  /** What a rewrite does to the value of a key; None removes it. */
  function NewValue(w: Rewrite, k: string, v: string): Option<string> {
    if !Touches(w, k, v) then Some(v)
    else if Target(w, k).None? then None
    else Some(ReadBack(Target(w, k).value))
  }

  function NewBinding(w: Rewrite, b: (string, string)): Bindings {
    var v := NewValue(w, b.0, b.1);
    if v.Some? then [(b.0, v.value)] else []
  }

  function NewBindings(w: Rewrite, bs: Bindings): Bindings {
    if bs == [] then [] else NewBinding(w, bs[0]) + NewBindings(w, bs[1..])
  }

  function NewMap(w: Rewrite, m: map<string, string>): map<string, string> {
    map k | k in m && NewValue(w, k, m[k]).Some? :: NewValue(w, k, m[k]).value
  }

  lemma {:induction false} ImageBinds(w: Rewrite, r: Record)
    ensures Assignments(Image(w, r)) == NewBindings(w, BindingOf(r))
  {
    hide Touches, Target, PrintLine;
    assert Assignments([]) == [];
    assert NewBindings(w, []) == [];
    if Rewrites(w, r) && Target(w, r.key).Some? && !RoundTrips(Target(w, r.key).value) {
      assert Assignments([Raw("\n")]) == [];
    }
  }

  lemma {:induction false} ImagesBind(w: Rewrite, rs: seq<Record>)
    ensures Assignments(Images(w, rs)) == NewBindings(w, Assignments(rs))
  {
    hide Image, BindingOf, NewBinding;
    if rs != [] {
      ImageBinds(w, rs[0]);
      ImagesBind(w, rs[1..]);
      AssignmentsAppend(Image(w, rs[0]), Images(w, rs[1..]));
      NewBindingsAppend(w, BindingOf(rs[0]), Assignments(rs[1..]));
    }
  }

  lemma {:induction false} NewBindingsAppend(w: Rewrite, a: Bindings, b: Bindings)
    ensures NewBindings(w, a + b) == NewBindings(w, a) + NewBindings(w, b)
  {
    hide NewBinding;
    if a == [] {
      assert a + b == b;
    } else {
      assert (a + b)[1..] == a[1..] + b;
      NewBindingsAppend(w, a[1..], b);
    }
  }

  /** Removal goes by the key alone. */
  lemma {:induction false} RemovalIgnoresValue(w: Rewrite, k: string, v: string, v': string)
    ensures NewValue(w, k, v).None? <==> NewValue(w, k, v').None?
  {
  }

  lemma {:induction false} NewMapStep(w: Rewrite, b: (string, string), m: map<string, string>)
    ensures NewMap(w, map[b.0 := b.1] + m) == ToMap(NewBinding(w, b)) + NewMap(w, m)
  {
    hide NewValue;
    if b.0 in m { RemovalIgnoresValue(w, b.0, b.1, m[b.0]); }
    assert ToMap([]) == map[];
    var v := NewValue(w, b.0, b.1);
    if v.Some? { assert ToMap([(b.0, v.value)]) == map[b.0 := v.value]; }
  }

  lemma {:induction false} NewBindingsMap(w: Rewrite, bs: Bindings)
    ensures ToMap(NewBindings(w, bs)) == NewMap(w, ToMap(bs))
  {
    if bs != [] {
      hide NewBinding, NewMap;
      NewBindingsMap(w, bs[1..]);
      NewMapStep(w, bs[0], ToMap(bs[1..]));
      ToMapAppend(NewBinding(w, bs[0]), NewBindings(w, bs[1..]));
    }
  }

  /** Parsing a rewritten text: every key's value is rewritten, whatever the layout. */
  lemma {:induction false} ParseRewritten(w: Rewrite, t: string)
    ensures Parse(Rewritten(w, t)) == NewMap(w, Parse(t))
  {
    ScanRewritten(w, t);
    ImagesBind(w, Scan(t));
    NewBindingsMap(w, Binds(t));
  }
}
