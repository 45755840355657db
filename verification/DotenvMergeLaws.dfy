/**
 * What a merged text says: exactly when it says what is intended, and what an unclosed quote at the end of
 * the target does to the lines that are added. The tail is a dictionary of the keys the target lacks.
 */
module DotenvMergeLaws {
  import opened Text
  import opened Dotenv
  import opened DotenvPrint
  import opened DotenvLines
  import opened DotenvRewrite
  import opened DotenvAppend
  import opened DotenvLaws
  import opened DotenvEdit
  import opened DotenvMerge

  // ---------------------------------------------------------------------------------------------
  // The tail
  // ---------------------------------------------------------------------------------------------

  lemma {:induction false} WithoutMap(bs: Bindings, skip: set<string>)
    ensures ToMap(Without(bs, skip)) == ToMap(bs) - skip
  {
    if bs != [] {
      WithoutMap(bs[1..], skip);
      ToMapAppend(if bs[0].0 in skip then [] else [bs[0]], Without(bs[1..], skip));
      OneKeyMap(bs[0].0, bs[0].1);
      assert [bs[0]] == [(bs[0].0, bs[0].1)];
    }
  }

  lemma {:induction false} WithoutKeysOk(bs: Bindings, skip: set<string>)
    requires KeysOk(bs)
    ensures KeysOk(Without(bs, skip))
  {
    hide IsKey;
    if bs != [] { WithoutKeysOk(bs[1..], skip); }
  }

  lemma {:induction false} DictTail(bs: Bindings)
    requires IsDict(bs) && bs != []
    ensures IsDict(bs[1..]) && bs[0].0 !in ToMap(bs[1..])
  {
    ToMapKeys(bs[1..], bs[0].0);
  }

  lemma {:induction false} DictJoin(a: Bindings, b: Bindings)
    requires IsDict(a) && IsDict(b) && ToMap(a).Keys !! ToMap(b).Keys
    ensures IsDict(a + b)
  {
    hide ToMap;
    var c := a + b;
    forall i, j | 0 <= i < j < |c| ensures c[i].0 != c[j].0 {
      if i < |a| <= j {
        ToMapKeys(a, a[i].0);
        ToMapKeys(b, b[j - |a|].0);
      }
    }
  }

  lemma {:induction false} WithoutDict(bs: Bindings, skip: set<string>)
    requires IsDict(bs)
    ensures IsDict(Without(bs, skip))
  {
    if bs != [] {
      DictTail(bs);
      WithoutDict(bs[1..], skip);
      WithoutMap(bs[1..], skip);
      var head := if bs[0].0 in skip then [] else [bs[0]];
      OneKeyMap(bs[0].0, bs[0].1);
      assert [bs[0]] == [(bs[0].0, bs[0].1)];
      DictJoin(head, Without(bs[1..], skip));
    }
  }

  /** The tail is a dictionary of exactly the keys the target lacks; forced values win. */
  lemma {:induction false} TailFacts(t: string, bundle: Bindings, forced: Bindings)
    requires KeysOk(bundle) && KeysOk(forced) && IsDict(bundle) && IsDict(forced)
    ensures var tail := Tail(t, bundle, forced);
            && KeysOk(tail) && IsDict(tail)
            && ToMap(tail) == ToMap(bundle) + ToMap(forced) - Parse(t).Keys
  {
    hide Parse, ToMap, IsKey, Without;
    var skip := Parse(t).Keys + ToMap(forced).Keys;
    WithoutKeysOk(bundle, skip);
    WithoutKeysOk(forced, Parse(t).Keys);
    WithoutDict(bundle, skip);
    WithoutDict(forced, Parse(t).Keys);
    WithoutMap(bundle, skip);
    WithoutMap(forced, Parse(t).Keys);
    ToMapAppend(Without(bundle, skip), Without(forced, Parse(t).Keys));
    DictJoin(Without(bundle, skip), Without(forced, Parse(t).Keys));
  }

  // ---------------------------------------------------------------------------------------------
  // When the tail is swallowed
  // ---------------------------------------------------------------------------------------------

  /** The target ends in an unclosed quote, and its last line is one the merge keeps. */
  ghost predicate Swallowing(w: Rewrite, t: string) {
    Open(t) && !Rewrites(w, Scan(t)[|Scan(t)| - 1])
  }

  lemma {:induction false} PiecesLast(w: Rewrite, rs: seq<Record>)
    requires rs != [] && Piece(w, rs[|rs| - 1]) != []
    ensures Pieces(w, rs) != []
    ensures var last := Piece(w, rs[|rs| - 1]);
            Pieces(w, rs)[|Pieces(w, rs)| - 1] == last[|last| - 1]
  {
    hide Piece;
    var i := |rs| - 1;
    assert rs == rs[..i] + [rs[i]];
    PiecesAppend(w, rs[..i], [rs[i]]);
    assert Pieces(w, []) == [];
    assert Pieces(w, [rs[i]]) == Piece(w, rs[i]) + Pieces(w, [rs[i]][1..]);
    assert [rs[i]][1..] == [];
  }

  lemma {:induction false} WrittenLastIsClosed(w: Rewrite, r: Record)
    requires w.Supersede? && Rewrites(w, r) && IsKey(r.key)
    ensures Piece(w, r) != [] && !ScanHead(Piece(w, r)[|Piece(w, r)| - 1]).open
  {
    hide ScanHead, IsKey, PrintLine;
    LinesOfScan(r.key, w.values[r.key]);
    assert Complete(Piece(w, r)[|Piece(w, r)| - 1]);
  }

  lemma {:induction false} NothingRewritten(w: Rewrite)
    ensures Scan("") == [] && Rewritten(w, "") == "" && !Open("")
  {
    hide ScanHead;
    ScanNothing();
    assert Pieces(w, []) == [];
  }

  /** A rewritten text is open exactly when the target ends in an open line that is kept. */
  lemma {:induction false} RewrittenOpen(w: Rewrite, t: string)
    requires w.Supersede?
    ensures Open(Rewritten(w, t)) <==> Swallowing(w, t)
  {
    hide Scan, ScanHead, Piece, Pieces, Rewrites, IsKey;
    var rs := Scan(t);
    ScanRewritten(w, t);
    if rs == [] {
      ScanGivesLines(t);
      NothingRewritten(w);
    } else {
      var r := rs[|rs| - 1];
      ScanKeys(t);
      LastPiece(w, r);
      PiecesLast(w, rs);
    }
  }

  lemma {:induction false} LastPiece(w: Rewrite, r: Record)
    requires w.Supersede? && (r.Assignment? ==> IsKey(r.key))
    ensures Piece(w, r) != []
    ensures !Rewrites(w, r) ==> Piece(w, r)[|Piece(w, r)| - 1] == r.raw
    ensures Rewrites(w, r) ==> !ScanHead(Piece(w, r)[|Piece(w, r)| - 1]).open
  {
    hide ScanHead, IsKey;
    if Rewrites(w, r) { WrittenLastIsClosed(w, r); }
  }

  // ---------------------------------------------------------------------------------------------
  // What the merged text says
  // ---------------------------------------------------------------------------------------------

  function AllReadBack(m: map<string, string>): map<string, string> { map k | k in m :: ReadBack(m[k]) }

  lemma {:induction false} ClosedMergeParses(t: string, bundle: Bindings, overwrite: bool, forced: Bindings)
    requires KeysOk(bundle) && KeysOk(forced) && IsDict(bundle) && IsDict(forced)
    requires var w := Supersede(Overrides(bundle, overwrite, forced));
             Tail(t, bundle, forced) == [] || !Swallowing(w, t)
    ensures Parse(Merge(t, bundle, overwrite, forced))
            == NewMap(Supersede(Overrides(bundle, overwrite, forced)), Parse(t))
               + AllReadBack(ToMap(bundle) + ToMap(forced) - Parse(t).Keys)
  {
    hide Binds, ToMap, Tail, KeysOk, IsDict, NewMap, Rewritten, Append, SerializeEnv, Swallowing, Open, ReadAll,
         Overrides;
    var w, tail := Supersede(Overrides(bundle, overwrite, forced)), Tail(t, bundle, forced);
    var m := Rewritten(w, t);
    TailFacts(t, bundle, forced);
    ParseRewritten(w, t);
    RewrittenOpen(w, t);
    ReadAllMap(tail);
    if tail == [] {
      EmptyTail(m);
    } else {
      AppendBinds(m, tail);
      ToMapAppend(Binds(m), ReadAll(tail));
    }
  }

  lemma {:induction false} EmptyTail(m: string)
    ensures Append(m, SerializeEnv([])) == m && ToMap([]) == map[] && ReadAll([]) == []
  {
  }

  /** Every value the merge is to establish is there already, or survives being written. */
  ghost predicate Survives(have: map<string, string>, want: map<string, string>) {
    forall k :: k in want ==> (k in have && have[k] == want[k]) || RoundTrips(want[k])
  }

  function Override(p: map<string, string>, o: map<string, string>): map<string, string> {
    map k | k in p :: if k in o then o[k] else p[k]
  }

  lemma {:induction false} IntendedSplits(t: string, bundle: Bindings, overwrite: bool, forced: Bindings)
    ensures var o := Overrides(bundle, overwrite, forced);
            Intended(t, bundle, overwrite, forced)
            == Override(Parse(t), o) + (ToMap(bundle) + ToMap(forced) - Parse(t).Keys)
  {
    hide Parse, ToMap;
  }

  /** One key of the merged text. */
  lemma {:induction false} MergedValue(p: map<string, string>, o: map<string, string>,
                                       add: map<string, string>, k: string)
    requires p.Keys !! add.Keys && (k in p || k in add)
    ensures var want := Override(p, o) + add;
            var got := NewMap(Supersede(o), p) + AllReadBack(add);
            && k in got && k in want
            && got[k] == if k in p && p[k] == want[k] then want[k] else ReadBack(want[k])
  {
    hide ReadBack, RoundTrips;
  }

  lemma {:induction false} MergedKeys(p: map<string, string>, o: map<string, string>, add: map<string, string>)
    ensures (NewMap(Supersede(o), p) + AllReadBack(add)).Keys == (Override(p, o) + add).Keys == p.Keys + add.Keys
  {
    KeysOfNewMap(Supersede(o), p);
  }

  lemma {:induction false} MergeMeansClosed(p: map<string, string>, o: map<string, string>, add: map<string, string>)
    requires p.Keys !! add.Keys
    ensures NewMap(Supersede(o), p) + AllReadBack(add) == Override(p, o) + add
            <==> Survives(p, Override(p, o) + add)
  {
    hide RoundTrips, NewMap, AllReadBack, Override;
    var want := Override(p, o) + add;
    var got := NewMap(Supersede(o), p) + AllReadBack(add);
    MergedKeys(p, o, add);
    forall k | k in want
      ensures got[k] == want[k] <==> (k in p && p[k] == want[k]) || RoundTrips(want[k])
    {
      MergedValue(p, o, add, k);
    }
  }

  /**
   * The merged text says what is intended (in overwrite mode the bundle over the target, in merge
   * mode the target over the bundle, forced values over both) exactly when no added line can be
   * swallowed by an unclosed quote and every value to be established survives being written.
   */
  lemma {:induction false} MergeMeans(t: string, bundle: Bindings, overwrite: bool, forced: Bindings)
    requires KeysOk(bundle) && KeysOk(forced) && IsDict(bundle) && IsDict(forced)
    ensures var want := Intended(t, bundle, overwrite, forced);
            Parse(Merge(t, bundle, overwrite, forced)) == want
            <==> (Tail(t, bundle, forced) == [] || !Swallowing(Supersede(Overrides(bundle, overwrite, forced)), t))
                 && Survives(Parse(t), want)
  {
    hide Parse, ToMap, Tail, KeysOk, IsDict, NewMap, Merge, Swallowing, Survives, AllReadBack, Override, Overrides;
    var o := Overrides(bundle, overwrite, forced);
    IntendedSplits(t, bundle, overwrite, forced);
    if Tail(t, bundle, forced) == [] || !Swallowing(Supersede(o), t) {
      ClosedMergeParses(t, bundle, overwrite, forced);
      MergeMeansClosed(Parse(t), o, ToMap(bundle) + ToMap(forced) - Parse(t).Keys);
    } else {
      SwallowedMerge(t, bundle, overwrite, forced);
    }
  }

  lemma {:induction false} FirstIsMapped(bs: Bindings)
    requires bs != []
    ensures bs[0].0 in ToMap(bs)
  {
    ToMapKeys(bs, bs[0].0);
  }

  /** If the last line swallows what is added, the first added key is lost. */
  lemma {:induction false} SwallowedMerge(t: string, bundle: Bindings, overwrite: bool, forced: Bindings)
    requires KeysOk(bundle) && KeysOk(forced) && IsDict(bundle) && IsDict(forced)
    requires Tail(t, bundle, forced) != [] && Swallowing(Supersede(Overrides(bundle, overwrite, forced)), t)
    ensures var k := Tail(t, bundle, forced)[0].0;
            k !in Parse(Merge(t, bundle, overwrite, forced)) && k in Intended(t, bundle, overwrite, forced)
            && (k in ToMap(bundle) || k in ToMap(forced))
  {
    hide Parse, ToMap, Tail, KeysOk, NewMap, Rewritten, Append, SerializeEnv, Swallowing, Open, Overrides;
    var w, tail := Supersede(Overrides(bundle, overwrite, forced)), Tail(t, bundle, forced);
    TailFacts(t, bundle, forced);
    FirstIsMapped(tail);
    RewrittenOpen(w, t);
    ParseRewritten(w, t);
    KeysOfNewMap(w, Parse(t));
    OpenAppendLoses(Rewritten(w, t), tail);
  }

  lemma {:induction false} KeysOfNewMap(w: Rewrite, m: map<string, string>)
    requires w.Supersede?
    ensures NewMap(w, m).Keys == m.Keys
  {
  }

  const UNCLOSED := "A=\"x"

  lemma {:induction false} UnclosedHead()
    ensures ScanHead(UNCLOSED).open && ScanHead(UNCLOSED).stop == |UNCLOSED|
    ensures ScanHead(UNCLOSED).binding.Some? && ScanHead(UNCLOSED).binding.value.0 == "A"
  {
    hide ParseLine, Unescape;
    var t := UNCLOSED;
    assert t == "A" + "=" + "\"x";
    ParseWritten("A", "\"x");
    IndexOfAt(t, '\n', 0, 4);
    IndexOfAt(t, '=', 0, 1);
    assert t[..4] == t;
    assert CloseQuote(t, 4, '"') == 4;
    assert CloseQuote(t, 3, '"') == 4;
  }

  /** An unclosed quote at the end of the target swallows the line that was to be added. */
  lemma {:induction false} UnclosedQuoteSwallows()
    ensures "B" !in Parse(Merge(UNCLOSED, [("B", "1")], true, []))
    ensures "B" in Intended(UNCLOSED, [("B", "1")], true, [])
  {
    hide ScanHead, Parse;
    var t, bs := UNCLOSED, [("B", "1")];
    var w := Supersede(Overrides(bs, true, []));
    UnclosedHead();
    ScanSingle(t);
    assert IsKey("B");
    assert ToMap([]) == map[];
    OneKeyMap("B", "1");
    var r := HeadRecord(t);
    assert r.key == "A";
    assert Raws([r]) == [t];
    assert Swallowing(w, t);
    UnclosedBindsA();
    TailFacts(t, bs, []);
    assert "B" in ToMap(Tail(t, bs, []));
    TailIsB(Tail(t, bs, []));
    SwallowedMerge(t, bs, true, []);
  }

  lemma {:induction false} UnclosedBindsA()
    ensures Parse(UNCLOSED).Keys == {"A"}
  {
    hide ScanHead;
    UnclosedHead();
    ScanSingle(UNCLOSED);
    var r := HeadRecord(UNCLOSED);
    OneBinding(r);
    OneKeyMap(r.key, r.value);
  }

  lemma {:induction false} TailIsB(bs: Bindings)
    requires ToMap(bs).Keys == {"B"}
    ensures bs != [] && bs[0].0 == "B"
  {
    if bs != [] { FirstIsMapped(bs); }
  }
}
