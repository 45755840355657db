/** Merging a bundle's values into a dotenv text: the loops, and the function on texts they compute. */
module DotenvMerge {
  import opened Options
  import opened Text
  import opened Dotenv
  import opened DotenvPrint
  import opened DotenvLines
  import opened DotenvRewrite
  import opened DotenvAppend
  import opened DotenvLaws
  import opened DotenvEdit

  // ---------------------------------------------------------------------------------------------
  // The merge
  // ---------------------------------------------------------------------------------------------

  /** The values that replace the target's own, in place. */
  function Overrides(bundle: Bindings, overwrite: bool, forced: Bindings): map<string, string> {
    if overwrite then ToMap(bundle) + ToMap(forced) else ToMap(forced)
  }

  function Without(bs: Bindings, skip: set<string>): Bindings {
    if bs == [] then []
    else (if bs[0].0 in skip then [] else [bs[0]]) + Without(bs[1..], skip)
  }

  /** The bindings the target has no line for; they are added at the end. */
  function Tail(t: string, bundle: Bindings, forced: Bindings): Bindings {
    Without(bundle, Parse(t).Keys + ToMap(forced).Keys) + Without(forced, Parse(t).Keys)
  }

  function Merge(t: string, bundle: Bindings, overwrite: bool, forced: Bindings): string {
    Append(Rewritten(Supersede(Overrides(bundle, overwrite, forced)), t), SerializeEnv(Tail(t, bundle, forced)))
  }

  /** What the merged text is meant to say. */
  function Intended(t: string, bundle: Bindings, overwrite: bool, forced: Bindings): map<string, string> {
    if overwrite then Parse(t) + ToMap(bundle) + ToMap(forced) else ToMap(bundle) + Parse(t) + ToMap(forced)
  }

  lemma {:induction false} SerializeSnoc(bs: Bindings, b: (string, string))
    ensures SerializeEnv(bs + [b]) == SerializeEnv(bs) + PrintLine(b.0, b.1)
  {
    hide PrintLine;
    SerializeAppend(bs, [b]);
    assert [b] == [(b.0, b.1)];
    SerializeOne(b.0, b.1);
  }

  lemma {:induction false} SerializeAppend(a: Bindings, b: Bindings)
    ensures SerializeEnv(a + b) == SerializeEnv(a) + SerializeEnv(b)
  {
    hide PrintLine;
    if a == [] {
      assert a + b == b;
    } else {
      assert (a + b)[1..] == a[1..] + b;
      SerializeAppend(a[1..], b);
    }
  }

  lemma {:induction false} WithoutAppend(a: Bindings, b: Bindings, skip: set<string>)
    ensures Without(a + b, skip) == Without(a, skip) + Without(b, skip)
  {
    if a == [] {
      assert a + b == b;
    } else {
      assert (a + b)[1..] == a[1..] + b;
      WithoutAppend(a[1..], b, skip);
    }
  }

  lemma {:induction false} WithoutSnoc(bs: Bindings, i: nat, skip: set<string>)
    requires i < |bs|
    ensures Without(bs[..i + 1], skip) == Without(bs[..i], skip) + if bs[i].0 in skip then [] else [bs[i]]
  {
    assert bs[..i + 1] == bs[..i] + [bs[i]];
    WithoutAppend(bs[..i], [bs[i]], skip);
    assert [bs[i]][1..] == [];
  }

  /** One comprehension of the tail: the printed bindings whose keys are not to be skipped. */
  method TailLines(bs: Bindings, skip: set<string>) returns (tail: string)
    ensures tail == SerializeEnv(Without(bs, skip))
  {
    hide PrintLine;
    tail := "";
    for i := 0 to |bs|
      invariant tail == SerializeEnv(Without(bs[..i], skip))
    {
      WithoutSnoc(bs, i, skip);
      if bs[i].0 !in skip {
        SerializeSnoc(Without(bs[..i], skip), bs[i]);
        tail := tail + PrintLine(bs[i].0, bs[i].1);
      } else {
        assert Without(bs[..i], skip) + [] == Without(bs[..i], skip);
      }
    }
    assert bs[..|bs|] == bs;
  }

  /** The loop over the target's records. */
  method MergeLines(t: string, bundle: Bindings, overwrite: bool, forced: Bindings)
    returns (text: string, seen: set<string>)
    ensures text == Rewritten(Supersede(Overrides(bundle, overwrite, forced)), t)
    ensures seen == Parse(t).Keys
  {
    hide Scan, PrintLine, ToMap, Assignments, IsKey;
    var records := ScanEnv(t);
    ScanKeys(t);
    var lines, w := [], Supersede(Overrides(bundle, overwrite, forced));
    var b, f := ToMap(bundle), ToMap(forced);
    seen := {};
    NothingBound();
    for i := 0 to |records|
      invariant Concat(lines) == Concat(Pieces(w, records[..i]))
      invariant seen == ToMap(Assignments(records[..i])).Keys
    {
      var r := records[i];
      PiecesSnoc(w, records, i);
      PieceText(w, r);
      BindOne(records, i);
      var line := r.raw;
      if r.Assignment? {
        seen := seen + {r.key};
        var replacement := None;
        if r.key in f {
          replacement := Some(f[r.key]);
        } else if overwrite && r.key in b {
          replacement := Some(b[r.key]);
        }
        if replacement.Some? && replacement.value != r.value {
          line := PrintLine(r.key, replacement.value);
        }
      }
      ConcatSnoc(lines, line);
      lines := lines + [line];
    }
    assert records[..|records|] == records;
    text := Concat(lines);
  }

  lemma {:induction false} NothingBound()
    ensures ToMap(Assignments([])) == map[]
  {
  }

  method MergeEnvText(t: string, bundle: Bindings, overwrite: bool, forced: Bindings) returns (merged: string)
    ensures merged == Merge(t, bundle, overwrite, forced)
  {
    hide Parse, Rewritten, ToMap;
    var text, seen := MergeLines(t, bundle, overwrite, forced);
    var bundleTail := TailLines(bundle, seen + ToMap(forced).Keys);
    var forcedTail := TailLines(forced, seen);
    SerializeAppend(Without(bundle, seen + ToMap(forced).Keys), Without(forced, seen));
    merged := Append(text, bundleTail + forcedTail);
  }
}
