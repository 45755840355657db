/** Editing one key of a dotenv text: what setting it means, what removing it means, when one undoes the other. */
module DotenvEdit {
  import opened Options
  import opened Text
  import opened Dotenv
  import opened DotenvPrint
  import opened DotenvLines
  import opened DotenvRewrite
  import opened DotenvAppend
  import opened DotenvLaws

  // ---------------------------------------------------------------------------------------------
  // Adding printed bindings to any text
  // ---------------------------------------------------------------------------------------------

  lemma {:induction false} ScanAfterLines(ps: seq<string>, rest: string)
    requires AllComplete(ps)
    ensures Scan(Concat(ps) + rest) == Records(ps) + Scan(rest)
  {
    hide Complete, Scan, HeadRecord;
    if ps == [] {
      assert Concat(ps) + rest == rest;
    } else {
      ScanAfterLines(ps[1..], rest);
      ScanAfterLine(ps[0], Concat(ps[1..]) + rest);
      assert Concat(ps) + rest == ps[0] + (Concat(ps[1..]) + rest);
    }
  }

  /** After a closed text, printed bindings are read after its own. */
  lemma {:induction false} AppendBinds(t: string, bs: Bindings)
    requires !Open(t) && KeysOk(bs) && bs != []
    ensures Binds(Append(t, SerializeEnv(bs))) == Binds(t) + ReadAll(bs)
    ensures Scan(Append(t, SerializeEnv(bs))) == Records(CompletedLines(Raws(Scan(t)))) + Records(LinesOfAll(bs))
  {
    hide Scan, ScanHead, Append, SerializeEnv, LinesOfAll, ReadAll, Records, Assignments, CompletedLines;
    var ps := Raws(Scan(t));
    ScanGivesLines(t);
    SerializedScans(bs);
    AppendScans(ps, LinesOfAll(bs));
    AssignmentsAppend(Records(CompletedLines(ps)), Records(LinesOfAll(bs)));
  }

  /** All lines but the last, and the last. */
  lemma {:induction false} LastLine(t: string)
    requires Scan(t) != []
    ensures var rs, ps := Scan(t), Raws(Scan(t));
            var init, p := ps[..|rs| - 1], ps[|rs| - 1];
            && AllComplete(init) && Single(p) && p != "" && t == Concat(init) + p
            && Records(init) == rs[..|rs| - 1] && HeadRecord(p) == rs[|rs| - 1]
  {
    hide Scan, Records, AllComplete, HeadRecord, Single, Complete;
    var ps := Raws(Scan(t));
    ScanGivesLines(t);
    var init, p := ps[..|ps| - 1], ps[|ps| - 1];
    assert ps == init + [p];
    SplitRecords(init, p);
    ConcatSnoc(init, p);
    LastIsNotEmpty(ps);
  }

  lemma {:induction false} OpenHasLast(t: string)
    requires Open(t)
    ensures Scan(t) != [] && ScanHead(Raws(Scan(t))[|Scan(t)| - 1]).open
  {
    hide Scan;
  }

  /** What follows an open text: everything up to its last record, then what swallowed the lines. */
  lemma {:induction false} OpenAppendScans(t: string, bs: Bindings) returns (p: string, j: nat)
    requires Open(t) && KeysOk(bs) && bs != []
    ensures Scan(t) != [] && Single(p) && ScanHead(p).open && p == Raws(Scan(t))[|Scan(t)| - 1]
    ensures 0 < j <= |LinesOfAll(bs)|
    ensures var u := Completed(p) + SerializeEnv(bs);
            && Scan(Append(t, SerializeEnv(bs)))
               == Scan(t)[..|Scan(t)| - 1] + [HeadRecord(u)] + Records(LinesOfAll(bs)[j..])
            && HeadRecord(u).Assignment? && HeadRecord(p).Assignment? && HeadRecord(u).key == HeadRecord(p).key
            && (ScanHead(u).open ==> j == |LinesOfAll(bs)|)
            && (j < |LinesOfAll(bs)| ==> HoldsQuote(LinesOfAll(bs)[j - 1]))
  {
    hide Open, Scan, ScanHead, SerializeEnv, LinesOfAll, Records, AllComplete, OneLines, HeadRecord, Raws, Single,
         Append, Completed, Concat;
    OpenHasLast(t);
    LastLine(t);
    SerializedScans(bs);
    var init := Raws(Scan(t))[..|Scan(t)| - 1];
    p := Raws(Scan(t))[|Scan(t)| - 1];
    j := SwallowedScan(p, LinesOfAll(bs));
    ScanAfterLines(init, Completed(p) + SerializeEnv(bs));
    ConcatNotEmpty(LinesOfAll(bs));
    AppendToLast(Concat(init), p, SerializeEnv(bs));
  }

  lemma {:induction false} SplitRecords(init: seq<string>, p: string)
    ensures Records(init + [p])[..|Records(init + [p])| - 1] == Records(init)
    ensures Records(init + [p]) == Records(init) + [HeadRecord(p)]
  {
    hide HeadRecord;
    RecordsAppend(init, [p]);
    assert Records([p]) == [HeadRecord(p)] + Records([p][1..]);
    assert [p][1..] == [];
  }

  lemma {:induction false} AppendToLast(init: string, p: string, tail: string)
    requires p != "" && tail != ""
    ensures Append(init + p, tail) == init + (Completed(p) + tail)
  {
    assert (init + p)[|init + p| - 1] == p[|p| - 1];
    assert init + p + "\n" + tail == init + (p + "\n" + tail);
  }

  ghost predicate HasKey(bs: Bindings, k: string) { exists i :: 0 <= i < |bs| && bs[i].0 == k }

  lemma {:induction false} MapKey(bs: Bindings, k: string)
    ensures k in ToMap(bs) <==> HasKey(bs, k)
  {
    ToMapKeys(bs, k);
  }

  lemma {:induction false} HasKeyAppend(a: Bindings, b: Bindings, k: string)
    ensures HasKey(a + b, k) <==> HasKey(a, k) || HasKey(b, k)
  {
    if i :| 0 <= i < |a| && a[i].0 == k { assert (a + b)[i].0 == k; }
    if i :| 0 <= i < |b| && b[i].0 == k { assert (a + b)[|a| + i].0 == k; }
    if i :| 0 <= i < |a + b| && (a + b)[i].0 == k {
      if i < |a| { assert a[i].0 == k; } else { assert b[i - |a|].0 == k; }
    }
  }

  lemma {:induction false} ReadAllKeys(bs: Bindings)
    ensures |ReadAll(bs)| == |bs| && forall i :: 0 <= i < |bs| ==> ReadAll(bs)[i].0 == bs[i].0
  {
    hide ReadBack;
    if bs != [] { ReadAllKeys(bs[1..]); }
  }

  lemma {:induction false} SuffixKeys(ps: seq<string>, j: nat, k: string)
    requires 0 < j <= |ps| && HasKey(Assignments(Records(ps[j..])), k)
    ensures HasKey(Assignments(Records(ps[1..])), k)
  {
    hide Records, Assignments, HasKey;
    assert ps[1..] == ps[1..j] + ps[j..];
    RecordsAppend(ps[1..j], ps[j..]);
    AssignmentsAppend(Records(ps[1..j]), Records(ps[j..]));
    HasKeyAppend(Assignments(Records(ps[1..j])), Assignments(Records(ps[j..])), k);
  }

  /** The keys read from the lines after the first are keys of the bindings after the first. */
  lemma {:induction false} LaterLinesKeys(bs: Bindings, j: nat, k: string)
    requires KeysOk(bs) && bs != [] && 0 < j <= |LinesOfAll(bs)|
    requires HasKey(Assignments(Records(LinesOfAll(bs)[j..])), k)
    ensures HasKey(bs[1..], k)
  {
    hide Records, Assignments, LinesOf, HasKey;
    var head, rest := LinesOf(bs[0].0, bs[0].1), LinesOfAll(bs[1..]);
    SuffixKeys(LinesOfAll(bs), j, k);
    FirstLineAlone(bs[0].0, bs[0].1);
    assert LinesOfAll(bs)[1..] == head[1..] + rest;
    RecordsAppend(head[1..], rest);
    AssignmentsAppend(Records(head[1..]), Records(rest));
    SerializedScans(bs[1..]);
    var read := ReadAll(bs[1..]);
    assert [] + read == read;
    SameKeys(bs[1..], k);
  }

  lemma {:induction false} SameKeys(bs: Bindings, k: string)
    ensures HasKey(ReadAll(bs), k) <==> HasKey(bs, k)
  {
    ReadAllKeys(bs);
    if i :| 0 <= i < |bs| && bs[i].0 == k { assert ReadAll(bs)[i].0 == k; }
    if i :| 0 <= i < |bs| && ReadAll(bs)[i].0 == k { assert bs[i].0 == k; }
  }

  lemma {:induction false} FirstLineAlone(k: string, v: string)
    requires IsKey(k)
    ensures LinesOf(k, v) != [] && Assignments(Records(LinesOf(k, v)[1..])) == []
  {
  }

  /** The bindings of an open text with printed bindings put after it. */
  lemma {:induction false} OpenAppendBinds(t: string, bs: Bindings)
    returns (init: Bindings, was: Record, now: Record, j: nat)
    requires Open(t) && KeysOk(bs) && bs != []
    ensures 0 < j <= |LinesOfAll(bs)|
    ensures was.Assignment? && now.Assignment? && was.key == now.key
    ensures Binds(t) == init + BindingOf(was)
    ensures Binds(Append(t, SerializeEnv(bs)))
            == init + (BindingOf(now) + Assignments(Records(LinesOfAll(bs)[j..])))
  {
    hide Scan, ScanHead, Append, SerializeEnv, LinesOfAll, Records, HeadRecord, Open, Single, Assignments, AllComplete,
         Concat, Completed;
    var p;
    p, j := OpenAppendScans(t, bs);
    var u := Completed(p) + SerializeEnv(bs);
    var head, tail := Scan(t)[..|Scan(t)| - 1], Records(LinesOfAll(bs)[j..]);
    LastLine(t);
    init, was, now := Assignments(head), HeadRecord(p), HeadRecord(u);
    assert Scan(t) == head + [was];
    AssignmentsAppend(head, [was]);
    AssignmentsAppend(head, [now] + tail);
    AssignmentsAppend([now], tail);
    assert head + [now] + tail == head + ([now] + tail);
    OneBinding(was);
    OneBinding(now);
  }

  /** After an open text, the first printed key is lost. */
  lemma {:induction false} OpenAppendLoses(t: string, bs: Bindings)
    requires Open(t) && KeysOk(bs) && IsDict(bs) && bs != [] && bs[0].0 !in Parse(t)
    ensures bs[0].0 !in Parse(Append(t, SerializeEnv(bs)))
  {
    hide Binds, Append, SerializeEnv, LinesOfAll, Records, Open, Assignments, HasKey, BindingOf, ToMap, KeysOk;
    var k := bs[0].0;
    var init, was, now, j := OpenAppendBinds(t, bs);
    MapKey(Binds(t), k);
    MapKey(Binds(Append(t, SerializeEnv(bs))), k);
    KeyIsLost(init, was, now, Assignments(Records(LinesOfAll(bs)[j..])), k);
    FirstKeyNotLater(bs);
    if HasKey(Assignments(Records(LinesOfAll(bs)[j..])), k) {
      LaterLinesKeys(bs, j, k);
      assert false;
    }
  }

  lemma {:induction false} FirstKeyNotLater(bs: Bindings)
    requires IsDict(bs) && bs != []
    ensures !HasKey(bs[1..], bs[0].0)
  {
  }

  lemma {:induction false} OneBinding(r: Record)
    ensures Assignments([r]) == BindingOf(r)
  {
  }

  lemma {:induction false} KeyIsLost(init: Bindings, p: Record, u: Record, rest: Bindings, k: string)
    requires p.Assignment? && u.Assignment? && p.key == u.key
    requires !HasKey(init + BindingOf(p), k)
    ensures HasKey(init + (BindingOf(u) + rest), k) ==> HasKey(rest, k)
  {
    HasKeyAppend(init, BindingOf(p), k);
    HasKeyAppend(init, BindingOf(u) + rest, k);
    HasKeyAppend(BindingOf(u), rest, k);
    assert BindingOf(p)[0].0 == BindingOf(u)[0].0;
  }

  // ---------------------------------------------------------------------------------------------
  // edit-env
  // ---------------------------------------------------------------------------------------------

  function EditEnv(t: string, key: string, value: Option<string>): string {
    Append(Rewritten(Edit(key, value), t),
           if value.Some? && key !in Parse(t) then PrintLine(key, value.value) else "")
  }

  method EditEnvText(text: string, key: string, value: Option<string>) returns (out: string)
    ensures out == EditEnv(text, key, value)
  {
    hide Scan, Append, IsKey, PrintLine;
    var records := ScanEnv(text);
    ScanKeys(text);
    var lines, seen, w := [], false, Edit(key, value);
    for i := 0 to |records|
      invariant Concat(lines) == Concat(Pieces(w, records[..i]))
      invariant seen <==> key in ToMap(Assignments(records[..i]))
    {
      var r := records[i];
      PiecesSnoc(w, records, i);
      PieceText(w, r);
      BindOne(records, i);
      var line := r.raw;
      if r.Assignment? && r.key == key {
        seen := true;
        line := if value.Some? then PrintLine(key, value.value) else "";
      }
      ConcatSnoc(lines, line);
      lines := lines + [line];
    }
    assert records[..|records|] == records;
    out := Concat(lines);
    if value.Some? && !seen {
      out := Append(out, PrintLine(key, value.value));
    } else {
      AppendNothing(out);
    }
  }

  lemma {:induction false} AppendNothing(t: string)
    ensures Append(t, "") == t
  {
  }

  lemma {:induction false} UntouchedPieces(w: Rewrite, rs: seq<Record>)
    requires forall i :: 0 <= i < |rs| ==> !Rewrites(w, rs[i])
    ensures Pieces(w, rs) == Raws(rs)
  {
    hide Rewrites;
    if rs != [] { UntouchedPieces(w, rs[1..]); }
  }

  /** Records that do not bind the edited key are left alone, byte for byte. */
  lemma {:induction false} EditUntouched(rs: seq<Record>, key: string, value: Option<string>)
    requires !HasKey(Assignments(rs), key)
    ensures Pieces(Edit(key, value), rs) == Raws(rs)
  {
    hide HasKey, Assignments;
    forall i | 0 <= i < |rs| ensures !Rewrites(Edit(key, value), rs[i]) {
      if rs[i].Assignment? && rs[i].key == key { RecordBinds(rs, i); }
    }
    UntouchedPieces(Edit(key, value), rs);
  }

  lemma {:induction false} EditOfAbsentKey(t: string, key: string, value: Option<string>)
    requires key !in Parse(t)
    ensures Rewritten(Edit(key, value), t) == t
  {
    hide Scan, Assignments;
    ToMapKeys(Binds(t), key);
    EditUntouched(Scan(t), key, value);
    ScanGivesLines(t);
  }

  lemma {:induction false} RecordBinds(rs: seq<Record>, i: nat)
    requires i < |rs| && rs[i].Assignment?
    ensures HasKey(Assignments(rs), rs[i].key)
  {
    hide HasKey;
    var a, b := rs[..i], rs[i + 1..];
    assert rs == a + [rs[i]] + b;
    AssignmentsAppend(a + [rs[i]], b);
    AssignmentsAppend(a, [rs[i]]);
    OneBinding(rs[i]);
    OneKey(rs[i]);
    HasKeyAppend(Assignments(a), BindingOf(rs[i]), rs[i].key);
    HasKeyAppend(Assignments(a) + BindingOf(rs[i]), Assignments(b), rs[i].key);
  }

  lemma {:induction false} OneKey(r: Record)
    requires r.Assignment?
    ensures HasKey(BindingOf(r), r.key)
  {
    assert BindingOf(r)[0].0 == r.key;
  }

  /** A closed text, its last line completed. */
  lemma {:induction false} CompletedText(t: string)
    requires !Open(t)
    ensures var ps := CompletedLines(Raws(Scan(t)));
            && AllComplete(ps) && Concat(ps) == Completed(t)
            && Raws(Records(ps)) == ps && Assignments(Records(ps)) == Binds(t)
  {
    hide Scan, ScanHead, Assignments, Complete, Single, CompletedLines, Completed, Records;
    var ps := Raws(Scan(t));
    ScanGivesLines(t);
    CompletedConcat(ps);
    CompletedLinesAreComplete(ps);
    AllCompleteIsLines(CompletedLines(ps));
    ScanLines(CompletedLines(ps));
  }

  lemma {:induction false} RemovingOne(key: string, r: Record)
    requires r.Assignment? ==> r.key == key
    ensures Concat(Pieces(Edit(key, None), [r])) == if r.Assignment? then "" else r.raw
  {
  }

  /** What removing a key leaves of the lines that set it. */
  lemma {:induction false} RemovingPrinted(key: string, v: string)
    requires IsKey(key)
    ensures Concat(Pieces(Edit(key, None), Records(LinesOf(key, v)))) == if RoundTrips(v) then "" else "\n"
  {
    hide RoundTrips, IsKey, LinesOf, PrintLine, ReadBack, Pieces, Concat, Complete, HeadRecord, Records;
    LinesOfScan(key, v);
    var w, p := Edit(key, None), Printed(key, ReadBack(v));
    RemovingOne(key, p);
    if RoundTrips(v) {
      assert [p] + [] == [p];
    } else {
      RemovingOne(key, Raw("\n"));
      PiecesAppend(w, [p], [Raw("\n")]);
      ConcatAppend(Pieces(w, [p]), Pieces(w, [Raw("\n")]));
    }
  }

  lemma {:induction false} SerializeOne(key: string, v: string)
    ensures SerializeEnv([(key, v)]) == PrintLine(key, v)
    ensures LinesOfAll([(key, v)]) == LinesOf(key, v)
    ensures ReadAll([(key, v)]) == [(key, ReadBack(v))]
  {
  }

  lemma {:induction false} SetAbsentKey(t: string, key: string, v: string)
    requires key !in Parse(t)
    ensures EditEnv(t, key, Some(v)) == Append(t, SerializeEnv([(key, v)]))
  {
    hide Parse, PrintLine, Append;
    EditOfAbsentKey(t, key, Some(v));
    SerializeOne(key, v);
  }

  lemma {:induction false} SetThenRemoveClosed(t: string, key: string, v: string)
    requires IsKey(key) && key !in Parse(t) && !Open(t)
    ensures Rewritten(Edit(key, None), Append(t, SerializeEnv([(key, v)])))
            == Completed(t) + if RoundTrips(v) then "" else "\n"
  {
    hide Scan, Open, IsKey, RoundTrips, CompletedLines, AllComplete, Append, Completed, Records, Pieces, ToMap,
         Assignments, HasKey, SerializeEnv, LinesOf, LinesOfAll, Concat;
    var bs, w := [(key, v)], Edit(key, None);
    var ps := CompletedLines(Raws(Scan(t)));
    AppendBinds(t, bs);
    CompletedText(t);
    SerializeOne(key, v);
    MapKey(Binds(t), key);
    EditUntouched(Records(ps), key, None);
    RemovingPrinted(key, v);
    PiecesAppend(w, Records(ps), Records(LinesOf(key, v)));
    ConcatAppend(ps, Pieces(w, Records(LinesOf(key, v))));
  }

  lemma {:induction false} SetThenRemoveOpen(t: string, key: string, v: string)
    requires IsKey(key) && key !in Parse(t) && Open(t)
    ensures Append(t, SerializeEnv([(key, v)])) != Completed(t)
    ensures key !in Parse(EditEnv(t, key, Some(v)))
    ensures EditEnv(EditEnv(t, key, Some(v)), key, None) == Append(t, SerializeEnv([(key, v)]))
  {
    hide Parse, Open, IsKey;
    SetAbsentKey(t, key, v);
    OpenAppendLoses(t, [(key, v)]);
    SerializeOne(key, v);
    EditOfAbsentKey(EditEnv(t, key, Some(v)), key, None);
  }

  lemma {:induction false} RemoveIsRewritten(t: string, key: string)
    ensures EditEnv(t, key, None) == Rewritten(Edit(key, None), t)
  {
  }

  /** Every key that is read from a text is a key. */
  lemma {:induction false} ReadKeysAreKeys(t: string, key: string)
    requires key in Parse(t)
    ensures IsKey(key)
  {
    hide Scan, IsKey;
    ScanKeys(t);
    MapKey(Binds(t), key);
    BoundKeysAreKeys(Scan(t), key);
  }

  lemma {:induction false} BoundKeysAreKeys(rs: seq<Record>, key: string)
    requires forall i :: 0 <= i < |rs| && rs[i].Assignment? ==> IsKey(rs[i].key)
    requires HasKey(Assignments(rs), key)
    ensures IsKey(key)
  {
    hide IsKey;
    if rs != [] {
      AssignmentsAppend([rs[0]], rs[1..]);
      assert [rs[0]] + rs[1..] == rs;
      OneBinding(rs[0]);
      HasKeyAppend(BindingOf(rs[0]), Assignments(rs[1..]), key);
      if HasKey(Assignments(rs[1..]), key) { BoundKeysAreKeys(rs[1..], key); }
    }
  }

  /** What is no key is appended all the same, and neither read nor removed. */
  lemma {:induction false} SetNoKey(t: string, key: string, v: string)
    requires !IsKey(key)
    ensures key !in Parse(t) && key !in Parse(EditEnv(t, key, Some(v)))
    ensures EditEnv(EditEnv(t, key, Some(v)), key, None) != Completed(t)
  {
    hide Parse, IsKey;
    if key in Parse(t) { ReadKeysAreKeys(t, key); }
    var u := EditEnv(t, key, Some(v));
    if key in Parse(u) { ReadKeysAreKeys(u, key); }
    SetAbsentKey(t, key, v);
    SerializeOne(key, v);
    EditOfAbsentKey(u, key, None);
    AppendNothing(u);
    assert |PrintLine(key, v)| > 0;
  }

  /**
   * Setting a key the text does not bind and removing it again gives the text back, up to one added
   * final newline, exactly when it is a key, the text has no unclosed quote and the value round-trips.
   */
  lemma {:induction false} SetThenRemove(t: string, key: string, v: string)
    requires key !in Parse(t)
    ensures EditEnv(EditEnv(t, key, Some(v)), key, None) == Completed(t) <==> IsKey(key) && !Open(t) && RoundTrips(v)
  {
    hide Parse, Open, IsKey, RoundTrips, EditEnv, SerializeEnv, Append, Rewritten;
    if !IsKey(key) {
      SetNoKey(t, key, v);
    } else if Open(t) {
      SetThenRemoveOpen(t, key, v);
    } else {
      SetAbsentKey(t, key, v);
      RemoveIsRewritten(EditEnv(t, key, Some(v)), key);
      SetThenRemoveClosed(t, key, v);
    }
  }

  /**
   * Setting a key sets it and nothing else, exactly when it is a key, the value round-trips, and the
   * key is there already or the text is closed.
   */
  lemma {:induction false} SetMeans(t: string, key: string, v: string)
    ensures Parse(EditEnv(t, key, Some(v))) == Parse(t)[key := v]
            <==> IsKey(key) && RoundTrips(v) && (key in Parse(t) || !Open(t))
  {
    hide Open, IsKey, RoundTrips, SerializeEnv, Append, Rewritten, Binds, ToMap, ReadAll;
    if !IsKey(key) {
      SetNoKey(t, key, v);
    } else if key in Parse(t) {
      AppendNothing(Rewritten(Edit(key, Some(v)), t));
      ParseRewritten(Edit(key, Some(v)), t);
      hide Parse;
      assert NewMap(Edit(key, Some(v)), Parse(t)) == Parse(t)[key := ReadBack(v)];
      assert Parse(t)[key := v][key] == v;
    } else if Open(t) {
      SetThenRemoveOpen(t, key, v);
    } else {
      SetMeansClosed(t, key, v);
      assert Parse(t)[key := v][key] == v;
    }
  }

  lemma {:induction false} SetMeansClosed(t: string, key: string, v: string)
    requires IsKey(key) && key !in Parse(t) && !Open(t)
    ensures Parse(EditEnv(t, key, Some(v))) == Parse(t)[key := ReadBack(v)]
  {
    hide Open, IsKey, EditEnv, RoundTrips, SerializeEnv, Append, Rewritten, Binds, ToMap, ReadAll, ReadBack;
    SetAbsentKey(t, key, v);
    AppendBinds(t, [(key, v)]);
    SerializeOne(key, v);
    ToMapAppend(Binds(t), [(key, ReadBack(v))]);
    OneKeyMap(key, ReadBack(v));
  }

  lemma {:induction false} OneKeyMap(k: string, v: string)
    ensures ToMap([(k, v)]) == map[k := v]
  {
  }

  /** Removing a key removes every assignment of it and nothing else. */
  lemma {:induction false} RemoveMeans(t: string, key: string)
    ensures Parse(EditEnv(t, key, None)) == Parse(t) - {key}
  {
    hide Parse, Rewritten;
    RemoveIsRewritten(t, key);
    ParseRewritten(Edit(key, None), t);
  }
}
