/**
 * Merging twice, and the lines a merge leaves alone. A merged text is settled: whatever a second merge would
 * rewrite in it holds the value already, so it stays as it is unless what was written did not survive or was swallowed.
 */
module DotenvStable {
  import opened Text
  import opened Dotenv
  import opened DotenvPrint
  import opened DotenvLines
  import opened DotenvRewrite
  import opened DotenvAppend
  import opened DotenvLaws
  import opened DotenvEdit
  import opened DotenvMerge
  import opened DotenvMergeLaws

  // ---------------------------------------------------------------------------------------------
  // Records a second merge would leave, or at most lengthen by one empty line
  // ---------------------------------------------------------------------------------------------

  ghost predicate Settled(w: Rewrite, r: Record) { Rewrites(w, r) ==> Piece(w, r) == [r.raw, "\n"] }

  ghost predicate AllSettled(w: Rewrite, rs: seq<Record>) { forall i :: 0 <= i < |rs| ==> Settled(w, rs[i]) }

  ghost predicate Quiet(w: Rewrite, rs: seq<Record>) { forall i :: 0 <= i < |rs| ==> !Rewrites(w, rs[i]) }

  /** The value written over the record, if any, round-trips. */
  predicate WritesWell(w: Rewrite, r: Record) {
    w.Supersede? && Rewrites(w, r) ==> RoundTrips(w.values[r.key])
  }

  ghost predicate CleanWrites(w: Rewrite, rs: seq<Record>) { forall i :: 0 <= i < |rs| ==> WritesWell(w, rs[i]) }

  lemma {:induction false} SettledAppend(w: Rewrite, a: seq<Record>, b: seq<Record>)
    ensures AllSettled(w, a + b) <==> AllSettled(w, a) && AllSettled(w, b)
    ensures Quiet(w, a + b) <==> Quiet(w, a) && Quiet(w, b)
  {
    hide Rewrites, Settled;
    var c := a + b;
    assert forall i :: 0 <= i < |a| ==> c[i] == a[i];
    assert forall i :: 0 <= i < |b| ==> b[i] == c[|a| + i];
  }

  lemma {:induction false} OneSettled(w: Rewrite, r: Record)
    ensures AllSettled(w, [r]) <==> Settled(w, r)
    ensures Quiet(w, [r]) <==> !Rewrites(w, r)
  {
    hide Rewrites, Settled;
    assert [r][0] == r;
  }

  lemma {:induction false} WrittenSettled(w: Rewrite, k: string, x: string)
    requires w.Supersede? && (k in w.values ==> w.values[k] == x)
    ensures AllSettled(w, Wrote(k, x))
    ensures Quiet(w, Wrote(k, x)) <==> (k in w.values ==> RoundTrips(x))
  {
    hide PrintLine, RoundTrips, AllSettled, Quiet;
    var p := Printed(k, ReadBack(x));
    OneSettled(w, p);
    OneSettled(w, Raw("\n"));
    SettledAppend(w, [p], [Raw("\n")]);
    assert [p] + [] == [p];
  }

  lemma {:induction false} ImageSettled(w: Rewrite, r: Record)
    requires w.Supersede?
    ensures AllSettled(w, Image(w, r))
    ensures Quiet(w, Image(w, r)) <==> WritesWell(w, r)
  {
    hide PrintLine, RoundTrips, Wrote, AllSettled, Quiet;
    if Rewrites(w, r) {
      WrittenSettled(w, r.key, w.values[r.key]);
    } else {
      OneSettled(w, r);
    }
  }

  lemma {:induction false} ImagesSettled(w: Rewrite, rs: seq<Record>)
    requires w.Supersede?
    ensures AllSettled(w, Images(w, rs))
    ensures Quiet(w, Images(w, rs)) <==> CleanWrites(w, rs)
  {
    hide Image, Settled, Rewrites, WritesWell, AllSettled, Quiet;
    if rs == [] {
      assert AllSettled(w, []) && Quiet(w, []) by { NothingSettled(w); }
    } else {
      ImageSettled(w, rs[0]);
      ImagesSettled(w, rs[1..]);
      SettledAppend(w, Image(w, rs[0]), Images(w, rs[1..]));
      assert CleanWrites(w, rs) <==> WritesWell(w, rs[0]) && CleanWrites(w, rs[1..]);
    }
  }

  lemma {:induction false} NothingSettled(w: Rewrite)
    ensures AllSettled(w, []) && Quiet(w, []) && Records([]) == []
  {
  }

  /** The bindings added at the end agree with what the merge would write over them. */
  ghost predicate Agreeing(w: Rewrite, bs: Bindings) {
    w.Supersede? && forall i :: 0 <= i < |bs| && bs[i].0 in w.values ==> w.values[bs[i].0] == bs[i].1
  }

  ghost predicate CleanTail(w: Rewrite, bs: Bindings) {
    w.Supersede? && forall i :: 0 <= i < |bs| && bs[i].0 in w.values ==> RoundTrips(bs[i].1)
  }

  lemma {:induction false} TailSettled(w: Rewrite, bs: Bindings)
    requires KeysOk(bs) && Agreeing(w, bs)
    ensures AllSettled(w, Records(LinesOfAll(bs)))
    ensures Quiet(w, Records(LinesOfAll(bs))) <==> CleanTail(w, bs)
  {
    hide AllSettled, Quiet, LinesOf, RoundTrips, IsKey, Wrote, Records;
    if bs == [] {
      NothingSettled(w);
    } else {
      var (k, v) := bs[0];
      LinesOfScan(k, v);
      WroteIsRecords(k, v);
      WrittenSettled(w, k, v);
      TailSettled(w, bs[1..]);
      RecordsAppend(LinesOf(k, v), LinesOfAll(bs[1..]));
      SettledAppend(w, Wrote(k, v), Records(LinesOfAll(bs[1..])));
      assert CleanTail(w, bs) <==> (k in w.values ==> RoundTrips(v)) && CleanTail(w, bs[1..]);
    }
  }

  lemma {:induction false} WroteIsRecords(k: string, v: string)
    requires IsKey(k)
    ensures Records(LinesOf(k, v)) == Wrote(k, v)
  {
    hide IsKey, LinesOf, Records, Printed;
    LinesOfScan(k, v);
  }

  lemma {:induction false} CompletedRecords(init: seq<string>, last: string)
    ensures Records(init + [last]) == Records(init) + [HeadRecord(last)]
    ensures Records(CompletedLines(init + [last])) == Records(init) + [HeadRecord(Completed(last))]
  {
    hide HeadRecord, Records, Completed;
    CompletedSnoc(init, last);
    RecordsAppend(init, [last]);
    RecordsAppend(init, [Completed(last)]);
    OneRecord(last);
    OneRecord(Completed(last));
  }

  /** Giving the last line its newline changes nothing for the merge. */
  lemma {:induction false} CompletedSettled(w: Rewrite, ps: seq<string>)
    requires w.Supersede? && Lines(ps) && (ps != [] ==> !ScanHead(ps[|ps| - 1]).open)
    requires AllSettled(w, Records(ps))
    ensures AllSettled(w, Records(CompletedLines(ps)))
    ensures Quiet(w, Records(CompletedLines(ps))) <==> Quiet(w, Records(ps))
  {
    hide AllSettled, Quiet, ScanHead, HeadRecord, Single, Records, AllComplete, Settled, Rewrites, Completed;
    if ps != [] {
      var init, last := Records(ps[..|ps| - 1]), ps[|ps| - 1];
      CompletedRecords(ps[..|ps| - 1], last);
      assert ps == ps[..|ps| - 1] + [last];
      hide CompletedLines;
      SettledAppend(w, init, [HeadRecord(last)]);
      SettledAppend(w, init, [HeadRecord(Completed(last))]);
      OneSettled(w, HeadRecord(last));
      OneSettled(w, HeadRecord(Completed(last)));
      CompletedLast(w, last);
    }
  }

  lemma {:induction false} CompletedLast(w: Rewrite, p: string)
    requires w.Supersede? && Single(p) && !ScanHead(p).open && Settled(w, HeadRecord(p))
    ensures Settled(w, HeadRecord(Completed(p)))
    ensures Rewrites(w, HeadRecord(Completed(p))) <==> Rewrites(w, HeadRecord(p))
  {
    hide ScanHead, PrintLine, RoundTrips;
    if !EndsLine(p) {
      CompletingALine(p);
      ScanSingle(p);
      var r := HeadRecord(p);
      if Rewrites(w, r) {
        PrintedEndsLine(r.key, ReadBack(w.values[r.key]));
        assert false;
      }
    }
  }

  lemma {:induction false} PrintedEndsLine(k: string, v: string)
    ensures EndsLine(PrintLine(k, v))
  {
  }

  // ---------------------------------------------------------------------------------------------
  // A second merge never shortens a settled text, and keeps it only if it touches nothing
  // ---------------------------------------------------------------------------------------------

  lemma {:induction false} PieceGrows(w: Rewrite, r: Record)
    requires Settled(w, r)
    ensures |Concat(Piece(w, r))| == |r.raw| + if Rewrites(w, r) then 1 else 0
  {
    hide Rewrites, LinesOf, Target;
    assert Concat([r.raw]) == r.raw;
    if Rewrites(w, r) {
      assert [r.raw, "\n"] == [r.raw] + ["\n"];
      ConcatAppend([r.raw], ["\n"]);
      assert Concat(["\n"]) == "\n";
    }
  }

  lemma {:induction false} SettledGrows(w: Rewrite, rs: seq<Record>)
    requires AllSettled(w, rs)
    ensures |Concat(Pieces(w, rs))| >= |Concat(Raws(rs))|
    ensures |Concat(Pieces(w, rs))| == |Concat(Raws(rs))| <==> Quiet(w, rs)
  {
    hide Piece, Settled, Rewrites;
    if rs != [] {
      PieceGrows(w, rs[0]);
      SettledGrows(w, rs[1..]);
      ConcatAppend(Piece(w, rs[0]), Pieces(w, rs[1..]));
      assert Quiet(w, rs) <==> !Rewrites(w, rs[0]) && Quiet(w, rs[1..]);
    }
  }

  lemma {:induction false} SettledText(w: Rewrite, u: string)
    requires AllSettled(w, Scan(u))
    ensures |Rewritten(w, u)| >= |u|
    ensures Rewritten(w, u) == u <==> Quiet(w, Scan(u))
  {
    hide Scan, Rewrites, AllSettled, Pieces, Raws, Concat;
    SettledGrows(w, Scan(u));
    ScanGivesLines(u);
    if Quiet(w, Scan(u)) { UntouchedPieces(w, Scan(u)); }
  }

  // ---------------------------------------------------------------------------------------------
  // Merging twice
  // ---------------------------------------------------------------------------------------------

  lemma {:induction false} TailAgrees(t: string, bundle: Bindings, overwrite: bool, forced: Bindings)
    requires KeysOk(bundle) && KeysOk(forced) && IsDict(bundle) && IsDict(forced)
    ensures Agreeing(Supersede(Overrides(bundle, overwrite, forced)), Tail(t, bundle, forced))
  {
    hide Parse, ToMap, Tail, KeysOk;
    TailFacts(t, bundle, forced);
    var tail := Tail(t, bundle, forced);
    forall i | 0 <= i < |tail| && tail[i].0 in Overrides(bundle, overwrite, forced)
      ensures Overrides(bundle, overwrite, forced)[tail[i].0] == tail[i].1
    {
      ToMapOfDict(tail, i);
    }
  }

  lemma {:induction false} NoTail(u: string, bundle: Bindings, forced: Bindings)
    requires KeysOk(bundle) && KeysOk(forced) && IsDict(bundle) && IsDict(forced)
    requires ToMap(bundle).Keys + ToMap(forced).Keys <= Parse(u).Keys
    ensures Tail(u, bundle, forced) == []
  {
    hide Parse, ToMap, Tail, KeysOk, IsDict;
    TailFacts(u, bundle, forced);
    if Tail(u, bundle, forced) != [] { FirstIsMapped(Tail(u, bundle, forced)); }
  }

  lemma {:induction false} MergedKeysAll(t: string, bundle: Bindings, overwrite: bool, forced: Bindings)
    requires KeysOk(bundle) && KeysOk(forced) && IsDict(bundle) && IsDict(forced)
    requires Tail(t, bundle, forced) == [] || !Swallowing(Supersede(Overrides(bundle, overwrite, forced)), t)
    ensures ToMap(bundle).Keys + ToMap(forced).Keys <= Parse(Merge(t, bundle, overwrite, forced)).Keys
  {
    hide Parse, ToMap, Tail, KeysOk, IsDict, NewMap, Merge, Swallowing, Overrides, ReadBack;
    ClosedMergeParses(t, bundle, overwrite, forced);
    KeysOfNewMap(Supersede(Overrides(bundle, overwrite, forced)), Parse(t));
  }

  /** What the merged text's records are to a second merge. */
  lemma {:induction false} MergedRecords(t: string, bundle: Bindings, overwrite: bool, forced: Bindings)
    requires KeysOk(bundle) && KeysOk(forced) && IsDict(bundle) && IsDict(forced)
    requires Tail(t, bundle, forced) == [] || !Swallowing(Supersede(Overrides(bundle, overwrite, forced)), t)
    ensures var w := Supersede(Overrides(bundle, overwrite, forced));
            && AllSettled(w, Scan(Merge(t, bundle, overwrite, forced)))
            && (Quiet(w, Scan(Merge(t, bundle, overwrite, forced)))
                <==> CleanWrites(w, Scan(t)) && CleanTail(w, Tail(t, bundle, forced)))
  {
    hide Scan, Open, Tail, KeysOk, IsDict, Swallowing, Overrides, AllSettled, Quiet, CleanWrites, Append, Rewritten,
         SerializeEnv, LinesOfAll, Records, CompletedLines;
    var w, tail := Supersede(Overrides(bundle, overwrite, forced)), Tail(t, bundle, forced);
    var m := Rewritten(w, t);
    TailFacts(t, bundle, forced);
    TailAgrees(t, bundle, overwrite, forced);
    ScanRewritten(w, t);
    RewrittenOpen(w, t);
    ImagesSettled(w, Scan(t));
    if tail == [] {
      EmptyTail(m);
    } else {
      AppendBinds(m, tail);
      TailSettled(w, tail);
      ClosedSettled(w, m);
      SettledAppend(w, Records(CompletedLines(Raws(Scan(m)))), Records(LinesOfAll(tail)));
    }
  }

  lemma {:induction false} ClosedSettled(w: Rewrite, m: string)
    requires w.Supersede? && !Open(m) && AllSettled(w, Scan(m))
    ensures AllSettled(w, Records(CompletedLines(Raws(Scan(m)))))
    ensures Quiet(w, Records(CompletedLines(Raws(Scan(m))))) <==> Quiet(w, Scan(m))
  {
    hide Scan, AllSettled, Quiet, ScanHead, CompletedLines;
    ScanGivesLines(m);
    CompletedSettled(w, Raws(Scan(m)));
  }

  lemma {:induction false} MergeTwiceClosed(t: string, bundle: Bindings, overwrite: bool, forced: Bindings)
    requires KeysOk(bundle) && KeysOk(forced) && IsDict(bundle) && IsDict(forced)
    requires Tail(t, bundle, forced) == [] || !Swallowing(Supersede(Overrides(bundle, overwrite, forced)), t)
    ensures var w, u := Supersede(Overrides(bundle, overwrite, forced)), Merge(t, bundle, overwrite, forced);
            Merge(u, bundle, overwrite, forced) == u
            <==> CleanWrites(w, Scan(t)) && CleanTail(w, Tail(t, bundle, forced))
  {
    hide Scan, Tail, KeysOk, IsDict, Swallowing, Overrides, AllSettled, Quiet, CleanWrites, CleanTail, Append,
         Rewritten, SerializeEnv, Parse, ToMap;
    var w, u := Supersede(Overrides(bundle, overwrite, forced)), Merge(t, bundle, overwrite, forced);
    MergedRecords(t, bundle, overwrite, forced);
    MergedKeysAll(t, bundle, overwrite, forced);
    NoTail(u, bundle, forced);
    EmptyTail(Rewritten(w, u));
    SettledText(w, u);
  }

  /** The records of an open text that has swallowed what was added to it. */
  lemma {:induction false} SwallowedSettled(w: Rewrite, m: string, bs: Bindings)
    requires w.Supersede? && KeysOk(bs) && bs != [] && Open(m) && AllSettled(w, Scan(m))
    requires Open(Rewritten(w, Append(m, SerializeEnv(bs))))
    ensures AllSettled(w, Scan(Append(m, SerializeEnv(bs))))
  {
    hide Scan, Open, ScanHead, AllSettled, Quiet, Append, Rewritten, SerializeEnv, LinesOfAll, Records, Settled,
         Rewrites, HeadRecord, Completed, Single, Raws;
    var u := Append(m, SerializeEnv(bs));
    RewrittenOpen(w, u);
    var p, j := OpenAppendScans(m, bs);
    var head, last := Scan(m)[..|Scan(m)| - 1], HeadRecord(Completed(p) + SerializeEnv(bs));
    assert Scan(m) == head + [Scan(m)[|Scan(m)| - 1]];
    SettledAppend(w, head, [Scan(m)[|Scan(m)| - 1]]);
    OpenMeansAll(u, head + [last], LinesOfAll(bs), j, bs);
    SettledAppend(w, head, [last]);
    OneSettled(w, last);
    assert !Rewrites(w, last) ==> Settled(w, last) by { QuietIsSettled(w, last); }
    LastOfOpen(w, u, head, last);
  }

  lemma {:induction false} QuietIsSettled(w: Rewrite, r: Record)
    requires !Rewrites(w, r)
    ensures Settled(w, r)
  {
  }

  lemma {:induction false} LastOfOpen(w: Rewrite, u: string, head: seq<Record>, last: Record)
    requires Swallowing(w, u) && Scan(u) == head + [last]
    ensures !Rewrites(w, last)
  {
    hide Scan, Open, Rewrites;
  }

  /** If a text still ends open after lines were added, none of them stands alone. */
  lemma {:induction false} OpenMeansAll(u: string, front: seq<Record>, ps: seq<string>, j: nat, bs: Bindings)
    requires KeysOk(bs) && ps == LinesOfAll(bs) && j <= |ps| && front != []
    requires Open(u) && Scan(u) == front + Records(ps[j..])
    ensures Scan(u) == front
  {
    hide Scan, ScanHead, LinesOfAll, Complete, KeysOk, HeadRecord, Raws, OneLine;
    SerializedScans(bs);
    if j < |ps| {
      AllCompleteIsLines(ps[j..]);
      ScanLines(ps[j..]);
      LastIsComplete(u, front, ps[j..]);
      assert false;
    } else {
      assert ps[j..] == [];
      NothingSettled(Blank);
    }
  }

  lemma {:induction false} LastIsComplete(u: string, front: seq<Record>, qs: seq<string>)
    requires AllComplete(qs) && qs != [] && Raws(Records(qs)) == qs
    requires Scan(u) == front + Records(qs)
    ensures !Open(u)
  {
  }

  /** If added lines are swallowed, a second merge adds them again. */
  lemma {:induction false} MergeTwiceSwallowed(t: string, bundle: Bindings, overwrite: bool, forced: Bindings)
    requires KeysOk(bundle) && KeysOk(forced) && IsDict(bundle) && IsDict(forced)
    requires Tail(t, bundle, forced) != [] && Swallowing(Supersede(Overrides(bundle, overwrite, forced)), t)
    ensures var u := Merge(t, bundle, overwrite, forced); Merge(u, bundle, overwrite, forced) != u
  {
    hide Scan, Open, Tail, KeysOk, IsDict, Swallowing, Overrides, AllSettled, Append, Rewritten, SerializeEnv, Parse,
         ToMap, NewMap, AllReadBack;
    var w, u := Supersede(Overrides(bundle, overwrite, forced)), Merge(t, bundle, overwrite, forced);
    var m, tail, tail' := Rewritten(w, t), Tail(t, bundle, forced), Tail(u, bundle, forced);
    SwallowedMerge(t, bundle, overwrite, forced);
    var k := tail[0].0;
    TailFacts(t, bundle, forced);
    TailFacts(u, bundle, forced);
    RewrittenOpen(w, t);
    assert k in ToMap(tail');
    EmptyTail(u);
    if !Open(Rewritten(w, u)) {
      RewrittenOpen(w, u);
      ClosedMergeParses(u, bundle, overwrite, forced);
      assert k in AllReadBack(ToMap(bundle) + ToMap(forced) - Parse(u).Keys) by {
        ReadBackKeys(ToMap(bundle) + ToMap(forced) - Parse(u).Keys);
      }
    } else {
      ScanRewritten(w, t);
      ImagesSettled(w, Scan(t));
      SwallowedSettled(w, m, tail);
      SettledText(w, u);
      AppendLonger(Rewritten(w, u), tail');
    }
  }

  lemma {:induction false} ReadBackKeys(m: map<string, string>)
    ensures AllReadBack(m).Keys == m.Keys
  {
  }

  lemma {:induction false} AppendLonger(m: string, bs: Bindings)
    requires bs != []
    ensures |Append(m, SerializeEnv(bs))| > |m|
  {
  }

  /**
   * Merging twice is merging once exactly when no added line can be swallowed by an unclosed quote
   * and every value written over a line, now or by the second merge, round-trips.
   */
  lemma {:induction false} MergeIsStable(t: string, bundle: Bindings, overwrite: bool, forced: Bindings)
    requires KeysOk(bundle) && KeysOk(forced) && IsDict(bundle) && IsDict(forced)
    ensures var w, u := Supersede(Overrides(bundle, overwrite, forced)), Merge(t, bundle, overwrite, forced);
            var tail := Tail(t, bundle, forced);
            Merge(u, bundle, overwrite, forced) == u
            <==> (tail == [] || !Swallowing(w, t)) && CleanWrites(w, Scan(t)) && CleanTail(w, tail)
  {
    hide Scan, Tail, KeysOk, IsDict, Swallowing, Overrides, CleanWrites, CleanTail, Merge;
    if Tail(t, bundle, forced) == [] || !Swallowing(Supersede(Overrides(bundle, overwrite, forced)), t) {
      MergeTwiceClosed(t, bundle, overwrite, forced);
    } else {
      MergeTwiceSwallowed(t, bundle, overwrite, forced);
    }
  }

  // ---------------------------------------------------------------------------------------------
  // Comments, blank lines and malformed lines
  // ---------------------------------------------------------------------------------------------

  /** A line without the newline that ends it. */
  function Unended(s: string): string { if s != "" && s[|s| - 1] == '\n' then s[..|s| - 1] else s }

  function CommentOf(r: Record): seq<string> { if r.Raw? then [Unended(r.raw)] else [] }

  /** Every line that is not an assignment, in order. */
  function Comments(rs: seq<Record>): seq<string> {
    if rs == [] then [] else CommentOf(rs[0]) + Comments(rs[1..])
  }

  lemma {:induction false} CommentsAppend(a: seq<Record>, b: seq<Record>)
    ensures Comments(a + b) == Comments(a) + Comments(b)
  {
    hide CommentOf;
    if a == [] {
      assert a + b == b;
    } else {
      assert (a + b)[1..] == a[1..] + b;
      CommentsAppend(a[1..], b);
    }
  }

  lemma {:induction false} OneComment(r: Record)
    ensures Comments([r]) == CommentOf(r)
  {
  }

  lemma {:induction false} WroteComments(k: string, v: string)
    ensures Comments(Wrote(k, v)) == if RoundTrips(v) then [] else [""]
  {
    hide RoundTrips, PrintLine;
    var p := Printed(k, ReadBack(v));
    OneComment(p);
    OneComment(Raw("\n"));
    CommentsAppend([p], [Raw("\n")]);
    assert [p] + [] == [p];
  }

  lemma {:induction false} ImageComments(w: Rewrite, r: Record)
    requires w.Supersede?
    ensures Comments(Image(w, r)) == CommentOf(r) + if WritesWell(w, r) then [] else [""]
  {
    hide RoundTrips, Wrote, Unended;
    OneComment(r);
    if Rewrites(w, r) { WroteComments(r.key, w.values[r.key]); }
  }

  /** Rewriting keeps every comment, and adds an empty line for each value that does not round-trip. */
  lemma {:induction false} ImagesComments(w: Rewrite, rs: seq<Record>)
    requires w.Supersede?
    ensures |Comments(Images(w, rs))| >= |Comments(rs)|
    ensures |Comments(Images(w, rs))| == |Comments(rs)| <==> CleanWrites(w, rs)
    ensures CleanWrites(w, rs) ==> Comments(Images(w, rs)) == Comments(rs)
  {
    hide Image, WritesWell, CommentOf;
    if rs != [] {
      ImageComments(w, rs[0]);
      ImagesComments(w, rs[1..]);
      CommentsAppend(Image(w, rs[0]), Images(w, rs[1..]));
      assert CleanWrites(w, rs) <==> WritesWell(w, rs[0]) && CleanWrites(w, rs[1..]);
    }
  }

  ghost predicate AllRoundTrip(bs: Bindings) { forall i :: 0 <= i < |bs| ==> RoundTrips(bs[i].1) }

  lemma {:induction false} TailComments(bs: Bindings)
    requires KeysOk(bs)
    ensures Comments(Records(LinesOfAll(bs))) == [] <==> AllRoundTrip(bs)
  {
    hide LinesOf, Records, RoundTrips, IsKey, Wrote, Comments;
    if bs == [] {
      NothingSettled(Blank);
      assert Comments([]) == [] by { NoComments(); }
    } else {
      var (k, v) := bs[0];
      WroteIsRecords(k, v);
      WroteComments(k, v);
      TailComments(bs[1..]);
      RecordsAppend(LinesOf(k, v), LinesOfAll(bs[1..]));
      CommentsAppend(Wrote(k, v), Records(LinesOfAll(bs[1..])));
      assert AllRoundTrip(bs) <==> RoundTrips(v) && AllRoundTrip(bs[1..]);
    }
  }

  lemma {:induction false} NothingPrinted()
    ensures LinesOfAll([]) == [] && Comments(Records([])) == []
  {
  }

  lemma {:induction false} NoComments()
    ensures Comments([]) == []
  {
  }

  lemma {:induction false} CompletedComments(ps: seq<string>)
    requires Lines(ps) && (ps != [] ==> !ScanHead(ps[|ps| - 1]).open)
    ensures Comments(Records(CompletedLines(ps))) == Comments(Records(ps))
  {
    hide ScanHead, HeadRecord, Single, Records, AllComplete, Completed, Comments;
    if ps != [] {
      var init, last := Records(ps[..|ps| - 1]), ps[|ps| - 1];
      CompletedRecords(ps[..|ps| - 1], last);
      assert ps == ps[..|ps| - 1] + [last];
      hide CompletedLines;
      CommentsAppend(init, [HeadRecord(last)]);
      CommentsAppend(init, [HeadRecord(Completed(last))]);
      OneComment(HeadRecord(last));
      OneComment(HeadRecord(Completed(last)));
      CompletedComment(last);
    }
  }

  lemma {:induction false} CompletedComment(p: string)
    requires Single(p) && !ScanHead(p).open
    ensures CommentOf(HeadRecord(Completed(p))) == CommentOf(HeadRecord(p))
  {
    hide ScanHead;
    if !EndsLine(p) {
      CompletingALine(p);
      CompleteIsSingle(Completed(p));
      ScanSingle(Completed(p));
      ScanSingle(p);
    }
  }

  lemma {:induction false} RecordsCount(ps: seq<string>)
    ensures |Records(ps)| == |ps|
  {
    hide HeadRecord;
    if ps != [] { RecordsCount(ps[1..]); }
  }

  lemma {:induction false} ClosedComments(m: string, bs: Bindings)
    requires !Open(m) && KeysOk(bs) && bs != []
    ensures |Scan(Append(m, SerializeEnv(bs)))| == |Scan(m)| + |LinesOfAll(bs)|
    ensures Comments(Scan(Append(m, SerializeEnv(bs)))) == Comments(Scan(m)) + Comments(Records(LinesOfAll(bs)))
  {
    hide Scan, ScanHead, Append, SerializeEnv, LinesOfAll, Records, Comments, Single, AllComplete;
    AppendBinds(m, bs);
    ScanGivesLines(m);
    RecordsCount(CompletedLines(Raws(Scan(m))));
    RecordsCount(LinesOfAll(bs));
    hide CompletedLines;
    CompletedComments(Raws(Scan(m)));
    CommentsAppend(Records(CompletedLines(Raws(Scan(m)))), Records(LinesOfAll(bs)));
  }

  /** A value that does not round-trip is printed bare, so its line closes no quote. */
  lemma {:induction false} BareHoldsNoQuote(k: string, v: string)
    requires IsKey(k) && !RoundTrips(v)
    ensures !HoldsQuote(LinesOf(k, v)[0]) && |LinesOf(k, v)| == 2
  {
    hide IsSafe;
    QuotesAreNotSafe();
  }

  lemma {:induction false} QuotesAreNotSafe()
    ensures forall c :: IsSafe(c) ==> c != '"' && c != '\''
    ensures forall c :: IsKeyChar(c) ==> c != '"' && c != '\''
  {
  }

  /** So no binding is swallowed in part. */
  lemma {:induction false} SwallowedBindings(bs: Bindings, j: nat) returns (i: nat)
    requires KeysOk(bs) && 0 < j <= |LinesOfAll(bs)|
    requires j < |LinesOfAll(bs)| ==> HoldsQuote(LinesOfAll(bs)[j - 1])
    ensures 0 < i <= |bs| && LinesOfAll(bs)[j..] == LinesOfAll(bs[i..])
  {
    hide LinesOf, RoundTrips, IsKey, HoldsQuote;
    var head, rest := LinesOf(bs[0].0, bs[0].1), LinesOfAll(bs[1..]);
    assert LinesOfAll(bs) == head + rest;
    if j <= |head| {
      if j < |head| {
        OneOrTwoLines(bs[0].0, bs[0].1);
        BareHoldsNoQuote(bs[0].0, bs[0].1);
        assert false;
      }
      i := 1;
    } else {
      i := SwallowedBindings(bs[1..], j - |head|);
      assert LinesOfAll(bs)[j..] == rest[j - |head|..];
      assert bs[1..][i..] == bs[i + 1..];
      i := i + 1;
    }
  }

  lemma {:induction false} OneOrTwoLines(k: string, v: string)
    ensures RoundTrips(v) ==> |LinesOf(k, v)| == 1
    ensures !RoundTrips(v) ==> |LinesOf(k, v)| == 2
  {
  }

  /** Lines that are swallowed take no comment with them, and leave none. */
  lemma {:induction false} OpenComments(m: string, bs: Bindings) returns (i: nat)
    requires Open(m) && KeysOk(bs) && bs != []
    ensures 0 < i <= |bs|
    ensures |Scan(Append(m, SerializeEnv(bs)))| == |Scan(m)| + |LinesOfAll(bs[i..])|
    ensures Comments(Scan(Append(m, SerializeEnv(bs)))) == Comments(Scan(m)) + Comments(Records(LinesOfAll(bs[i..])))
  {
    hide Open, Scan, ScanHead, Append, SerializeEnv, LinesOfAll, Records, Comments, Single, Raws, HeadRecord, Completed,
         HoldsQuote;
    var p, j := OpenAppendScans(m, bs);
    i := SwallowedBindings(bs, j);
    var rs, u, ps := Scan(m), HeadRecord(Completed(p) + SerializeEnv(bs)), LinesOfAll(bs[i..]);
    var n := |rs| - 1;
    LastLine(m);
    assert rs == rs[..n] + [rs[n]];
    CommentsAppend(rs[..n], [rs[n]]);
    OneComment(rs[n]);
    CommentsAppend(rs[..n] + [u], Records(ps));
    CommentsAppend(rs[..n], [u]);
    OneComment(u);
    RecordsCount(ps);
  }

  lemma {:induction false} KeptExactly(before: seq<string>, rewritten: seq<string>, added: seq<string>, clean: bool)
    requires |rewritten| >= |before| && (|rewritten| == |before| <==> clean) && (clean ==> rewritten == before)
    ensures rewritten + added == before <==> clean && added == []
  {
  }

  lemma {:induction false} SuffixKeysOk(bs: Bindings, i: nat)
    requires KeysOk(bs) && i <= |bs|
    ensures KeysOk(bs[i..])
  {
  }

  /**
   * A merge keeps every comment, blank line and malformed line of the target, in order and with none
   * added, exactly when every value it writes round-trips, but for the bindings that an unclosed quote
   * at the end of the target swallows. These are the first `i` of those that are added, so many that the
   * merge has only as many lines more than the rewritten target as the others print.
   */
  lemma {:induction false} MergeKeepsComments(t: string, bundle: Bindings, overwrite: bool, forced: Bindings)
    returns (i: nat)
    requires KeysOk(bundle) && KeysOk(forced) && IsDict(bundle) && IsDict(forced)
    ensures var w, tail := Supersede(Overrides(bundle, overwrite, forced)), Tail(t, bundle, forced);
            var merged := Scan(Merge(t, bundle, overwrite, forced));
            && i <= |tail| && (i > 0 <==> tail != [] && Swallowing(w, t))
            && |merged| == |Scan(Rewritten(w, t))| + |LinesOfAll(tail[i..])|
            && (Comments(merged) == Comments(Scan(t)) <==> CleanWrites(w, Scan(t)) && AllRoundTrip(tail[i..]))
  {
    hide Scan, Open, Tail, KeysOk, IsDict, Swallowing, Overrides, CleanWrites, Append, Rewritten, SerializeEnv,
         LinesOfAll, Records, Comments, AllRoundTrip;
    var w, tail := Supersede(Overrides(bundle, overwrite, forced)), Tail(t, bundle, forced);
    var m := Rewritten(w, t);
    TailFacts(t, bundle, forced);
    ScanRewritten(w, t);
    RewrittenOpen(w, t);
    ImagesComments(w, Scan(t));
    i := 0;
    if tail == [] {
      EmptyTail(m);
      NothingPrinted();
    } else if Open(m) {
      i := OpenComments(m, tail);
    } else {
      ClosedComments(m, tail);
    }
    assert tail[0..] == tail;
    SuffixKeysOk(tail, i);
    KeptExactly(Comments(Scan(t)), Comments(Scan(m)), Comments(Records(LinesOfAll(tail[i..]))),
                CleanWrites(w, Scan(t)));
    TailComments(tail[i..]);
  }
}
