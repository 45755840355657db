/**
 * Texts as sequences of lines: scanning a text cuts it into lines that scan alone, and lines put together
 * scan to their records. All but the last of them are complete: closed, and ended by their own newline.
 */
module DotenvLines {
  import opened Text
  import opened Dotenv
  import opened DotenvPrint

  /** One record and nothing else. */
  ghost predicate Single(p: string) { p != "" && HeadLength(p) == |p| }

  /** One closed record and the newline that ends it: safe to put anything after. */
  ghost predicate Complete(p: string) {
    p != "" && !ScanHead(p).open && ScanHead(p).stop == |p| - 1
  }

  ghost predicate AllComplete(ps: seq<string>) { forall i :: 0 <= i < |ps| ==> Complete(ps[i]) }

  /** Only the last line of a text may lack its newline or its closing quote. */
  ghost predicate Lines(ps: seq<string>) {
    ps != [] ==> AllComplete(ps[..|ps| - 1]) && Single(ps[|ps| - 1])
  }

  function Records(ps: seq<string>): seq<Record> {
    if ps == [] then [] else [HeadRecord(ps[0])] + Records(ps[1..])
  }

  function Raws(rs: seq<Record>): (ps: seq<string>)
    ensures |ps| == |rs| && forall i :: 0 <= i < |rs| ==> ps[i] == rs[i].raw
  {
    if rs == [] then [] else [rs[0].raw] + Raws(rs[1..])
  }

  /** The text ends inside a quoted value that is never closed. */
  ghost predicate Open(t: string) {
    var ps := Raws(Scan(t));
    ps != [] && ScanHead(ps[|ps| - 1]).open
  }

  function EndsLine(t: string): bool { t == "" || t[|t| - 1] == '\n' }
  function Completed(t: string): string { if EndsLine(t) then t else t + "\n" }

  /** How both the merge and the editor add lines at the end. */
  function Append(t: string, tail: string): string {
    if tail == "" then t else Completed(t) + tail
  }

  // ---------------------------------------------------------------------------------------------
  // Cutting a text into lines, and scanning lines put together
  // ---------------------------------------------------------------------------------------------

  lemma {:induction false} CompleteIsSingle(p: string)
    requires Complete(p)
    ensures Single(p) && p[|p| - 1] == '\n'
  {
  }

  lemma {:induction false} ScanSingle(p: string)
    requires Single(p)
    ensures Scan(p) == [HeadRecord(p)] && HeadRecord(p).raw == p
  {
  }

  /** A complete line scans to its own record, whatever follows. */
  lemma {:induction false} ScanAfterLine(p: string, rest: string)
    requires Complete(p)
    ensures Scan(p + rest) == [HeadRecord(p)] + Scan(rest)
    ensures ScanHead(p + rest) == ScanHead(p)
  {
    hide ScanHead;
    HeadIsLocal(p, p + rest);
    assert (p + rest)[..|p|] == p && (p + rest)[|p|..] == rest;
    assert p[..|p|] == p;
  }

  /** The first record of a text, cut out, is the same record; and complete if anything follows. */
  lemma {:induction false} HeadCutsOut(t: string)
    requires t != ""
    ensures var p := t[..HeadLength(t)];
            && Single(p) && HeadRecord(p) == HeadRecord(t) && ScanHead(p) == ScanHead(t)
            && (HeadLength(t) < |t| ==> Complete(p))
  {
    hide ScanHead;
    var p := t[..HeadLength(t)];
    if ScanHead(t).open {
      assert p == t;
    } else {
      HeadIsLocal(t, p);
    }
    assert p[..|p|] == p;
  }

  /** Scanning puts the text back together, and cuts it into lines that scan alone. */
  lemma {:induction false} ScanGivesLines(t: string)
    ensures var ps := Raws(Scan(t));
            Lines(ps) && Concat(ps) == t && Records(ps) == Scan(t)
    decreases |t|
  {
    hide ScanHead, HeadLength, HeadRecord, Complete, Single;
    if t != "" {
      var n := HeadLength(t);
      var p, rest := t[..n], t[n..];
      HeadCutsOut(t);
      ScanGivesLines(rest);
      ScanSingle(p);
      var ps, qs := Raws(Scan(t)), Raws(Scan(rest));
      assert ps == [p] + qs;
      assert t == p + rest;
      if rest == "" {
        ScanNothing();
        assert ps[..0] == [];
      } else {
        assert qs != [] by { assert Concat(qs) == rest; }
        assert ps[..|ps| - 1] == [p] + qs[..|qs| - 1];
      }
    }
  }

  lemma {:induction false} LinesTail(ps: seq<string>)
    requires Lines(ps) && |ps| > 1
    ensures Complete(ps[0]) && Lines(ps[1..])
  {
    hide Complete, Single;
    assert ps[..|ps| - 1][0] == ps[0];
    assert ps[1..][..|ps| - 2] == ps[..|ps| - 1][1..];
  }

  lemma {:induction false} ScanOneLine(p: string)
    requires Single(p)
    ensures Scan(Concat([p])) == Records([p]) && Raws(Records([p])) == [p]
  {
    hide Single, Scan, HeadRecord;
    ScanSingle(p);
    assert Concat([p]) == p;
    assert Records([p]) == [HeadRecord(p)];
    assert Raws([HeadRecord(p)]) == [p];
  }

  /** Lines put together scan to their records. */
  lemma {:induction false} ScanLines(ps: seq<string>)
    requires Lines(ps)
    ensures Scan(Concat(ps)) == Records(ps) && Raws(Records(ps)) == ps
  {
    hide Complete, Single, Scan, HeadRecord;
    if ps == [] {
      ScanNothing();
    } else if |ps| == 1 {
      ScanOneLine(ps[0]);
      assert ps == [ps[0]];
    } else {
      LinesTail(ps);
      CompleteIsSingle(ps[0]);
      ScanSingle(ps[0]);
      ScanAfterLine(ps[0], Concat(ps[1..]));
      ScanLines(ps[1..]);
    }
  }

  lemma {:induction false} RecordsAppend(ps: seq<string>, qs: seq<string>)
    ensures Records(ps + qs) == Records(ps) + Records(qs)
  {
    hide HeadRecord;
    if ps == [] {
      assert ps + qs == qs;
    } else {
      assert (ps + qs)[1..] == ps[1..] + qs;
      RecordsAppend(ps[1..], qs);
    }
  }

  lemma {:induction false} AllCompleteIsLines(ps: seq<string>)
    requires AllComplete(ps)
    ensures Lines(ps)
  {
  }

  /** A line that is closed can be given its newline, or already has it. */
  lemma {:induction false} CompletingALine(p: string)
    requires Single(p) && !ScanHead(p).open
    ensures Complete(Completed(p)) && ScanHead(Completed(p)) == ScanHead(p)
  {
    hide ScanHead;
    if p[|p| - 1] == '\n' {
      ClosedStopsAtNewline(p);
    } else {
      HeadIsLocal(p, p + "\n");
    }
  }

  lemma {:induction false} ClosedStopsAtNewline(p: string)
    requires p != "" && p[|p| - 1] == '\n' && !ScanHead(p).open
    ensures ScanHead(p).stop < |p|
  {
    hide ParseLine, IndexOf, QuotedValue, SkipBlanks, CloseQuote;
    IndexOfFirst(p, '\n', 0, |p| - 1);
    var l := ParseLine(p[..IndexOf(p, '\n', 0)]);
    if l.Quoted? {
      var close := CloseQuote(p, SkipBlanks(p, IndexOf(p, '=', 0) + 1) + 1, l.quote);
      IndexOfFirst(p, '\n', close, |p| - 1);
    }
  }
}
