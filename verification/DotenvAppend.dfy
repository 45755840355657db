/**
 * Adding lines at the end of a dotenv text. After a closed last line they scan as themselves; after an open
 * one, whose quote is not closed, the first of them at least is swallowed, and only whole lines are left over.
 */
module DotenvAppend {
  import opened Text
  import opened Dotenv
  import opened DotenvPrint
  import opened DotenvLines
  import opened DotenvRewrite

  // ---------------------------------------------------------------------------------------------
  // After a closed last line
  // ---------------------------------------------------------------------------------------------

  function CompletedLines(ps: seq<string>): seq<string> {
    if ps == [] then [] else ps[..|ps| - 1] + [Completed(ps[|ps| - 1])]
  }

  lemma {:induction false} CompletedSnoc(init: seq<string>, last: string)
    ensures CompletedLines(init + [last]) == init + [Completed(last)]
  {
  }

  lemma {:induction false} CompletedConcat(ps: seq<string>)
    requires Lines(ps)
    ensures Concat(CompletedLines(ps)) == Completed(Concat(ps))
  {
    hide Single, Complete;
    if ps != [] {
      var init, last := ps[..|ps| - 1], ps[|ps| - 1];
      assert ps == init + [last];
      ConcatSnoc(init, last);
      ConcatSnoc(init, Completed(last));
      assert last != "" by { LastIsNotEmpty(ps); }
      assert Concat(ps)[|Concat(ps)| - 1] == last[|last| - 1];
      assert Concat(init) + (last + "\n") == Concat(init) + last + "\n";
    }
  }

  lemma {:induction false} LastIsNotEmpty(ps: seq<string>)
    requires Lines(ps) && ps != []
    ensures ps[|ps| - 1] != ""
  {
  }

  /** Lines added after a closed last line scan as themselves; no binding before them changes. */
  lemma {:induction false} AppendScans(ps: seq<string>, tail: seq<string>)
    requires Lines(ps) && AllComplete(tail) && tail != []
    requires ps != [] ==> !ScanHead(ps[|ps| - 1]).open
    ensures Append(Concat(ps), Concat(tail)) == Concat(CompletedLines(ps) + tail)
    ensures Scan(Append(Concat(ps), Concat(tail))) == Records(CompletedLines(ps)) + Records(tail)
    ensures Assignments(Records(CompletedLines(ps))) == Assignments(Records(ps))
  {
    hide Single, Complete, ScanHead, Records, Assignments, Concat;
    ConcatNotEmpty(tail);
    CompletedConcat(ps);
    ConcatAppend(CompletedLines(ps), tail);
    CompletedLinesAreComplete(ps);
    AllCompleteIsLines(CompletedLines(ps) + tail);
    ScanLines(CompletedLines(ps) + tail);
    RecordsAppend(CompletedLines(ps), tail);
  }

  lemma {:induction false} ConcatNotEmpty(ps: seq<string>)
    requires AllComplete(ps) && ps != []
    ensures Concat(ps) != ""
  {
  }

  lemma {:induction false} CompletedLinesAreComplete(ps: seq<string>)
    requires Lines(ps)
    requires ps != [] ==> !ScanHead(ps[|ps| - 1]).open
    ensures AllComplete(CompletedLines(ps))
    ensures Assignments(Records(CompletedLines(ps))) == Assignments(Records(ps))
  {
    hide Single, Complete, ScanHead, Assignments, Records, HeadRecord, CompletedLines, Completed;
    if ps == [] {
      NothingToComplete();
    } else {
      var init, last := ps[..|ps| - 1], ps[|ps| - 1];
      CompletedSnoc(init, last);
      assert ps == init + [last];
      CompletingALine(last);
      CompletedBindings(init, last);
    }
  }

  lemma {:induction false} NothingToComplete()
    ensures CompletedLines([]) == []
  {
  }

  lemma {:induction false} CompletedBindings(init: seq<string>, last: string)
    requires ScanHead(last).binding == ScanHead(Completed(last)).binding
    ensures Assignments(Records(init + [last])) == Assignments(Records(init + [Completed(last)]))
  {
    hide ScanHead, Assignments, Records, HeadRecord, Completed;
    RecordsAppend(init, [last]);
    RecordsAppend(init, [Completed(last)]);
    AssignmentsAppend(Records(init), Records([last]));
    AssignmentsAppend(Records(init), Records([Completed(last)]));
    SameBinding(last, Completed(last));
  }

  lemma {:induction false} SameBinding(p: string, q: string)
    requires ScanHead(p).binding == ScanHead(q).binding
    ensures Assignments(Records([p])) == Assignments(Records([q]))
  {
  }

  lemma {:induction false} OneRecord(p: string)
    ensures Records([p]) == [HeadRecord(p)] && Assignments(Records([p])) == BindingOf(HeadRecord(p))
  {
  }

  // ---------------------------------------------------------------------------------------------
  // After an open last line: the lines are swallowed, the first of them always
  // ---------------------------------------------------------------------------------------------

  /** A line with one newline, at its end. */
  ghost predicate OneLine(p: string) { p != "" && IndexOf(p, '\n', 0) == |p| - 1 }

  ghost predicate OneLines(ps: seq<string>) { forall i :: 0 <= i < |ps| ==> OneLine(ps[i]) }

  ghost predicate HoldsQuote(p: string) { '"' in p || '\'' in p }

  /** The first newline at or after `x` ends one of the lines: the one that `x` is in. */
  lemma {:induction false} NewlineEndsALine(ps: seq<string>, x: nat) returns (j: nat)
    requires OneLines(ps) && x < |Concat(ps)|
    ensures 0 < j <= |ps|
    ensures IndexOf(Concat(ps), '\n', x) + 1 == |Concat(ps[..j])| && Concat(ps)[x] in ps[j - 1]
  {
    hide IndexOf;
    var p, rest := ps[0], ps[1..];
    assert OneLine(p) && OneLines(rest);
    var t := Concat(ps);
    assert t == p + Concat(rest);
    if x < |p| {
      j := 1;
      NewlineInHead(p, Concat(rest), x);
      assert ps[..1] == [p];
      assert Concat([p]) == p;
    } else {
      var i := NewlineEndsALine(rest, x - |p|);
      j := i + 1;
      assert t[|p|..] == Concat(rest);
      IndexOfShift(t, |p|, '\n', x - |p|);
      assert ps[..j] == [p] + rest[..i];
      assert Concat([p] + rest[..i]) == p + Concat(rest[..i]);
    }
  }

  lemma {:induction false} NewlineInHead(p: string, rest: string, x: nat)
    requires OneLine(p) && x < |p|
    ensures IndexOf(p + rest, '\n', x) == |p| - 1
  {
    forall k | x <= k < |p| - 1 ensures (p + rest)[k] != '\n' {
      if (p + rest)[k] == '\n' { IndexOfFirst(p, '\n', 0, k); }
    }
    IndexOfAt(p + rest, '\n', x, |p| - 1);
  }

  lemma {:induction false} CloseQuoteRunsOn(p: string, u: string, i: nat, quote: char)
    requires IsQuote(quote) && CloseQuote(p, i, quote) >= |p| && i <= |p| + 1
    requires Agree(p, u, |p|) && (EndsLine(p) ==> i <= |p|) && (!EndsLine(p) ==> |p| < |u| && u[|p|] == '\n')
    ensures CloseQuote(u, i, quote) >= |Completed(p)|
    decreases |p| + 1 - i
  {
    if i < |p| {
      assert u[i] == p[i];
      if p[i] == '\\' && quote == '"' {
        CloseQuoteRunsOn(p, u, i + 2, quote);
      } else {
        CloseQuoteRunsOn(p, u, i + 1, quote);
      }
    } else if i == |p| && !EndsLine(p) {
      assert CloseQuote(u, i, quote) == CloseQuote(u, i + 1, quote);
    }
  }

  lemma {:induction false} SkipBlanksRunsOn(p: string, u: string, i: nat)
    requires i <= |p| && Agree(p, u, |p|)
    requires !EndsLine(p) ==> |p| < |u| && u[|p|] == '\n'
    requires EndsLine(p) ==> i < |p|
    ensures SkipBlanks(u, i) == SkipBlanks(p, i)
    ensures EndsLine(p) ==> SkipBlanks(p, i) < |p|
    decreases |p| - i
  {
    if i < |p| && (p[i] == ' ' || p[i] == '\t') {
      SkipBlanksRunsOn(p, u, i + 1);
    }
  }

  /** Where the swallowing record's quote is looked for, and how far the search runs. */
  lemma {:induction false} OpenQuoteRunsOn(p: string, u: string) returns (close: nat)
    requires Single(p) && ScanHead(p).open && Agree(p, u, |p|)
    requires !EndsLine(p) ==> |p| < |u| && u[|p|] == '\n'
    ensures ScanHead(u).binding.Some? && ScanHead(p).binding.Some?
            && ScanHead(u).binding.value.0 == ScanHead(p).binding.value.0
    ensures close >= |Completed(p)| && ScanHead(u).stop == IndexOf(u, '\n', close)
    ensures (ScanHead(u).open <==> close >= |u|) && (close < |u| ==> IsQuote(u[close]))
  {
    hide ParseLine, IndexOf, SkipBlanks, CloseQuote, QuotedValue;
    var lineEnd := IndexOf(p, '\n', 0);
    if EndsLine(p) { IndexOfFirst(p, '\n', 0, |p| - 1); }
    IndexOfAgrees(p, u, '\n', 0, lineEnd);
    assert u[..lineEnd] == p[..lineEnd];
    var l := ParseLine(p[..lineEnd]);
    EqualsFound(p, 0, lineEnd);
    QuoteRunsOn(p, u, l.quote);
    close := CloseQuote(u, SkipBlanks(u, IndexOf(u, '=', 0) + 1) + 1, l.quote);
    assert ScanHead(u) == QuotedHead(u, l.key, l.quote);
  }

  lemma {:induction false} QuoteRunsOn(p: string, u: string, quote: char)
    requires IsQuote(quote) && IndexOf(p, '=', 0) < IndexOf(p, '\n', 0) && QuotedHead(p, "", quote).open
    requires Agree(p, u, |p|) && (!EndsLine(p) ==> |p| < |u| && u[|p|] == '\n')
    ensures CloseQuote(u, SkipBlanks(u, IndexOf(u, '=', 0) + 1) + 1, quote) >= |Completed(p)|
  {
    hide IndexOf, SkipBlanks, CloseQuote, QuotedValue;
    var eq := IndexOf(p, '=', 0);
    IndexOfAgrees(p, u, '=', 0, eq);
    if p[|p| - 1] == '\n' { IndexOfFirst(p, '\n', 0, |p| - 1); }
    SkipBlanksRunsOn(p, u, eq + 1);
    CloseQuoteRunsOn(p, u, SkipBlanks(p, eq + 1) + 1, quote);
  }

  /** An open last line takes at least the first line put after it, and the last it takes holds a quote. */
  lemma {:induction false} Swallows(p: string, ps: seq<string>) returns (j: nat)
    requires Single(p) && ScanHead(p).open && OneLines(ps) && ps != []
    ensures 0 < j <= |ps|
    ensures var u := Completed(p) + Concat(ps);
            && HeadLength(u) == |Completed(p)| + |Concat(ps[..j])|
            && ScanHead(u).binding.Some? && ScanHead(p).binding.Some?
            && ScanHead(u).binding.value.0 == ScanHead(p).binding.value.0
            && (ScanHead(u).open ==> j == |ps|) && (j < |ps| ==> HoldsQuote(ps[j - 1]))
  {
    hide IndexOf, ScanHead, Concat;
    var p', tail := Completed(p), Concat(ps);
    var u := p' + tail;
    var close := OpenQuoteRunsOn(p, u);
    if close >= |u| {
      j := |ps|;
      assert ps[..j] == ps;
      assert HeadLength(u) == |u| by { assert ScanHead(u).stop == |u|; }
    } else {
      j := NewlineEndsALine(ps, close - |p'|);
      IndexOfShift(u, |p'|, '\n', close - |p'|);
      assert u[|p'|..] == tail;
      assert u[close] == tail[close - |p'|];
      PrefixNotLonger(ps, j);
    }
  }

  lemma {:induction false} PrefixNotLonger(ps: seq<string>, j: nat)
    requires j <= |ps|
    ensures |Concat(ps[..j])| <= |Concat(ps)|
    ensures Concat(ps)[|Concat(ps[..j])|..] == Concat(ps[j..])
  {
    assert ps == ps[..j] + ps[j..];
    ConcatAppend(ps[..j], ps[j..]);
  }

  /** What a text with an open last line scans to once lines have been put after it. */
  lemma {:induction false} SwallowedScan(p: string, ps: seq<string>) returns (j: nat)
    requires Single(p) && ScanHead(p).open && OneLines(ps) && AllComplete(ps) && ps != []
    ensures 0 < j <= |ps|
    ensures var u := Completed(p) + Concat(ps);
            && Scan(u) == [HeadRecord(u)] + Records(ps[j..])
            && HeadRecord(u).Assignment? && HeadRecord(p).Assignment? && HeadRecord(u).key == HeadRecord(p).key
            && (ScanHead(u).open ==> j == |ps|) && (j < |ps| ==> HoldsQuote(ps[j - 1]))
  {
    hide ScanHead, Complete, OneLine, HeadLength;
    j := Swallows(p, ps);
    var u := Completed(p) + Concat(ps);
    PrefixNotLonger(ps, j);
    assert u[HeadLength(u)..] == Concat(ps[j..]);
    AllCompleteIsLines(ps[j..]);
    ScanLines(ps[j..]);
  }
}
