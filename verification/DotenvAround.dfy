/**
 * Scanning a dotenv text around a path that stands at the start of a token: whatever the path is, the records
 * are the same but for the path itself, which at most one value carries as it is, quoted, escaped or bare.
 */
module DotenvAround {
  import opened Options
  import opened Sequences
  import opened Text
  import opened Dotenv
  import opened DotenvLines
  import opened DotenvRewrite
  import opened PathRemap

  /** What begins here ends a root: a slash or a separator. */
  predicate Breaks(b: string) { b == "" || b[0] == '/' || IsSeparator(b[0]) }

  /** An absolute path of token characters, without a backslash. */
  predicate Root(s: string) { s != "" && s[0] == '/' && TokenOnly(s) && forall i :: 0 <= i < |s| ==> s[i] != '\\' }

  // ---------------------------------------------------------------------------------------------
  // Searching and stripping
  // ---------------------------------------------------------------------------------------------

  lemma {:induction false} RootChars(s: string)
    requires Root(s)
    ensures forall i :: 0 <= i < |s| ==>
              !IsSpace(s[i]) && !IsQuote(s[i]) && s[i] != '=' && s[i] != '\n' && s[i] != ' ' && s[i] != '\\'
    ensures s[0] != '#' && s[0] != ' ' && s[0] != '\t'
  {
  }

  lemma {:induction false} Places(a: string, s: string, b: string)
    ensures var t := a + s + b;
            && t[..|a|] == a && t[|a|..] == s + b && t[|a| + |s|..] == b && |t| == |a| + |s| + |b|
            && (forall i :: 0 <= i < |a| ==> t[i] == a[i]) && (forall i :: 0 <= i < |s| ==> t[|a| + i] == s[i])
            && forall i :: 0 <= i < |b| ==> t[|a| + |s| + i] == b[i]
  {
  }

  /** A separator is found before the path or after it. */
  lemma {:induction false} IndexAround(a: string, s: string, b: string, c: char, i: nat)
    requires Root(s) && (c == '\n' || c == '=') && i <= |a|
    ensures IndexOf(a + s + b, c, i)
            == if IndexOf(a, c, i) < |a| then IndexOf(a, c, i) else |a| + |s| + IndexOf(b, c, 0)
    decreases |a| - i
  {
    RootChars(s);
    hide IsSpace, IsQuote, Root;
    var t := a + s + b;
    if i < |a| {
      assert t[i] == a[i];
      if a[i] != c { IndexAround(a, s, b, c, i + 1); }
    } else {
      hide IndexOf;
      assert forall k :: |a| <= k < |a| + |s| ==> t[k] == s[k - |a|];
      IndexOverRoot(t, |a|, |a| + |s|, c);
      IndexAfter(a, s, b, c, 0);
    }
  }

  lemma {:induction false} IndexOverRoot(t: string, i: nat, j: nat, c: char)
    requires i <= j <= |t| && forall k :: i <= k < j ==> t[k] != c
    ensures IndexOf(t, c, i) == IndexOf(t, c, j)
    decreases j - i
  {
    if i < j { IndexOverRoot(t, i + 1, j, c); }
  }

  lemma {:induction false} IndexAfter(a: string, s: string, b: string, c: char, i: nat)
    ensures IndexOf(a + s + b, c, |a| + |s| + i) == |a| + |s| + IndexOf(b, c, i)
  {
    hide IndexOf;
    var t := a + s + b;
    assert t[|a| + |s|..] == b;
    IndexOfShift(t, |a| + |s|, c, i);
  }

  lemma {:induction false} SkipSpacesAround(a: string, s: string, b: string, i: nat)
    requires Root(s) && i <= |a|
    ensures SkipSpaces(a + s + b, i) == SkipSpaces(a, i)
    decreases |a| - i
  {
    RootChars(s);
    Places(a, s, b);
    hide IsSpace, Root;
    if i < |a| { SkipSpacesAround(a, s, b, i + 1); }
  }

  lemma {:induction false} LStripAround(a: string, s: string, b: string)
    requires Root(s)
    ensures LStrip(a + s + b) == LStrip(a) + s + b
  {
    hide SkipSpaces, Root;
    SkipSpacesAround(a, s, b, 0);
    var n := SkipSpaces(a, 0);
    assert (a + s + b)[n..] == a[n..] + s + b;
  }

  lemma {:induction false} RStripAround(a: string, s: string, b: string)
    requires Root(s)
    ensures RStrip(a + s + b) == a + s + RStrip(b)
    decreases |b|
  {
    RootChars(s);
    Places(a, s, b);
    hide IsSpace, Root;
    var t := a + s + b;
    if b == "" {
      assert t == a + s;
    } else if IsSpace(b[|b| - 1]) {
      var b' := b[..|b| - 1];
      assert t[..|t| - 1] == a + s + b';
      RStripAround(a, s, b');
    }
  }

  lemma {:induction false} StripAround(a: string, s: string, b: string)
    requires Root(s)
    ensures Strip(a + s + b) == LStrip(a) + s + RStrip(b)
  {
    hide Root, LStrip, RStrip;
    LStripAround(a, s, b);
    RStripAround(LStrip(a), s, b);
  }

  /** What is left of a suffix that ends in front of a token still does. */
  lemma {:induction false} SuffixAtStart(a: string, n: nat)
    requires AtStart(a) && n <= |a|
    ensures AtStart(a[n..])
  {
  }

  lemma {:induction false} LStripAtStart(a: string)
    requires AtStart(a)
    ensures AtStart(LStrip(a))
  {
    hide IsSeparator, SkipSpaces;
    SuffixAtStart(a, SkipSpaces(a, 0));
  }

  // ---------------------------------------------------------------------------------------------
  // One physical line
  // ---------------------------------------------------------------------------------------------

  /** What a line says up to the path: a key and the value so far, if it is an assignment by then. */
  function Lead(a: string): (l: Option<(string, string)>)
    ensures l.Some? ==> IsKey(l.value.0)
  {
    var body := WithoutExport(a);
    var eq := IndexOf(body, '=', 0);
    if (LStrip(a) != "" && LStrip(a)[0] == '#') || eq == |body| || !IsKey(Strip(body[..eq])) then None
    else Some((Strip(body[..eq]), LStrip(body[eq + 1..])))
  }

  function LineAround(a: string, s: string, b: string): Line {
    match Lead(a)
    case None => Other
    case Some((key, p)) => if p != "" && IsQuote(p[0]) then Quoted(key, p[0]) else Plain(key, Unquoted(p + s + b))
  }

  lemma {:induction false} CommentAround(a: string, s: string, b: string)
    requires Root(s)
    ensures IsBlankOrComment(a + s + b) <==> LStrip(a) != "" && LStrip(a)[0] == '#'
  {
    RootChars(s);
    hide Root, LStrip, RStrip;
    StripAround(a, s, b);
    var u := LStrip(a) + s + RStrip(b);
    assert u[0] == if LStrip(a) != "" then LStrip(a)[0] else s[0];
  }

  lemma {:induction false} ExportAround(a: string, s: string, b: string)
    requires Root(s)
    ensures WithoutExport(a + s + b) == WithoutExport(a) + s + b
    ensures AtStart(a) ==> AtStart(WithoutExport(a))
  {
    hide IsSeparator;
    LStripAround(a, s, b);
    if AtStart(a) { LStripAtStart(a); }
    hide LStrip;
    var l, n := LStrip(a), |EXPORT|;
    var u := l + s + b;
    if |l| >= n {
      assert u[..n] == l[..n];
      assert u[n..] == l[n..] + s + b;
    } else {
      RootStart(s);
      assert u[|l|] == s[0];
      assert EXPORT[|l|] != u[|l|];
    }
  }

  /** What contains a path is no key. */
  lemma {:induction false} NoKeyAround(a: string, s: string, b: string)
    requires Root(s)
    ensures !IsKey(Strip(a + s + b))
  {
    hide Root, LStrip, RStrip;
    StripAround(a, s, b);
    var u := LStrip(a) + s + RStrip(b);
    RootStart(s);
    assert u[|LStrip(a)|] == s[0];
    assert !IsKeyChar('/');
  }

  lemma {:induction false} RootStart(s: string)
    requires Root(s)
    ensures s != "" && s[0] == '/'
  {
  }

  lemma {:induction false} LineIsAround(a: string, s: string, b: string)
    requires Root(s)
    ensures ParseLine(a + s + b) == LineAround(a, s, b)
  {
    hide Root, IsBlankOrComment, WithoutExport, Strip, LStrip, IsKey, Unquoted, IndexOf;
    CommentAround(a, s, b);
    ExportAround(a, s, b);
    var a1 := WithoutExport(a);
    var body, eq := a1 + s + b, IndexOf(a1, '=', 0);
    IndexAround(a1, s, b, '=', 0);
    RootStart(s);
    if eq < |a1| {
      assert body[..eq] == a1[..eq];
      assert body[eq + 1..] == a1[eq + 1..] + s + b;
      LStripAround(a1[eq + 1..], s, b);
      var p := LStrip(a1[eq + 1..]);
      assert (p + s + b)[0] == if p != "" then p[0] else s[0];
    } else {
      var n := IndexOf(b, '=', 0);
      assert body[..|a1| + |s| + n] == a1 + s + b[..n];
      NoKeyAround(a1, s, b[..n]);
    }
  }

  lemma {:induction false} LeadAtStart(a: string)
    requires AtStart(a) && Lead(a).Some?
    ensures AtStart(Lead(a).value.1)
  {
    hide AtStart, LStrip, Strip, IsKey, IndexOf;
    ExportAround(a, "/", "");
    var body := WithoutExport(a);
    SuffixAtStart(body, IndexOf(body, '=', 0) + 1);
    LStripAtStart(body[IndexOf(body, '=', 0) + 1..]);
  }

  lemma {:induction false} CommentStep(v: string, i: nat)
    requires i < |v|
    ensures CommentAt(v, i) == if v[i] == ' ' && i + 1 < |v| && v[i + 1] == '#' then i else CommentAt(v, i + 1)
  {
  }

  /** A comment stands in front of the path or behind it. */
  lemma {:induction false} CommentAtAround(p: string, s: string, b: string, i: nat)
    requires Root(s) && i <= |p|
    ensures CommentAt(p + s + b, i) == if CommentAt(p, i) < |p| then CommentAt(p, i) else |p| + |s| + CommentAt(b, 0)
    decreases |p| - i
  {
    RootChars(s);
    hide CommentAt, IsSpace, IsQuote, Root;
    var t := p + s + b;
    if i < |p| {
      assert t[i] == p[i] && t[i + 1] == if i + 1 < |p| then p[i + 1] else s[0];
      CommentStep(p, i);
      CommentStep(t, i);
      CommentAtAround(p, s, b, i + 1);
    } else {
      assert forall k :: |p| <= k < |p| + |s| ==> t[k] == s[k - |p|];
      CommentOver(t, |p|, |p| + |s|);
      CommentShift(t, |p| + |s|, 0);
      assert t[|p| + |s|..] == b;
      CommentAtEnd(p);
    }
  }

  lemma {:induction false} CommentAtEnd(p: string)
    ensures CommentAt(p, |p|) == |p|
  {
  }

  lemma {:induction false} CommentOver(t: string, i: nat, j: nat)
    requires i <= j <= |t| && forall k :: i <= k < j ==> t[k] != ' '
    ensures CommentAt(t, i) == CommentAt(t, j)
    decreases j - i
  {
    if i < j { CommentOver(t, i + 1, j); }
  }

  lemma {:induction false} CommentShift(t: string, k: nat, i: nat)
    requires k + i <= |t|
    ensures CommentAt(t, k + i) == k + CommentAt(t[k..], i)
    decreases |t| - i
  {
    if k + i < |t| { CommentShift(t, k, i + 1); }
  }

  /** A bare value ends before the path, or carries it. */
  lemma {:induction false} UnquotedAround(p: string, s: string, b: string)
    requires Root(s)
    ensures Unquoted(p + s + b) == if CommentAt(p, 0) < |p| then Unquoted(p) else p + s + Unquoted(b)
  {
    hide Root, CommentAt, RStrip;
    CommentAtAround(p, s, b, 0);
    var n := CommentAt(b, 0);
    if CommentAt(p, 0) < |p| {
      assert (p + s + b)[..CommentAt(p, 0)] == p[..CommentAt(p, 0)];
    } else {
      assert (p + s + b)[..|p| + |s| + n] == p + s + b[..n];
      RStripAround(p, s, b[..n]);
    }
  }

  // ---------------------------------------------------------------------------------------------
  // A quoted value
  // ---------------------------------------------------------------------------------------------

  lemma {:induction false} SkipBlanksStops(t: string, i: nat, j: nat)
    requires i <= j < |t| && t[j] != ' ' && t[j] != '\t'
    ensures SkipBlanks(t, i) <= j
    decreases j - i
  {
    if i < j && (t[i] == ' ' || t[i] == '\t') { SkipBlanksStops(t, i + 1, j); }
  }

  /** The opening quote stands on the line itself. */
  lemma {:induction false} QuoteOnLine(line: string)
    requires ParseLine(line).Quoted?
    ensures IndexOf(line, '=', 0) < |line| && SkipBlanks(line, IndexOf(line, '=', 0) + 1) < |line|
  {
    hide IsBlankOrComment, Strip, LStrip, IsKey, IndexOf, SkipBlanks;
    var body := WithoutExport(line);
    var skipped, eq := |line| - |body|, IndexOf(body, '=', 0);
    assert body == line[skipped..] by { ExportIsSuffix(line); }
    IndexOfFirst(line, '=', 0, skipped + eq);
    var n := LStripStops(body[eq + 1..]);
    assert line[skipped + eq + 1 + n] == body[eq + 1..][n];
    SkipBlanksStops(line, IndexOf(line, '=', 0) + 1, skipped + eq + 1 + n);
  }

  lemma {:induction false} ExportIsSuffix(line: string)
    ensures |WithoutExport(line)| <= |line| && WithoutExport(line) == line[|line| - |WithoutExport(line)|..]
  {
    hide SkipSpaces;
  }

  lemma {:induction false} LStripStops(rest: string) returns (n: nat)
    requires LStrip(rest) != ""
    ensures n < |rest| && rest[n] == LStrip(rest)[0] && !IsSpace(rest[n])
  {
    hide SkipSpaces;
    n := SkipSpaces(rest, 0);
  }

  lemma {:induction false} SkipBlanksIn(a: string, u: string, i: nat)
    requires SkipBlanks(a, i) < |a|
    ensures SkipBlanks(a + u, i) == SkipBlanks(a, i)
    decreases |a| - i
  {
    assert (a + u)[i] == a[i];
    if a[i] == ' ' || a[i] == '\t' { SkipBlanksIn(a, u, i + 1); }
  }

  lemma {:induction false} CloseStep(t: string, i: nat, quote: char)
    requires i < |t|
    ensures CloseQuote(t, i, quote)
            == if t[i] == '\\' && quote == '"' then CloseQuote(t, i + 2, quote)
               else if t[i] == quote then i else CloseQuote(t, i + 1, quote)
  {
  }

  lemma {:induction false} NoBackslashAtStart(a: string)
    requires AtStart(a) && a != ""
    ensures a[|a| - 1] != '\\'
  {
    assert !IsSeparator('\\');
  }

  lemma {:induction false} CloseBehind(a: string, s: string, b: string, quote: char)
    requires Root(s) && IsQuote(quote)
    ensures CloseQuote(a + s + b, |a|, quote) == |a| + |s| + CloseQuote(b, 0, quote)
  {
    var t := s + b;
    RootChars(s);
    hide Root, IsSpace, CloseQuote;
    CloseOverRoot(t, 0, |s|, quote);
    CloseQuoteShift(t, |s|, 0, quote);
    CloseQuoteShift(a + s + b, |a|, 0, quote);
    assert t[|s|..] == b && (a + s + b)[|a|..] == t;
  }

  /** The closing quote is found before the path or after it. */
  lemma {:induction false} CloseAround(a: string, s: string, b: string, i: nat, quote: char)
    requires AtStart(a) && Root(s) && IsQuote(quote) && i <= |a|
    ensures CloseQuote(a + s + b, i, quote)
            == if CloseQuote(a, i, quote) < |a| then CloseQuote(a, i, quote) else |a| + |s| + CloseQuote(b, 0, quote)
    decreases |a| - i
  {
    hide Root, AtStart, IsQuote, CloseQuote;
    if i == |a| {
      CloseBehind(a, s, b, quote);
      assert CloseQuote(a, i, quote) >= |a|;
    } else {
      CloseStep(a, i, quote);
      CloseStep(a + s + b, i, quote);
      NoBackslashAtStart(a);
      if a[i] == '\\' && quote == '"' {
        CloseAround(a, s, b, i + 2, quote);
      } else if a[i] != quote {
        CloseAround(a, s, b, i + 1, quote);
      }
    }
  }

  lemma {:induction false} CloseOverRoot(t: string, i: nat, j: nat, quote: char)
    requires i <= j <= |t| && forall k :: i <= k < j ==> t[k] != '\\' && t[k] != quote
    ensures CloseQuote(t, i, quote) == CloseQuote(t, j, quote)
    decreases j - i
  {
    if i < j { CloseOverRoot(t, i + 1, j, quote); }
  }

  /** Escapes do not reach across a place where no backslash stands in front. */
  lemma {:induction false} UnescapeSplits(a: string, b: string)
    requires a == "" || a[|a| - 1] != '\\'
    ensures Unescape(a + b) == Unescape(a) + Unescape(b)
    decreases |a|
  {
    if a == "" {
      assert a + b == b;
    } else if a[0] == '\\' && |a| > 1 && Escaped(a[1]).Some? {
      assert (a + b)[0] == a[0] && (a + b)[1] == a[1] && (a + b)[2..] == a[2..] + b;
      UnescapeSplits(a[2..], b);
      Associate([Escaped(a[1]).value], Unescape(a[2..]), Unescape(b));
    } else {
      assert (a + b)[0] == a[0] && (a + b)[1..] == a[1..] + b && (|a| > 1 ==> (a + b)[1] == a[1]);
      UnescapeSplits(a[1..], b);
      Associate([a[0]], Unescape(a[1..]), Unescape(b));
    }
  }

  lemma {:induction false} UnescapePlain(s: string)
    requires forall i :: 0 <= i < |s| ==> s[i] != '\\'
    ensures Unescape(s) == s
  {
    if s != "" { UnescapePlain(s[1..]); }
  }

  lemma {:induction false} UnescapeAround(a: string, s: string, b: string)
    requires AtStart(a) && Root(s)
    ensures Unescape(a + s + b) == Unescape(a) + s + Unescape(b)
  {
    RootChars(s);
    assert !IsSeparator('\\');
    hide IsSeparator, Root, Unescape;
    UnescapePlain(s);
    assert a + s + b == a + (s + b);
    UnescapeSplits(a, s + b);
    UnescapeSplits(s, b);
    Associate(Unescape(a), s, Unescape(b));
  }

  /** The last character in front of a token stays, escaped or not. */
  lemma {:induction false} UnescapeAtStart(a: string)
    requires AtStart(a)
    ensures AtStart(Unescape(a))
    decreases |a|
  {
    if a != "" {
      if a[0] == '\\' && |a| > 1 && Escaped(a[1]).Some? {
        SuffixAtStart(a, 2);
        UnescapeAtStart(a[2..]);
        if |a| == 2 { assert Unescape(a) == [Escaped(a[1]).value] + ""; }
      } else {
        SuffixAtStart(a, 1);
        UnescapeAtStart(a[1..]);
        if |a| == 1 { assert Unescape(a) == [a[0]] + ""; }
      }
    }
  }

  lemma {:induction false} UnescapeBreaks(b: string)
    requires Breaks(b)
    ensures Breaks(Unescape(b))
  {
  }

  // ---------------------------------------------------------------------------------------------
  // The record around the path
  // ---------------------------------------------------------------------------------------------

  /** What the record binds: nothing, a value without the path, or one that carries it. */
  datatype Fit = Absent | Fixed(key: string, value: string) | Spanning(key: string, pre: string, post: string)

  function Fitted(f: Fit, s: string): Option<(string, string)> {
    match f
    case Absent => None
    case Fixed(key, value) => Some((key, value))
    case Spanning(key, pre, post) => Some((key, pre + s + post))
  }

  ghost predicate Fits(f: Fit) { f.Spanning? ==> AtStart(f.pre) && Breaks(f.post) }

  function Opening(a: string): nat { SkipBlanks(a, IndexOf(a, '=', 0) + 1) }

  function QuotedFit(a: string, b: string, key: string, quote: char): Fit {
    var close := CloseQuote(a, Opening(a) + 1, quote);
    if close < |a| then Fixed(key, QuotedValue(a, Opening(a), close, quote))
    else
      var pre, post := Slice(a, Opening(a) + 1, |a|), Slice(b, 0, CloseQuote(b, 0, quote));
      if quote == '"' then Spanning(key, Unescape(pre), Unescape(post)) else Spanning(key, pre, post)
  }

  /** How much of what stands behind the path the record takes, up to its newline. */
  function QuotedTail(a: string, b: string, quote: char): nat {
    if CloseQuote(a, Opening(a) + 1, quote) < |a| then IndexOf(b, '\n', 0)
    else IndexOf(b, '\n', CloseQuote(b, 0, quote))
  }

  function HeadFit(a: string, b: string): Fit {
    var lineEnd := IndexOf(a, '\n', 0);
    if lineEnd < |a| then
      var l := ParseLine(a[..lineEnd]);
      if l.Quoted? then QuotedFit(a, b, l.key, l.quote) else Absent
    else
      match Lead(a)
      case None => Absent
      case Some((key, p)) =>
        if p != "" && IsQuote(p[0]) then QuotedFit(a, b, key, p[0])
        else if CommentAt(p, 0) < |p| then Fixed(key, Unquoted(p))
        else Spanning(key, p, Unquoted(b[..IndexOf(b, '\n', 0)]))
  }

  function HeadTail(a: string, b: string): nat {
    var lineEnd := IndexOf(a, '\n', 0);
    if lineEnd < |a| then
      var l := ParseLine(a[..lineEnd]);
      if l.Quoted? then QuotedTail(a, b, l.quote) else 0
    else
      match Lead(a)
      case Some((key, p)) => if p != "" && IsQuote(p[0]) then QuotedTail(a, b, p[0]) else IndexOf(b, '\n', 0)
      case None => IndexOf(b, '\n', 0)
  }

  /** A quoted value that is not closed, or whose line does not end, in front of the path. */
  lemma {:induction false} QuotedAround(a: string, s: string, b: string, key: string, quote: char)
    requires AtStart(a) && Root(s) && IsQuote(quote) && IndexOf(a, '=', 0) < |a| && Opening(a) < |a|
    requires QuotedHead(a, key, quote).stop == |a|
    ensures var h := QuotedHead(a + s + b, key, quote);
            h.binding == Fitted(QuotedFit(a, b, key, quote), s) && h.stop == |a| + |s| + QuotedTail(a, b, quote)
  {
    hide AtStart, Root, IsQuote, Unescape, CloseQuote, IndexOf, SkipBlanks, Slice;
    var t, eq, off := a + s + b, IndexOf(a, '=', 0), Opening(a);
    var close := CloseQuote(a, off + 1, quote);
    OpeningAround(a, s, b);
    CloseAround(a, s, b, off + 1, quote);
    if close < |a| {
      IndexAround(a, s, b, '\n', close);
      SliceBefore(a, s, b, off + 1, close);
    } else {
      var c := CloseQuote(b, 0, quote);
      IndexAfter(a, s, b, '\n', c);
      ValueAround(a, s, b, off, c, quote);
    }
  }

  lemma {:induction false} OpeningAround(a: string, s: string, b: string)
    requires Root(s) && IndexOf(a, '=', 0) < |a| && Opening(a) < |a|
    ensures IndexOf(a + s + b, '=', 0) == IndexOf(a, '=', 0) && Opening(a + s + b) == Opening(a)
  {
    hide Root, IndexOf, SkipBlanks;
    IndexAround(a, s, b, '=', 0);
    SkipBlanksIn(a, s + b, IndexOf(a, '=', 0) + 1);
    assert a + s + b == a + (s + b);
  }

  lemma {:induction false} SliceBefore(a: string, s: string, b: string, i: nat, j: nat)
    requires j <= |a|
    ensures Slice(a + s + b, i, j) == Slice(a, i, j)
  {
  }

  /** The body of the value, escaped or not, carries the path. */
  lemma {:induction false} ValueAround(a: string, s: string, b: string, off: nat, c: nat, quote: char)
    requires AtStart(a) && Root(s) && off < |a|
    ensures var pre, post := Slice(a, off + 1, |a|), Slice(b, 0, c);
            QuotedValue(a + s + b, off, |a| + |s| + c, quote)
            == if quote == '"' then Unescape(pre) + s + Unescape(post) else pre + s + post
  {
    hide AtStart, Root, Unescape;
    var pre, post := Slice(a, off + 1, |a|), Slice(b, 0, c);
    SliceAround(a, s, b, off + 1, c);
    SuffixAtStart(a, off + 1);
    UnescapeAround(pre, s, post);
  }

  lemma {:induction false} CutAround(a: string, s: string, b: string, i: nat, n: nat)
    requires i <= |a| && n <= |b|
    ensures (a + s + b)[i..|a| + |s| + n] == a[i..] + s + b[..n]
  {
    var t := a + s + b;
    assert t[i..] == a[i..] + s + b;
    assert t[i..|a| + |s| + n] == t[i..][..|a| - i + |s| + n];
    assert (a[i..] + s + b)[..|a| - i + |s| + n] == a[i..] + s + b[..n];
  }

  lemma {:induction false} SliceAround(a: string, s: string, b: string, i: nat, c: nat)
    requires i <= |a|
    ensures Slice(a + s + b, i, |a| + |s| + c) == Slice(a, i, |a|) + s + Slice(b, 0, c)
    ensures Slice(a, i, |a|) == a[i..] && Slice(b, 0, c) == b[..Min(c, |b|)]
  {
    CutAround(a, s, b, i, Min(c, |b|));
  }

  lemma {:induction false} QuotedFits(a: string, b: string, key: string, quote: char)
    requires AtStart(a) && Breaks(b) && Opening(a) < |a|
    ensures Fits(QuotedFit(a, b, key, quote))
  {
    hide Unescape, CloseQuote, Opening, AtStart;
    var off, c := Opening(a), CloseQuote(b, 0, quote);
    SliceAround(a, "", b, off + 1, c);
    SuffixAtStart(a, off + 1);
    UnescapeAtStart(a[off + 1..]);
    PrefixBreaks(b, Min(c, |b|));
    UnescapeBreaks(b[..Min(c, |b|)]);
  }

  lemma {:induction false} PrefixBreaks(b: string, n: nat)
    requires Breaks(b) && n <= |b|
    ensures Breaks(b[..n])
  {
  }

  /** The record that does not end in front of the path. */
  lemma {:induction false} HeadAround(a: string, s: string, b: string)
    requires AtStart(a) && Root(s) && ScanHead(a).stop == |a|
    ensures var h := ScanHead(a + s + b);
            h.binding == Fitted(HeadFit(a, b), s) && h.stop == |a| + |s| + HeadTail(a, b)
  {
    hide AtStart, Root, ParseLine, QuotedHead, QuotedFit, QuotedTail, Unquoted, CommentAt, Lead, IndexOf;
    var t, lineEnd, n := a + s + b, IndexOf(a, '\n', 0), IndexOf(b, '\n', 0);
    IndexAround(a, s, b, '\n', 0);
    if lineEnd < |a| {
      assert t[..lineEnd] == a[..lineEnd];
      var l := ParseLine(a[..lineEnd]);
      LineOpens(a, lineEnd);
      QuotedAround(a, s, b, l.key, l.quote);
    } else {
      assert t[..|a| + |s| + n] == a + s + b[..n];
      LineIsAround(a, s, b[..n]);
      if Lead(a).Some? {
        var (key, p) := Lead(a).value;
        if p != "" && IsQuote(p[0]) {
          LeadIsLine(a);
          assert a[..|a|] == a;
          LineOpens(a, |a|);
          QuotedAround(a, s, b, key, p[0]);
        } else {
          UnquotedAround(p, s, b[..n]);
        }
      }
    }
  }

  /** A quoted value begins on the first line of the text. */
  lemma {:induction false} LineOpens(a: string, lineEnd: nat)
    requires lineEnd <= |a| && ParseLine(a[..lineEnd]).Quoted?
    ensures IndexOf(a, '=', 0) < |a| && Opening(a) < |a|
  {
    hide ParseLine, IndexOf, SkipBlanks;
    var line := a[..lineEnd];
    QuoteOnLine(line);
    IndexOfAgrees(line, a, '=', 0, IndexOf(line, '=', 0));
    assert a == line + a[lineEnd..];
    SkipBlanksIn(line, a[lineEnd..], IndexOf(line, '=', 0) + 1);
  }

  lemma {:induction false} LeadIsLine(a: string)
    requires Lead(a).Some? && Lead(a).value.1 != "" && IsQuote(Lead(a).value.1[0])
    ensures ParseLine(a) == Quoted(Lead(a).value.0, Lead(a).value.1[0])
  {
    hide Strip, IsKey, IndexOf, IsSpace;
    LeadIsText(a);
  }

  lemma {:induction false} LeadIsText(a: string)
    requires Lead(a).Some? && Lead(a).value.1 != ""
    ensures !IsBlankOrComment(a)
  {
    hide IsKey, IndexOf, IsSpace, Strip, LStrip;
    var body := WithoutExport(a);
    var eq := IndexOf(body, '=', 0);
    ExportIsSuffix(a);
    var n := LStripStops(body[eq + 1..]);
    assert body[eq + 1..][n] == a[|a| - |body| + eq + 1 + n];
    TextRemains(a, |a| - |body| + eq + 1 + n);
    StripKeepsHead(a);
  }

  lemma {:induction false} TextRemains(a: string, i: nat)
    requires i < |a| && !IsSpace(a[i])
    ensures LStrip(a) != ""
  {
    hide IsSpace;
    SkipSpacesStops(a, 0, i);
  }

  lemma {:induction false} SkipSpacesStops(t: string, i: nat, j: nat)
    requires i <= j < |t| && !IsSpace(t[j])
    ensures SkipSpaces(t, i) <= j
    decreases j - i
  {
    hide IsSpace;
    if i < j && IsSpace(t[i]) { SkipSpacesStops(t, i + 1, j); }
  }

  lemma {:induction false} StripKeepsHead(a: string)
    requires LStrip(a) != ""
    ensures Strip(a) != "" && Strip(a)[0] == LStrip(a)[0]
  {
    hide RStrip, IsSpace;
    RStripKeepsHead(LStrip(a));
  }

  lemma {:induction false} HeadFits(a: string, b: string)
    requires AtStart(a) && Breaks(b)
    ensures Fits(HeadFit(a, b))
  {
    hide AtStart, Breaks, ParseLine, QuotedFit, CommentAt, Lead, IndexOf;
    var lineEnd := IndexOf(a, '\n', 0);
    if lineEnd < |a| {
      var l := ParseLine(a[..lineEnd]);
      if l.Quoted? {
        LineOpens(a, lineEnd);
        QuotedFits(a, b, l.key, l.quote);
      }
    } else if Lead(a).Some? {
      var (key, p) := Lead(a).value;
      if p != "" && IsQuote(p[0]) {
        LeadIsLine(a);
        assert a[..|a|] == a;
        LineOpens(a, |a|);
        QuotedFits(a, b, key, p[0]);
      } else {
        LeadAtStart(a);
        var line := b[..IndexOf(b, '\n', 0)];
        PrefixBreaks(b, IndexOf(b, '\n', 0));
        PrefixBreaks(line, CommentAt(line, 0));
        PrefixBreaks(line[..CommentAt(line, 0)], |Unquoted(line)|);
        assert Unquoted(line) == line[..CommentAt(line, 0)][..|Unquoted(line)|];
      }
    }
  }

  // ---------------------------------------------------------------------------------------------
  // All records
  // ---------------------------------------------------------------------------------------------

  function Bound(binding: Option<(string, string)>): Bindings { if binding.Some? then [binding.value] else [] }

  lemma {:induction false} BindsHead(t: string)
    requires t != ""
    ensures Binds(t) == Bound(ScanHead(t).binding) + Binds(t[HeadLength(t)..])
  {
    hide ScanHead;
    var rest := Scan(t[HeadLength(t)..]);
    AssignmentsAppend([HeadRecord(t)], rest);
    assert [HeadRecord(t)][1..] == [];
    assert Assignments([HeadRecord(t)]) == BindingOf(HeadRecord(t)) + [];
  }

  /** A record that ends in front of the path is read as if nothing followed. */
  lemma {:induction false} HeadBefore(a: string, s: string, b: string)
    requires ScanHead(a).stop < |a|
    ensures var n := ScanHead(a).stop + 1;
            n <= |a| && Binds(a + s + b) == Bound(ScanHead(a).binding) + Binds(a[n..] + s + b)
  {
    hide ScanHead, Binds;
    var t, n := a + s + b, ScanHead(a).stop + 1;
    assert !ScanHead(a).open;
    assert t[n - 1] == a[n - 1] == '\n';
    HeadIsLocal(a, t);
    BindsHead(t);
    assert t[n..] == a[n..] + s + b;
  }

  /** And of a record that does not, at most the value carries the path. */
  lemma {:induction false} HeadThrough(a: string, s: string, b: string)
    requires AtStart(a) && Root(s) && ScanHead(a).stop == |a|
    ensures Binds(a + s + b) == Bound(Fitted(HeadFit(a, b), s)) + Binds(b[Min(HeadTail(a, b) + 1, |b|)..])
  {
    hide AtStart, Root, ScanHead, Binds, HeadFit, HeadTail;
    var t, n := a + s + b, HeadTail(a, b);
    HeadAround(a, s, b);
    RootStart(s);
    BindsHead(t);
    assert HeadLength(t) == |a| + |s| + Min(n + 1, |b|);
    assert t[|a| + |s| + Min(n + 1, |b|)..] == b[Min(n + 1, |b|)..];
  }
}
