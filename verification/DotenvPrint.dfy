/**
 * Printing dotenv values: escaping, the line a value is printed as, what that line scans to, and exactly
 * when a printed value reads back as itself.
 */
module DotenvPrint {
  import opened Options
  import opened Text
  import opened Dotenv

  predicate IsSafe(c: char) {
    || IsLetter(c) || IsDigit(c) || c == '_' || c == '@' || c == '%' || c == '+' || c == '='
    || c == ':' || c == ',' || c == '.' || c == '/' || c == '-'
  }

  predicate SafeRun(v: string) { v != "" && forall i :: 0 <= i < |v| ==> IsSafe(v[i]) }

  /** `_UNQUOTED_SAFE.match`: the pattern's `$` also matches before one final newline. */
  predicate MatchesSafe(v: string) {
    SafeRun(v) || (v != "" && v[|v| - 1] == '\n' && SafeRun(v[..|v| - 1]))
  }

  /** `str.replace` of one character by a string. */
  function Replace(s: string, c: char, into: string): string {
    if s == "" then "" else (if s[0] == c then into else [s[0]]) + Replace(s[1..], c, into)
  }

  function Escape(v: string): string {
    var a := Replace(v, '\\', "\\\\");
    var b := Replace(a, '"', "\\\"");
    var c := Replace(b, '$', "\\$");
    var d := Replace(c, '\n', "\\n");
    Replace(d, '\r', "\\r")
  }

  function SerializeValue(v: string): string {
    if v == "" then "" else if MatchesSafe(v) then v else "\"" + Escape(v) + "\""
  }

  function PrintLine(key: string, value: string): string { key + "=" + SerializeValue(value) + "\n" }

  /** The one family of values that does not survive: a safe run and exactly one newline. */
  predicate RoundTrips(v: string) {
    !(v != "" && v[|v| - 1] == '\n' && SafeRun(v[..|v| - 1]))
  }

  /** What a printed value reads back as. */
  function ReadBack(v: string): (r: string)
    ensures r == v <==> RoundTrips(v)
    ensures RoundTrips(r)
  {
    if RoundTrips(v) then v else
      assert IsSafe(v[..|v| - 1][|v| - 2]);
      v[..|v| - 1]
  }

  // ---------------------------------------------------------------------------------------------
  // Escaping: five passes over the value do what one pass over its characters would
  // ---------------------------------------------------------------------------------------------

  function EscapeChar(c: char): string {
    if c == '\\' then "\\\\" else if c == '"' then "\\\"" else if c == '$' then "\\$"
    else if c == '\n' then "\\n" else if c == '\r' then "\\r" else [c]
  }

  function EscapeEach(v: string): string {
    if v == "" then "" else EscapeChar(v[0]) + EscapeEach(v[1..])
  }

  lemma {:induction false} ReplaceAppend(s: string, t: string, c: char, into: string)
    ensures Replace(s + t, c, into) == Replace(s, c, into) + Replace(t, c, into)
  {
    if s == "" {
      assert s + t == t;
    } else {
      assert (s + t)[1..] == s[1..] + t;
      ReplaceAppend(s[1..], t, c, into);
    }
  }

  lemma {:induction false} ReplaceChars(c: char, into: string, x: char, y: char)
    ensures Replace([x], c, into) == if x == c then into else [x]
    ensures Replace([x, y], c, into) == Replace([x], c, into) + Replace([y], c, into)
  {
  }

  lemma {:induction false} EscapeOne(x: char)
    ensures Escape([x]) == EscapeChar(x)
  {
    var h0 := Replace([x], '\\', "\\\\");
    ReplaceChars('\\', "\\\\", x, x);
    ReplaceChars('"', "\\\"", '\\', '\\'); ReplaceChars('"', "\\\"", x, x);
    ReplaceChars('$', "\\$", '\\', '\\'); ReplaceChars('$', "\\$", '\\', '"'); ReplaceChars('$', "\\$", x, x);
    var h2 := Replace(Replace(h0, '"', "\\\""), '$', "\\$");
    assert h2 == if x == '\\' || x == '"' || x == '$' then ['\\', x] else [x];
    ReplaceChars('\n', "\\n", '\\', x); ReplaceChars('\n', "\\n", x, x); ReplaceChars('\n', "\\n", '\\', '\\');
    ReplaceChars('\r', "\\r", '\\', x); ReplaceChars('\r', "\\r", '\\', 'n'); ReplaceChars('\r', "\\r", x, x);
    ReplaceChars('\r', "\\r", '\\', '\\');
  }

  lemma {:induction false} EscapeAppend(s: string, t: string)
    ensures Escape(s + t) == Escape(s) + Escape(t)
  {
    hide Replace;
    ReplaceAppend(s, t, '\\', "\\\\");
    var s1, t1 := Replace(s, '\\', "\\\\"), Replace(t, '\\', "\\\\");
    ReplaceAppend(s1, t1, '"', "\\\"");
    var s2, t2 := Replace(s1, '"', "\\\""), Replace(t1, '"', "\\\"");
    ReplaceAppend(s2, t2, '$', "\\$");
    var s3, t3 := Replace(s2, '$', "\\$"), Replace(t2, '$', "\\$");
    ReplaceAppend(s3, t3, '\n', "\\n");
    var s4, t4 := Replace(s3, '\n', "\\n"), Replace(t3, '\n', "\\n");
    ReplaceAppend(s4, t4, '\r', "\\r");
  }

  lemma {:induction false} EscapeIsEscapeEach(v: string)
    ensures Escape(v) == EscapeEach(v)
  {
    if v != "" {
      hide Escape;
      EscapeOne(v[0]);
      EscapeAppend([v[0]], v[1..]);
      assert [v[0]] + v[1..] == v;
      EscapeIsEscapeEach(v[1..]);
    } else {
      assert Escape("") == "";
    }
  }

  /** Reading an escaped text back gives the text: quotes, backslashes, `$`, newlines and all. */
  lemma {:induction false} UnescapeEscape(v: string)
    ensures Unescape(EscapeEach(v)) == v
  {
    if v != "" {
      UnescapeChar(v[0], EscapeEach(v[1..]));
      UnescapeEscape(v[1..]);
    }
  }

  lemma {:induction false} UnescapeChar(c: char, rest: string)
    ensures Unescape(EscapeChar(c) + rest) == [c] + Unescape(rest)
  {
    var e := EscapeChar(c) + rest;
    if |EscapeChar(c)| == 2 {
      assert e[2..] == rest;
    } else {
      assert e[1..] == rest;
    }
  }

  lemma {:induction false} EscapeHasNoNewline(v: string)
    ensures forall k :: 0 <= k < |EscapeEach(v)| ==> EscapeEach(v)[k] != '\n'
  {
    if v != "" { EscapeHasNoNewline(v[1..]); }
  }

  /** The closing quote found after an escaped text is the one printed there. */
  lemma {:induction false} CloseQuoteSkipsEscapes(v: string, post: string)
    ensures CloseQuote(EscapeEach(v) + "\"" + post, 0, '"') == |EscapeEach(v)|
  {
    if v != "" {
      var e, rest := EscapeChar(v[0]), EscapeEach(v[1..]);
      CloseQuoteSkipsEscapes(v[1..], post);
      CloseQuoteOverChar(v[0], rest + "\"" + post);
      assert EscapeEach(v) + "\"" + post == e + (rest + "\"" + post);
    }
  }

  lemma {:induction false} CloseQuoteOverChar(c: char, rest: string)
    ensures CloseQuote(EscapeChar(c) + rest, 0, '"') == |EscapeChar(c)| + CloseQuote(rest, 0, '"')
  {
    var u, n := EscapeChar(c) + rest, |EscapeChar(c)|;
    assert u[n..] == rest;
    CloseQuoteShift(u, n, 0, '"');
    assert CloseQuote(u, 0, '"') == CloseQuote(u, n, '"');
  }

  // ---------------------------------------------------------------------------------------------
  // A printed line scans back as the one assignment it prints
  // ---------------------------------------------------------------------------------------------

  lemma {:induction false} SafeCharFacts(c: char)
    requires IsSafe(c)
    ensures !IsSpace(c) && !IsQuote(c) && c != '\n' && c != ' '
  {
  }

  lemma {:induction false} KeyFacts(k: string)
    requires IsKey(k)
    ensures Strip(k) == k && !IsSpace(k[0]) && k[0] != '#'
    ensures forall i :: 0 <= i < |k| ==> k[i] != '=' && k[i] != '\n' && k[i] != ' '
  {
  }

  lemma {:induction false} LStripIdentity(s: string)
    requires s == "" || !IsSpace(s[0])
    ensures LStrip(s) == s
  {
  }

  lemma {:induction false} NoExport(k: string, w: string)
    requires forall i :: 0 <= i < |k| ==> k[i] != ' '
    ensures !(EXPORT <= k + "=" + w)
  {
    var line := k + "=" + w;
    if |k| <= 6 {
      assert line[|k|] == '=';
    } else {
      assert line[6] == k[6];
    }
  }

  /** A written line is neither blank, nor a comment, nor an `export`. */
  lemma {:induction false} WrittenIsBare(k: string, w: string)
    requires IsKey(k)
    ensures !IsBlankOrComment(k + "=" + w) && WithoutExport(k + "=" + w) == k + "=" + w
  {
    hide IsSpace, IsBlankOrComment, LStrip, IsKeyChar;
    var line := k + "=" + w;
    KeyFacts(k);
    NoExport(k, w);
    assert line[0] == k[0];
    BareIfHeadIsBare(line);
  }

  lemma {:induction false} BareIfHeadIsBare(line: string)
    requires line != "" && !IsSpace(line[0]) && line[0] != '#'
    ensures !IsBlankOrComment(line) && LStrip(line) == line
  {
    hide IsSpace, RStrip, SkipSpaces;
    LStripIdentity(line);
    RStripKeepsHead(line);
  }

  lemma {:induction false} ParseWritten(k: string, w: string)
    requires IsKey(k) && (w == "" || !IsSpace(w[0]))
    ensures ParseLine(k + "=" + w) == if w != "" && IsQuote(w[0]) then Quoted(k, w[0]) else Plain(k, Unquoted(w))
  {
    hide IsBlankOrComment, WithoutExport, Unquoted, Strip, LStrip, IndexOf, IsSpace, IsKeyChar;
    var line := k + "=" + w;
    WrittenIsBare(k, w);
    KeyFacts(k);
    IndexOfAt(line, '=', 0, |k|);
    assert line[..|k|] == k && line[|k| + 1..] == w;
    LStripIdentity(w);
  }

  lemma {:induction false} UnquotedSafe(w: string)
    requires w == "" || SafeRun(w)
    ensures Unquoted(w) == w
  {
    hide IsSpace, IsSafe, CommentAt, RStrip;
    forall i | 0 <= i < |w| ensures w[i] != ' ' { SafeCharFacts(w[i]); }
    NoComment(w, 0);
    if w != "" {
      SafeCharFacts(w[0]);
      SafeCharFacts(w[|w| - 1]);
    }
    StripIsIdentity(w);
    assert w[..|w|] == w;
  }

  lemma {:induction false} NoComment(w: string, i: nat)
    requires i <= |w| && forall k :: i <= k < |w| ==> w[k] != ' '
    ensures CommentAt(w, i) == |w|
    decreases |w| - i
  {
    if i < |w| { NoComment(w, i + 1); }
  }

  /** A line whose value is printed bare. */
  lemma {:induction false} PlainLineScans(k: string, w: string)
    requires IsKey(k) && (w == "" || SafeRun(w))
    ensures ScanHead(k + "=" + w + "\n") == Head(Some((k, w)), |k| + 1 + |w|, false)
    ensures IndexOf(k + "=" + w + "\n", '\n', 0) == |k| + 1 + |w|
  {
    hide ParseLine, IndexOf, Unquoted, IsSafe, IsKeyChar, IsSpace;
    var line, t := k + "=" + w, k + "=" + w + "\n";
    KeyFacts(k);
    forall i | 0 <= i < |line| ensures t[i] != '\n' {
      if i > |k| { SafeCharFacts(w[i - |k| - 1]); }
    }
    IndexOfAt(t, '\n', 0, |line|);
    assert t[..|line|] == line;
    if w != "" { SafeCharFacts(w[0]); }
    ParseWritten(k, w);
    UnquotedSafe(w);
  }

  lemma {:induction false} QuotedBounds(k: string, v: string)
    requires IsKey(k)
    ensures var t := k + "=" + "\"" + EscapeEach(v) + "\"" + "\n";
            && IndexOf(t, '=', 0) == |k|
            && SkipBlanks(t, |k| + 1) == |k| + 1
            && CloseQuote(t, |k| + 2, '"') == |k| + 2 + |EscapeEach(v)|
  {
    hide IndexOf, CloseQuote, EscapeEach, IsKey;
    var t := k + "=" + "\"" + EscapeEach(v) + "\"" + "\n";
    QuotedParts(k, EscapeEach(v));
    KeyFacts(k);
    IndexOfAt(t, '=', 0, |k|);
    CloseQuoteSkipsEscapes(v, "\n");
    CloseQuoteShift(t, |k| + 2, 0, '"');
  }

  lemma {:induction false} QuotedParts(k: string, e: string)
    ensures var t := k + "=" + "\"" + e + "\"" + "\n";
            && t[..|k|] == k && t[|k|] == '=' && t[|k| + 1] == '"' && t[|k| + 2..] == e + "\"" + "\n"
            && forall i :: 0 <= i < |k| ==> t[i] == k[i]
  {
  }

  lemma {:induction false} QuotedLineParses(k: string, e: string)
    requires IsKey(k) && forall i :: 0 <= i < |e| ==> e[i] != '\n'
    ensures var t := k + "=" + "\"" + e + "\"" + "\n";
            && IndexOf(t, '\n', 0) == |t| - 1
            && ParseLine(t[..|t| - 1]) == Quoted(k, '"')
  {
    hide ParseLine, IndexOf, IsKeyChar;
    var w := "\"" + e + "\"";
    var t := k + "=" + "\"" + e + "\"" + "\n";
    KeyFacts(k);
    forall i | 0 <= i < |t| - 1 ensures t[i] != '\n' {
      if |k| + 1 < i < |t| - 2 { assert t[i] == e[i - |k| - 2]; }
    }
    IndexOfAt(t, '\n', 0, |t| - 1);
    assert t[..|t| - 1] == k + "=" + w;
    assert !IsSpace(w[0]);
    ParseWritten(k, w);
  }

  lemma {:induction false} QuotedLineScans(k: string, v: string)
    requires IsKey(k)
    ensures var t := k + "=" + "\"" + EscapeEach(v) + "\"" + "\n";
            ScanHead(t) == Head(Some((k, v)), |t| - 1, false) && IndexOf(t, '\n', 0) == |t| - 1
  {
    hide ParseLine, IndexOf, SkipBlanks, CloseQuote, EscapeEach, Unescape, IsKey;
    var e := EscapeEach(v);
    var t := k + "=" + "\"" + e + "\"" + "\n";
    EscapeHasNoNewline(v);
    QuotedLineParses(k, e);
    QuotedBounds(k, v);
    assert Slice(t, |k| + 2, |k| + 2 + |e|) == e;
    UnescapeEscape(v);
    IndexOfAt(t, '\n', |k| + 2 + |e|, |t| - 1);
  }

  /** The printed line of a value that round-trips is one closed, complete assignment. */
  lemma {:induction false} PrintedLineScans(k: string, v: string)
    requires IsKey(k) && RoundTrips(v)
    ensures ScanHead(PrintLine(k, v)) == Head(Some((k, v)), |PrintLine(k, v)| - 1, false)
    ensures IndexOf(PrintLine(k, v), '\n', 0) == |PrintLine(k, v)| - 1
  {
    hide ScanHead, IndexOf, Escape, EscapeEach, IsKey, SafeRun;
    if v == "" || SafeRun(v) {
      PlainLineScans(k, v);
      assert k + "=" + v + "\n" == PrintLine(k, v);
    } else {
      QuotedLineScans(k, v);
      EscapeIsEscapeEach(v);
      assert k + "=" + "\"" + EscapeEach(v) + "\"" + "\n" == PrintLine(k, v);
    }
  }

  /** A value of the other family is printed as its run, plus an empty line. */
  lemma {:induction false} LineOfBadValue(k: string, v: string)
    requires !RoundTrips(v)
    ensures PrintLine(k, v) == PrintLine(k, ReadBack(v)) + "\n"
  {
  }
}
