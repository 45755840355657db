/** The dotenv scanner: one record per logical line, its raw text kept, as the cursor loops find it. */
module Dotenv {
  import opened Options
  import opened Text

  /** One logical line; an assignment also carries its parsed key and value. */
  datatype Record =
    | Raw(raw: string)
    | Assignment(raw: string, key: string, value: string)

  /**
   * What scanning the first logical line of a text finds: its assignment, if it is one, where its
   * content stops (a newline or the end of the text), and whether it is a quoted value whose
   * closing quote never came.
   */
  datatype Head = Head(binding: Option<(string, string)>, stop: nat, open: bool)

  predicate IsKeyChar(c: char) { IsLetter(c) || IsDigit(c) || c == '_' || c == '.' }

  predicate IsKey(k: string) {
    k != "" && (IsLetter(k[0]) || k[0] == '_') && forall i :: 0 <= i < |k| ==> IsKeyChar(k[i])
  }

  predicate IsQuote(c: char) { c == '"' || c == '\'' }

  const EXPORT := "export "

  function WithoutExport(line: string): string {
    if EXPORT <= LStrip(line) then LStrip(line)[|EXPORT|..] else line
  }

  predicate IsBlankOrComment(line: string) {
    Strip(line) == "" || Strip(line)[0] == '#'
  }

  function SkipBlanks(t: string, i: nat): (j: nat)
    ensures i <= j
    ensures i <= |t| ==> j <= |t|
    ensures j < |t| ==> t[j] != ' ' && t[j] != '\t'
    decreases |t| - i
  {
    if i < |t| && (t[i] == ' ' || t[i] == '\t') then SkipBlanks(t, i + 1) else i
  }

  /** The cursor position at which the hunt for the closing quote ends. */
  function CloseQuote(t: string, i: nat, quote: char): (j: nat)
    ensures i <= j
    ensures j < |t| ==> t[j] == quote
    decreases if i < |t| then |t| - i else 0
  {
    if i >= |t| then i
    else if t[i] == '\\' && quote == '"' then CloseQuote(t, i + 2, quote)
    else if t[i] == quote then i
    else CloseQuote(t, i + 1, quote)
  }

  function Escaped(c: char): Option<char> {
    if c == 'n' then Some('\n') else if c == 'r' then Some('\r') else if c == 't' then Some('\t')
    else if c == '\\' || c == '"' || c == '$' || c == '\'' then Some(c) else None
  }

  function Unescape(s: string): string {
    if s == "" then ""
    else if s[0] == '\\' && |s| > 1 && Escaped(s[1]).Some? then [Escaped(s[1]).value] + Unescape(s[2..])
    else [s[0]] + Unescape(s[1..])
  }

  /** Where an inline comment (a blank, then `#`) starts, or the end of the value. */
  function CommentAt(v: string, i: nat): (j: nat)
    requires i <= |v|
    ensures i <= j <= |v|
    decreases |v| - i
  {
    if i >= |v| then |v|
    else if v[i] == ' ' && i + 1 < |v| && v[i + 1] == '#' then i
    else CommentAt(v, i + 1)
  }

  function Unquoted(v: string): string { RStrip(v[..CommentAt(v, 0)]) }

  function QuotedValue(t: string, offset: nat, close: nat, quote: char): string {
    var body := Slice(t, offset + 1, close);
    if quote == '"' then Unescape(body) else body
  }

  /** The first `=` of an assignment stands on its first physical line. */
  lemma {:induction false} EqualsOnLine(line: string)
    requires IndexOf(WithoutExport(line), '=', 0) < |WithoutExport(line)|
    ensures IndexOf(line, '=', 0) < |line|
  {
    var body := WithoutExport(line);
    var eq := IndexOf(body, '=', 0);
    var skipped := |line| - |body|;
    assert body == line[skipped..];
    IndexOfFirst(line, '=', 0, skipped + eq);
  }

  /** What one physical line says by itself; a quoted value has only begun on it. */
  datatype Line = Other | Plain(key: string, value: string) | Quoted(key: string, quote: char)

  function ParseLine(line: string): (l: Line)
    ensures l.Quoted? ==> IsQuote(l.quote) && IndexOf(line, '=', 0) < |line|
    ensures !l.Other? ==> IsKey(l.key)
  {
    if IsBlankOrComment(line) then Other
    else
      var body := WithoutExport(line);
      var eq := IndexOf(body, '=', 0);
      if eq == |body| || !IsKey(Strip(body[..eq])) then Other
      else
        EqualsOnLine(line);
        var key, rest := Strip(body[..eq]), LStrip(body[eq + 1..]);
        if rest != "" && IsQuote(rest[0]) then Quoted(key, rest[0]) else Plain(key, Unquoted(rest))
  }

  function QuotedHead(t: string, key: string, quote: char): (h: Head)
    ensures h.stop <= |t|
    ensures h.stop < |t| ==> t[h.stop] == '\n'
    ensures h.open ==> h.stop == |t|
  {
    var offset := SkipBlanks(t, IndexOf(t, '=', 0) + 1);
    var close := CloseQuote(t, offset + 1, quote);
    Head(Some((key, QuotedValue(t, offset, close, quote))), IndexOf(t, '\n', close), close >= |t|)
  }

  function ScanHead(t: string): (h: Head)
    ensures h.stop <= |t|
    ensures h.stop < |t| ==> t[h.stop] == '\n'
    ensures h.open ==> h.stop == |t|
    ensures h.binding.Some? ==> IsKey(h.binding.value.0)
  {
    var lineEnd := IndexOf(t, '\n', 0);
    match ParseLine(t[..lineEnd])
    case Other => Head(None, lineEnd, false)
    case Plain(key, value) => Head(Some((key, value)), lineEnd, false)
    case Quoted(key, quote) => QuotedHead(t, key, quote)
  }

  function RecordOf(raw: string, binding: Option<(string, string)>): Record {
    match binding
    case None => Raw(raw)
    case Some((key, value)) => Assignment(raw, key, value)
  }

  /** How much text the first record takes: its content and the newline after it. */
  function HeadLength(t: string): (n: nat)
    ensures n <= |t|
    ensures t != "" ==> n > 0
  {
    Min(ScanHead(t).stop + 1, |t|)
  }

  function HeadRecord(t: string): Record { RecordOf(t[..HeadLength(t)], ScanHead(t).binding) }

  function Scan(t: string): (rs: seq<Record>)
    decreases |t|
  {
    if t == "" then [] else [HeadRecord(t)] + Scan(t[HeadLength(t)..])
  }

  // ---------------------------------------------------------------------------------------------
  // The scanner and the unescaper as the source runs them
  // ---------------------------------------------------------------------------------------------

  method UnescapeDouble(body: string) returns (out: string)
    ensures out == Unescape(body)
  {
    out := "";
    var index := 0;
    while index < |body|
      invariant index <= |body|
      invariant out + Unescape(body[index..]) == Unescape(body)
    {
      var c := body[index];
      assert body[index..][1..] == body[index + 1..];
      if c == '\\' && index + 1 < |body| {
        var following := body[index + 1];
        if Escaped(following).Some? {
          assert body[index..][2..] == body[index + 2..];
          out := out + [Escaped(following).value];
          index := index + 2;
          continue;
        }
      }
      out := out + [c];
      index := index + 1;
    }
  }

  lemma {:induction false} SkipBlanksShift(t: string, k: nat, i: nat)
    requires k + i <= |t|
    ensures SkipBlanks(t, k + i) == k + SkipBlanks(t[k..], i)
    decreases |t| - i
  {
    if k + i < |t| && (t[k + i] == ' ' || t[k + i] == '\t') {
      SkipBlanksShift(t, k, i + 1);
    }
  }

  lemma {:induction false} CloseQuoteShift(t: string, k: nat, i: nat, quote: char)
    requires k <= |t|
    ensures CloseQuote(t, k + i, quote) == k + CloseQuote(t[k..], i, quote)
    decreases if k + i < |t| then |t| - k - i else 0
  {
    if k + i < |t| {
      assert t[k..][i] == t[k + i];
      if t[k + i] == '\\' && quote == '"' {
        CloseQuoteShift(t, k, i + 2, quote);
      } else if t[k + i] != quote {
        CloseQuoteShift(t, k, i + 1, quote);
      }
    }
  }

  lemma {:induction false} EqualsFound(t: string, k: nat, lineEnd: nat)
    requires k <= lineEnd <= |t| && IndexOf(t[k..lineEnd], '=', 0) < lineEnd - k
    ensures IndexOf(t, '=', k) < lineEnd
  {
    hide IndexOf;
    IndexOfFirst(t, '=', k, k + IndexOf(t[k..lineEnd], '=', 0));
  }

  lemma {:induction false} QuoteBoundsAt(t: string, k: nat, quote: char)
    requires k <= |t| && IndexOf(t, '=', k) < |t|
    ensures var offset := SkipBlanks(t, IndexOf(t, '=', k) + 1);
            && SkipBlanks(t[k..], IndexOf(t[k..], '=', 0) + 1) == offset - k
            && CloseQuote(t[k..], offset - k + 1, quote) == CloseQuote(t, offset + 1, quote) - k
  {
    hide IndexOf, SkipBlanks, CloseQuote;
    var eq := IndexOf(t, '=', k);
    IndexOfShift(t, k, '=', 0);
    SkipBlanksShift(t, k, eq + 1 - k);
    CloseQuoteShift(t, k, SkipBlanks(t, eq + 1) - k + 1, quote);
  }

  /** The quoted record that starts at `k`, read off the whole text as the source does. */
  lemma {:induction false} QuotedHeadAt(t: string, k: nat, key: string, quote: char)
    requires k <= |t| && IndexOf(t, '=', k) < |t|
    ensures var offset := SkipBlanks(t, IndexOf(t, '=', k) + 1);
            var close := CloseQuote(t, offset + 1, quote);
            QuotedHead(t[k..], key, quote)
            == Head(Some((key, QuotedValue(t, offset, close, quote))), IndexOf(t, '\n', close) - k, close >= |t|)
  {
    hide QuotedValue, IndexOf, SkipBlanks, CloseQuote;
    var offset := SkipBlanks(t, IndexOf(t, '=', k) + 1);
    var close := CloseQuote(t, offset + 1, quote);
    QuoteBoundsAt(t, k, quote);
    IndexOfShift(t, k, '\n', close - k);
    QuotedValueShift(t, k, offset - k, close - k, quote);
  }

  lemma {:induction false} QuotedValueShift(t: string, k: nat, offset: nat, close: nat, quote: char)
    requires k <= |t|
    ensures QuotedValue(t, k + offset, k + close, quote) == QuotedValue(t[k..], offset, close, quote)
  {
    hide Unescape, Slice;
    SliceShift(t, k, offset + 1, close);
  }

  lemma {:induction false} SliceShift(t: string, k: nat, a: nat, b: nat)
    requires k <= |t|
    ensures Slice(t, k + a, k + b) == Slice(t[k..], a, b)
  {
  }

  /** One turn of the scanning loop. */
  lemma {:induction false} ScanStep(t: string, k: nat, binding: Option<(string, string)>, stop: nat)
    requires k < |t| && k <= stop <= |t|
    requires ScanHead(t[k..]).binding == binding && ScanHead(t[k..]).stop == stop - k
    ensures Scan(t[k..]) == [RecordOf(Slice(t, k, stop + 1), binding)] + Scan(t[Min(stop + 1, |t|)..])
  {
    hide ScanHead;
    var left := t[k..];
    var n := HeadLength(left);
    assert left[..n] == Slice(t, k, stop + 1);
    assert left[n..] == t[Min(stop + 1, |t|)..];
  }

  method FindClosingQuote(text: string, start: nat, quote: char) returns (offset: nat, cursor: nat)
    requires start <= |text|
    ensures offset == SkipBlanks(text, start)
    ensures cursor == CloseQuote(text, offset + 1, quote)
  {
    offset := start;
    while offset < |text| && (text[offset] == ' ' || text[offset] == '\t')
      invariant SkipBlanks(text, offset) == SkipBlanks(text, start)
      decreases |text| - offset
    {
      offset := offset + 1;
    }
    cursor := offset + 1;
    while cursor < |text| && text[cursor] != quote
      invariant CloseQuote(text, cursor, quote) == CloseQuote(text, offset + 1, quote)
      decreases |text| - cursor
    {
      cursor := if text[cursor] == '\\' && quote == '"' then cursor + 2 else cursor + 1;
    }
  }

  lemma {:induction false} ScanNothing()
    ensures Scan("") == []
  {
  }

  /** The part of the loop body that reads a quoted value, possibly over several lines. */
  method ReadQuoted(text: string, index: nat, key: string, quote: char) returns (value: string, stop: nat)
    requires index <= |text| && IndexOf(text, '=', index) < |text|
    ensures QuotedHead(text[index..], key, quote).binding == Some((key, value))
    ensures QuotedHead(text[index..], key, quote).stop == stop - index
  {
    hide Unescape, QuotedHead;
    var offset, cursor := FindClosingQuote(text, IndexOf(text, '=', index) + 1, quote);
    value := Slice(text, offset + 1, cursor);
    if quote == '"' {
      value := UnescapeDouble(value);
    }
    stop := IndexOf(text, '\n', cursor);
    QuotedHeadAt(text, index, key, quote);
  }

  method ScanEnv(text: string) returns (records: seq<Record>)
    ensures records == Scan(text)
  {
    hide ParseLine, QuotedHead, Scan, IndexOf;
    records := [];
    var index, length := 0, |text|;
    assert text[0..] == text;
    while index < length
      invariant records + Scan(text[Min(index, length)..]) == Scan(text)
      decreases length - index
    {
      var lineEnd := IndexOf(text, '\n', index);
      IndexOfShift(text, index, '\n', 0);
      var line := text[index..lineEnd];
      assert line == text[index..][..lineEnd - index];
      var stop, binding := lineEnd, None;
      match ParseLine(line) {
        case Other =>
        case Plain(key, value) => binding := Some((key, value));
        case Quoted(key, quote) =>
          EqualsFound(text, index, lineEnd);
          var value;
          value, stop := ReadQuoted(text, index, key, quote);
          binding := Some((key, value));
      }
      ScanStep(text, index, binding, stop);
      records := records + [RecordOf(Slice(text, index, stop + 1), binding)];
      index := stop + 1;
    }
    ScanNothing();
  }

  // ---------------------------------------------------------------------------------------------
  // Locality: a record that is closed scans the same wherever it stands
  // ---------------------------------------------------------------------------------------------

  lemma {:induction false} CloseQuoteAgrees(t: string, u: string, i: nat, quote: char, n: nat)
    requires Agree(t, u, n) && CloseQuote(t, i, quote) < n
    ensures CloseQuote(u, i, quote) == CloseQuote(t, i, quote)
    decreases |t| - i
  {
    if t[i] == '\\' && quote == '"' {
      CloseQuoteAgrees(t, u, i + 2, quote, n);
    } else if t[i] != quote {
      CloseQuoteAgrees(t, u, i + 1, quote, n);
    }
  }

  lemma {:induction false} SkipBlanksAgrees(t: string, u: string, i: nat, n: nat)
    requires Agree(t, u, n) && SkipBlanks(t, i) < n
    ensures SkipBlanks(u, i) == SkipBlanks(t, i)
    decreases n - i
  {
    if t[i] == ' ' || t[i] == '\t' { SkipBlanksAgrees(t, u, i + 1, n); }
  }

  /** `u` begins with the content of `t`'s first record, then ends or breaks the line. */
  ghost predicate SameContent(t: string, u: string, n: nat) {
    Agree(t, u, n) && (n == |u| || u[n] == '\n')
  }

  lemma {:induction false} QuoteBoundsAgree(t: string, u: string, quote: char, n: nat)
    requires IndexOf(t, '=', 0) < n && Agree(t, u, n)
    requires CloseQuote(t, SkipBlanks(t, IndexOf(t, '=', 0) + 1) + 1, quote) < n
    ensures IndexOf(u, '=', 0) == IndexOf(t, '=', 0)
    ensures var offset := SkipBlanks(t, IndexOf(t, '=', 0) + 1);
            && SkipBlanks(u, IndexOf(t, '=', 0) + 1) == offset
            && CloseQuote(u, offset + 1, quote) == CloseQuote(t, offset + 1, quote)
  {
    hide IndexOf, SkipBlanks, CloseQuote;
    var eq := IndexOf(t, '=', 0);
    IndexOfAgrees(t, u, '=', 0, eq);
    SkipBlanksAgrees(t, u, eq + 1, n);
    CloseQuoteAgrees(t, u, SkipBlanks(t, eq + 1) + 1, quote, n);
  }

  lemma {:induction false} SliceAgrees(t: string, u: string, a: nat, b: nat, n: nat)
    requires Agree(t, u, n) && a <= b <= n
    ensures Slice(u, a, b) == Slice(t, a, b)
  {
  }

  lemma {:induction false} QuotedHeadIsLocal(t: string, u: string, key: string, quote: char)
    requires IsQuote(quote) && IndexOf(t, '=', 0) < IndexOf(t, '\n', 0)
    requires !QuotedHead(t, key, quote).open && SameContent(t, u, QuotedHead(t, key, quote).stop)
    ensures QuotedHead(u, key, quote) == QuotedHead(t, key, quote)
  {
    hide Unescape, Slice, IndexOf, SkipBlanks, CloseQuote;
    var offset := SkipBlanks(t, IndexOf(t, '=', 0) + 1);
    var close := CloseQuote(t, offset + 1, quote);
    var n := IndexOf(t, '\n', close);
    QuoteBoundsAgree(t, u, quote, n);
    IndexOfAgrees(t, u, '\n', close, n);
    SliceAgrees(t, u, offset + 1, close, n);
  }

  /** A closed record scans the same wherever it stands. */
  lemma {:induction false} HeadIsLocal(t: string, u: string)
    requires !ScanHead(t).open && SameContent(t, u, ScanHead(t).stop)
    ensures ScanHead(u) == ScanHead(t)
  {
    hide ParseLine, QuotedHead, IndexOf;
    var n, lineEnd := ScanHead(t).stop, IndexOf(t, '\n', 0);
    if n < |t| { IndexOfFirst(t, '\n', 0, n); }
    IndexOfAgrees(t, u, '\n', 0, lineEnd);
    assert u[..lineEnd] == t[..lineEnd];
    var l := ParseLine(t[..lineEnd]);
    if l.Quoted? {
      EqualsFound(t, 0, lineEnd);
      QuotedHeadIsLocal(t, u, l.key, l.quote);
    }
  }
}
