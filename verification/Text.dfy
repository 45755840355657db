/** The string operations the dotenv engine is written in, with Python's own edge cases. */
module Text {

  /** Python's `str.isspace`, one character at a time. */
  predicate IsSpace(c: char) {
    var n := c as int;
    9 <= n <= 13 || 28 <= n <= 32 || n == 0x85 || n == 0xA0 || n == 0x1680
    || 0x2000 <= n <= 0x200A || n == 0x2028 || n == 0x2029 || n == 0x202F || n == 0x205F || n == 0x3000
  }

  predicate IsLetter(c: char) { 'a' <= c <= 'z' || 'A' <= c <= 'Z' }
  predicate IsDigit(c: char) { '0' <= c <= '9' }

  function Min(a: nat, b: nat): nat { if a <= b then a else b }

  /** `s[a:b]`: both ends clamp to the string. */
  function Slice(s: string, a: nat, b: nat): string {
    if a <= Min(b, |s|) then s[a..Min(b, |s|)] else ""
  }

  /** `s.find(c, start)`, with `|s|` for "not found". */
  function IndexOf(s: string, c: char, start: nat): (i: nat)
    ensures i <= |s|
    ensures start <= |s| ==> start <= i
    ensures i < |s| ==> s[i] == c
    decreases |s| - start
  {
    if start >= |s| then |s| else if s[start] == c then start else IndexOf(s, c, start + 1)
  }

  /** The first position at or after `i` that holds no whitespace. */
  function SkipSpaces(s: string, i: nat): (j: nat)
    requires i <= |s|
    ensures i <= j <= |s|
    ensures j < |s| ==> !IsSpace(s[j])
    decreases |s| - i
  {
    if i < |s| && IsSpace(s[i]) then SkipSpaces(s, i + 1) else i
  }

  function LStrip(s: string): string { s[SkipSpaces(s, 0)..] }

  function RStrip(s: string): (r: string)
    ensures r <= s
    ensures r != "" ==> !IsSpace(r[|r| - 1])
  {
    if s != "" && IsSpace(s[|s| - 1]) then RStrip(s[..|s| - 1]) else s
  }

  function Strip(s: string): string { RStrip(LStrip(s)) }

  /** A string that neither starts nor ends with whitespace is its own `strip`. */
  lemma {:induction false} StripIsIdentity(s: string)
    requires s == "" || (!IsSpace(s[0]) && !IsSpace(s[|s| - 1]))
    ensures LStrip(s) == s && RStrip(s) == s && Strip(s) == s
  {
  }

  /** `find` returns the first hit. */
  lemma {:induction false} IndexOfFirst(s: string, c: char, start: nat, j: nat)
    requires start <= j < |s| && s[j] == c
    ensures IndexOf(s, c, start) <= j
    decreases j - start
  {
    if start < j && s[start] != c { IndexOfFirst(s, c, start + 1, j); }
  }

  /** `str.upper` on ASCII text. */
  function Upper(s: string): string {
    if s == "" then ""
    else [if 'a' <= s[0] <= 'z' then (s[0] as int - 32) as char else s[0]] + Upper(s[1..])
  }

  /** The texts agree on their first `n` characters. */
  ghost predicate Agree(s: string, t: string, n: nat) {
    n <= |s| && n <= |t| && forall k :: 0 <= k < n ==> s[k] == t[k]
  }

  /** The first place that holds `c` is where `find` stops. */
  lemma {:induction false} IndexOfAt(s: string, c: char, start: nat, i: nat)
    requires start <= i <= |s| && (i == |s| || s[i] == c)
    requires forall k :: start <= k < i ==> s[k] != c
    ensures IndexOf(s, c, start) == i
    decreases i - start
  {
    if start < i { IndexOfAt(s, c, start + 1, i); }
  }

  lemma {:induction false} RStripKeepsHead(s: string)
    requires s != "" && !IsSpace(s[0])
    ensures RStrip(s) != "" && RStrip(s)[0] == s[0]
  {
    if IsSpace(s[|s| - 1]) { RStripKeepsHead(s[..|s| - 1]); }
  }

  /** Searching two texts that agree up to the hit finds the same place. */
  lemma {:induction false} IndexOfAgrees(s: string, t: string, c: char, start: nat, i: nat)
    requires start <= |s| && i == IndexOf(s, c, start) && Agree(s, t, i)
    requires i == |t| || t[i] == c
    ensures IndexOf(t, c, start) == i
    decreases i - start
  {
    if start < i { IndexOfAgrees(s, t, c, start + 1, i); }
  }

  /** Searching a suffix is searching the text, shifted. */
  lemma {:induction false} IndexOfShift(s: string, k: nat, c: char, start: nat)
    requires k <= |s|
    ensures IndexOf(s, c, k + start) == k + IndexOf(s[k..], c, start)
    decreases |s| - start
  {
    if k + start < |s| && s[k + start] != c { IndexOfShift(s, k, c, start + 1); }
  }

  /** The pieces of a text, put back together. */
  function Concat(ps: seq<string>): string {
    if ps == [] then "" else ps[0] + Concat(ps[1..])
  }

  lemma {:induction false} ConcatAppend(ps: seq<string>, qs: seq<string>)
    ensures Concat(ps + qs) == Concat(ps) + Concat(qs)
  {
    if ps == [] {
      assert ps + qs == qs;
    } else {
      assert (ps + qs)[1..] == ps[1..] + qs;
      ConcatAppend(ps[1..], qs);
    }
  }

  lemma {:induction false} ConcatSnoc(ps: seq<string>, p: string)
    ensures Concat(ps + [p]) == Concat(ps) + p
  {
    ConcatAppend(ps, [p]);
    assert Concat([p]) == p;
  }
}
