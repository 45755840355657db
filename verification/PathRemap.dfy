/** Moving the two deployment roots of a text: whole path tokens only, the longest root first. */
module PathRemap {
  import opened Options
  import opened Sequences
  import opened Text
  import opened Dotenv

  /** A source root and its destination. */
  type Rule = (string, string)

  predicate IsSeparator(c: char) {
    || IsSpace(c) || c == '"' || c == '\'' || c == '=' || c == ',' || c == ';' || c == '(' || c == ')'
    || c == '[' || c == ']' || c == '{' || c == '}' || c == '<' || c == '>'
  }

  predicate TokenOnly(s: string) { forall i :: 0 <= i < |s| ==> !IsSeparator(s[i]) }

  /** The path is the root or lies under it. */
  predicate Under(path: string, root: string) { path == root || root + "/" <= path }

  /** The first rule whose source the token lies under. */
  function Choose(rules: seq<Rule>, token: string): (r: Option<Rule>)
    ensures r.Some? ==> r.value in rules && Under(token, r.value.0)
  {
    if rules == [] then None
    else if Under(token, rules[0].0) then Some(rules[0])
    else Choose(rules[1..], token)
  }

  function RemapToken(rules: seq<Rule>, token: string): string {
    match Choose(rules, token)
    case None => token
    case Some((source, destination)) => destination + token[|source|..]
  }

  method ReplaceToken(rules: seq<Rule>, token: string) returns (replaced: string)
    ensures replaced == RemapToken(rules, token)
  {
    for i := 0 to |rules|
      invariant Choose(rules, token) == Choose(rules[i..], token)
    {
      var (source, destination) := rules[i];
      assert rules[i..][1..] == rules[i + 1..];
      if token == source {
        assert token[|source|..] == "";
        return destination;
      }
      if source + "/" <= token {
        return destination + token[|source|..];
      }
    }
    return token;
  }

  function TokenEnd(s: string, i: nat): (j: nat)
    requires i <= |s|
    ensures i <= j <= |s|
    ensures j < |s| ==> IsSeparator(s[j])
    ensures TokenOnly(s[i..j])
    decreases |s| - i
  {
    if i < |s| && !IsSeparator(s[i]) then
      var j := TokenEnd(s, i + 1);
      assert s[i..j] == [s[i]] + s[i + 1..j];
      j
    else i
  }

  /** Every maximal run of token characters is replaced; separators stay. */
  function Remap(rules: seq<Rule>, s: string): string
    decreases |s|
  {
    if s == "" then ""
    else if IsSeparator(s[0]) then [s[0]] + Remap(rules, s[1..])
    else
      var n := TokenEnd(s, 0);
      assert n > 0;
      RemapToken(rules, s[..n]) + Remap(rules, s[n..])
  }

  /** Both roots, the longer source first; empty and unmoved roots are dropped. */
  function RulesFor(install: Rule, code: Rule): seq<Rule> {
    var sorted := if |code.0| > |install.0| then [code, install] else [install, code];
    Moving(sorted)
  }

  function Moving(rules: seq<Rule>): seq<Rule> {
    if rules == [] then []
    else Kept(rules[0]) + Moving(rules[1..])
  }

  function Kept(rule: Rule): seq<Rule> { if rule.0 != "" && rule.0 != rule.1 then [rule] else [] }

  lemma {:induction false} MovingPair(a: Rule, b: Rule)
    ensures Moving([a, b]) == Kept(a) + Kept(b)
  {
    hide Kept;
    assert [a, b][1..] == [b] && [b][1..] == [];
    assert Moving([]) == [];
    assert Moving([b]) == Kept(b);
  }

  function RemapPaths(s: string, install: Rule, code: Rule): string {
    var rules := RulesFor(install, code);
    if rules != [] then Remap(rules, s) else s
  }

  // ---------------------------------------------------------------------------------------------
  // Tokens and separators
  // ---------------------------------------------------------------------------------------------

  lemma {:induction false} TokenEndAt(x: string, rest: string, i: nat)
    requires i <= |x| && TokenOnly(x) && (rest == "" || IsSeparator(rest[0]))
    ensures TokenEnd(x + rest, i) == |x|
    decreases |x| - i
  {
    hide IsSeparator;
    if i < |x| { TokenEndAt(x, rest, i + 1); }
  }

  /** A token at the head is replaced whole, and the rest is remapped by itself. */
  lemma {:induction false} RemapHead(rules: seq<Rule>, x: string, rest: string)
    requires TokenOnly(x) && (rest == "" || IsSeparator(rest[0]))
    ensures Remap(rules, x + rest) == (if x == "" then "" else RemapToken(rules, x)) + Remap(rules, rest)
  {
    hide IsSeparator, RemapToken;
    if x == "" {
      assert x + rest == rest;
    } else {
      TokenEndAt(x, rest, 0);
      var s := x + rest;
      assert s[0] == x[0] && s[..|x|] == x && s[|x|..] == rest;
    }
  }

  lemma {:induction false} RemapSeparator(rules: seq<Rule>, c: char, rest: string)
    requires IsSeparator(c)
    ensures Remap(rules, [c] + rest) == [c] + Remap(rules, rest)
  {
  }

  /** A text is empty, a separator and a text, or a token and a text that continues it. */
  lemma {:induction false} Cut(s: string) returns (x: string, rest: string)
    requires s != "" && !IsSeparator(s[0])
    ensures s == x + rest && x != "" && TokenOnly(x) && (rest == "" || IsSeparator(rest[0]))
  {
    var n := TokenEnd(s, 0);
    x, rest := s[..n], s[n..];
    assert s[0..n] == s[..n];
  }

  /** Separators cut a text into parts that are remapped independently, and stay in their places. */
  lemma {:induction false} RemapSplits(rules: seq<Rule>, a: string, c: char, b: string)
    requires IsSeparator(c)
    ensures Remap(rules, a + [c] + b) == Remap(rules, a) + [c] + Remap(rules, b)
    decreases |a|
  {
    hide IsSeparator, RemapToken, Remap;
    if a == "" {
      RemapNothing(rules);
      RemapSeparator(rules, c, b);
      assert a + [c] + b == [c] + b;
    } else if IsSeparator(a[0]) {
      var a' := a[1..];
      RemapSplits(rules, a', c, b);
      RemapSeparator(rules, a[0], a');
      RemapSeparator(rules, a[0], a' + [c] + b);
      assert a == [a[0]] + a' && a + [c] + b == [a[0]] + (a' + [c] + b);
    } else {
      var x, rest := Cut(a);
      RemapSplits(rules, rest, c, b);
      RemapHead(rules, x, rest);
      RemapHead(rules, x, rest + [c] + b);
      assert a + [c] + b == x + (rest + [c] + b);
    }
  }

  lemma {:induction false} RemapNothing(rules: seq<Rule>)
    ensures Remap(rules, "") == ""
  {
  }

  /** What ends here ends in front of a token. */
  predicate AtStart(a: string) { a == "" || IsSeparator(a[|a| - 1]) }

  lemma {:induction false} StartSplits(rules: seq<Rule>, a: string, z: string)
    requires AtStart(a)
    ensures Remap(rules, a + z) == Remap(rules, a) + Remap(rules, z)
  {
    hide IsSeparator, Remap;
    RemapNothing(rules);
    if a == "" {
      assert a + z == z;
    } else {
      var init, c := a[..|a| - 1], a[|a| - 1];
      assert a == init + [c] && a + "" == a;
      RemapSplits(rules, init, c, z);
      RemapSplits(rules, init, c, "");
    }
  }

  function Separators(s: string): string {
    if s == "" then "" else SeparatorOf(s[0]) + Separators(s[1..])
  }

  function SeparatorOf(c: char): string { if IsSeparator(c) then [c] else "" }

  lemma {:induction false} SeparatorsAppend(a: string, b: string)
    ensures Separators(a + b) == Separators(a) + Separators(b)
  {
    hide IsSeparator;
    if a == "" {
      assert a + b == b;
    } else {
      assert (a + b)[1..] == a[1..] + b;
      SeparatorsAppend(a[1..], b);
      hide SeparatorOf;
      Associate(SeparatorOf(a[0]), Separators(a[1..]), Separators(b));
    }
  }

  lemma {:induction false} TokenHasNoSeparators(x: string)
    requires TokenOnly(x)
    ensures Separators(x) == ""
  {
    hide IsSeparator;
    if x != "" { TokenHasNoSeparators(x[1..]); }
  }

  lemma {:induction false} NoSeparatorsIsToken(x: string)
    requires Separators(x) == ""
    ensures TokenOnly(x)
  {
    hide IsSeparator;
    if x != "" { NoSeparatorsIsToken(x[1..]); }
  }

  /** Whatever the destinations, no separator is lost. */
  lemma {:induction false} SeparatorsGrow(rules: seq<Rule>, s: string)
    ensures |Separators(Remap(rules, s))| >= |Separators(s)|
    decreases |s|
  {
    hide IsSeparator, RemapToken, Remap, TokenOnly, Separators;
    if s == "" {
      RemapNothing(rules);
    } else if IsSeparator(s[0]) {
      var c, rest := s[0], s[1..];
      assert s == [c] + rest;
      RemapSeparator(rules, c, rest);
      SeparatorsGrow(rules, rest);
      SeparatorsAppend([c], rest);
      SeparatorsAppend([c], Remap(rules, rest));
    } else {
      var x, rest := Cut(s);
      RemapHead(rules, x, rest);
      SeparatorsGrow(rules, rest);
      TokenHasNoSeparators(x);
      SeparatorsAppend(x, rest);
      SeparatorsAppend(RemapToken(rules, x), Remap(rules, rest));
    }
  }

  ghost predicate TokenDestinations(rules: seq<Rule>) { forall i :: 0 <= i < |rules| ==> TokenOnly(rules[i].1) }

  lemma {:induction false} ReplacedIsToken(rules: seq<Rule>, x: string)
    requires TokenDestinations(rules) && TokenOnly(x)
    ensures TokenOnly(RemapToken(rules, x))
  {
  }

  /** The separators of a text come out unchanged and in order. */
  lemma {:induction false} SeparatorsStay(rules: seq<Rule>, s: string)
    requires TokenDestinations(rules)
    ensures Separators(Remap(rules, s)) == Separators(s)
    decreases |s|
  {
    hide IsSeparator, RemapToken, Remap, TokenOnly, Separators;
    if s == "" {
      RemapNothing(rules);
    } else if IsSeparator(s[0]) {
      var c, rest := s[0], s[1..];
      assert s == [c] + rest;
      RemapSeparator(rules, c, rest);
      SeparatorsStay(rules, rest);
      SeparatorsAppend([c], rest);
      SeparatorsAppend([c], Remap(rules, rest));
    } else {
      var x, rest := Cut(s);
      RemapHead(rules, x, rest);
      SeparatorsStay(rules, rest);
      ReplacedIsToken(rules, x);
      TokenHasNoSeparators(x);
      TokenHasNoSeparators(RemapToken(rules, x));
      SeparatorsAppend(x, rest);
      SeparatorsAppend(RemapToken(rules, x), Remap(rules, rest));
    }
  }

  // ---------------------------------------------------------------------------------------------
  // Which texts change, and which rule wins
  // ---------------------------------------------------------------------------------------------

  function Tokens(s: string): (ts: seq<string>)
    decreases |s|
  {
    if s == "" then []
    else if IsSeparator(s[0]) then Tokens(s[1..])
    else
      var n := TokenEnd(s, 0);
      assert n > 0;
      [s[..n]] + Tokens(s[n..])
  }

  lemma {:induction false} TokensHead(x: string, rest: string)
    requires TokenOnly(x) && x != "" && (rest == "" || IsSeparator(rest[0]))
    ensures Tokens(x + rest) == [x] + Tokens(rest)
  {
    hide IsSeparator;
    TokenEndAt(x, rest, 0);
    var s := x + rest;
    assert s[0] == x[0] && s[..|x|] == x && s[|x|..] == rest;
  }

  ghost predicate AllMove(rules: seq<Rule>) {
    forall i :: 0 <= i < |rules| ==> rules[i].0 != "" && rules[i].0 != rules[i].1
  }

  lemma {:induction false} TokenUnchanged(rules: seq<Rule>, x: string)
    requires AllMove(rules)
    ensures RemapToken(rules, x) == x <==> Choose(rules, x).None?
  {
  }

  lemma {:induction false} HeadsMatch(x: string, y: string, r: string, s: string)
    requires TokenOnly(x) && TokenOnly(y) && (r == "" || IsSeparator(r[0])) && (s == "" || IsSeparator(s[0]))
    requires x + r == y + s
    ensures x == y && r == s
  {
    hide IsSeparator;
    TokenEndAt(x, r, 0);
    TokenEndAt(y, s, 0);
    assert x == (x + r)[..|x|] && y == (y + s)[..|y|];
    assert r == (x + r)[|x|..] && s == (y + s)[|y|..];
  }

  lemma {:induction false} RemapStartsLikeText(rules: seq<Rule>, s: string)
    requires s == "" || IsSeparator(s[0])
    ensures Remap(rules, s) == "" || IsSeparator(Remap(rules, s)[0])
  {
  }

  ghost predicate NoneUnder(rules: seq<Rule>, ts: seq<string>) {
    forall k :: 0 <= k < |ts| ==> Choose(rules, ts[k]).None?
  }

  lemma {:induction false} NoneUnderCons(rules: seq<Rule>, x: string, ts: seq<string>)
    ensures NoneUnder(rules, [x] + ts) <==> Choose(rules, x).None? && NoneUnder(rules, ts)
  {
    hide Choose;
    var all := [x] + ts;
    assert all[0] == x;
    assert forall k :: 0 <= k < |ts| ==> ts[k] == all[k + 1];
  }

  /** A text is left alone exactly when none of its tokens lies at or under a source root. */
  lemma {:induction false} RemapUnchanged(rules: seq<Rule>, s: string)
    requires AllMove(rules)
    ensures Remap(rules, s) == s <==> NoneUnder(rules, Tokens(s))
    decreases |s|
  {
    hide IsSeparator, RemapToken, Remap, TokenOnly, AllMove, Choose;
    if s == "" {
      RemapNothing(rules);
    } else if IsSeparator(s[0]) {
      var c, rest := s[0], s[1..];
      assert s == [c] + rest;
      RemapSeparator(rules, c, rest);
      RemapUnchanged(rules, rest);
      assert Remap(rules, s)[1..] == Remap(rules, rest);
      assert Tokens(s) == Tokens(rest);
    } else {
      var x, rest := Cut(s);
      TokensHead(x, rest);
      hide Tokens;
      RemapUnchanged(rules, rest);
      RemapTokenAndRest(rules, x, rest);
      NoneUnderCons(rules, x, Tokens(rest));
    }
  }

  lemma {:induction false} RemapTokenAndRest(rules: seq<Rule>, x: string, rest: string)
    requires AllMove(rules)
    requires TokenOnly(x) && x != "" && (rest == "" || IsSeparator(rest[0]))
    ensures Remap(rules, x + rest) == x + rest <==> Choose(rules, x).None? && Remap(rules, rest) == rest
  {
    hide IsSeparator, RemapToken, Remap, TokenOnly, AllMove, Choose, Separators;
    TokenUnchanged(rules, x);
    RemapHead(rules, x, rest);
    RemapStartsLikeText(rules, rest);
    if Remap(rules, x + rest) == x + rest {
      SeparatorsGrow(rules, rest);
      TokenHasNoSeparators(x);
      SeparatorsAppend(x, rest);
      SeparatorsAppend(RemapToken(rules, x), Remap(rules, rest));
      NoSeparatorsIsToken(RemapToken(rules, x));
      HeadsMatch(RemapToken(rules, x), x, Remap(rules, rest), rest);
    }
  }

  ghost predicate LongestFirst(rules: seq<Rule>) {
    forall i, j :: 0 <= i < j < |rules| ==> |rules[i].0| >= |rules[j].0|
  }

  lemma {:induction false} ChooseLongest(rules: seq<Rule>, token: string, j: nat)
    requires LongestFirst(rules) && j < |rules| && Under(token, rules[j].0)
    ensures Choose(rules, token).Some? && |Choose(rules, token).value.0| >= |rules[j].0|
  {
    hide Under;
    if !Under(token, rules[0].0) {
      assert rules[1..][j - 1] == rules[j];
      ChooseLongest(rules[1..], token, j - 1);
    } else {
      assert rules[0].0 == Choose(rules, token).value.0;
    }
  }

  // ---------------------------------------------------------------------------------------------
  // Remapping twice
  // ---------------------------------------------------------------------------------------------

  /** The rules the source builds: moving, longest first, with sources made of token characters. */
  ghost predicate Proper(rules: seq<Rule>) {
    LongestFirst(rules) && AllMove(rules) && forall i :: 0 <= i < |rules| ==> TokenOnly(rules[i].0)
  }

  /** Where the last piece of a destination starts, behind its last separator. */
  function LastStart(d: string): (n: nat)
    ensures n <= |d|
    ensures AtStart(d[..n]) && TokenOnly(d[n..])
  {
    if d == "" || IsSeparator(d[|d| - 1]) then |d|
    else
      var init := d[..|d| - 1];
      var n := LastStart(init);
      assert d[..n] == init[..n] && d[n..] == init[n..] + [d[|d| - 1]];
      n
  }

  function Front(d: string): string { d[..LastStart(d)] }
  function Last(d: string): string { d[LastStart(d)..] }

  lemma {:induction false} LastStartStep(d: string)
    requires d != "" && !IsSeparator(d[|d| - 1])
    ensures LastStart(d) == LastStart(d[..|d| - 1])
  {
    hide IsSeparator, TokenOnly, AtStart;
  }

  lemma {:induction false} TokenStart(d: string)
    requires TokenOnly(d)
    ensures LastStart(d) == 0
  {
    hide IsSeparator, LastStart;
    if d == "" {
      assert LastStart(d) <= |d|;
    } else {
      LastStartStep(d);
      TokenStart(d[..|d| - 1]);
    }
  }

  lemma {:induction false} LastOfToken(d: string)
    requires TokenOnly(d)
    ensures Front(d) == "" && Last(d) == d
  {
    hide TokenOnly, LastStart;
    TokenStart(d);
  }

  /**
   * No rule in force sends paths to where another rule picks them up: no token in front of the last piece
   * of its destination is under a source, and that piece is neither at or under a source, nor above one,
   * unless those paths had already gone by a longer rule.
   */
  ghost predicate Apart(rules: seq<Rule>) {
    forall i :: 0 <= i < |rules| && Choose(rules, rules[i].0) == Some(rules[i]) ==>
      && NoneUnder(rules, Tokens(Front(rules[i].1)))
      && forall j :: 0 <= j < |rules| ==> !Meets(rules, i, j)
  }

  ghost predicate Meets(rules: seq<Rule>, i: nat, j: nat)
    requires i < |rules| && j < |rules|
  {
    var last := Last(rules[i].1);
    || Under(last, rules[j].0)
    || (Under(rules[j].0, last) && Choose(rules, rules[i].0 + rules[j].0[|last|..]) == Some(rules[i]))
  }

  /** Two roots of one path: the longer lies under the shorter. */
  lemma {:induction false} RootsNest(path: string, a: string, b: string)
    requires Under(path, a) && Under(path, b) && |a| <= |b|
    ensures Under(b, a)
  {
    if |a| < |b| {
      assert path[|a|] == '/' && path[..|b|] == b;
      assert b[..|a|] == path[..|a|] == a;
    } else {
      assert path[..|a|] == a && path[..|b|] == b;
    }
  }

  lemma {:induction false} UnderMoves(path: string, from: string, to: string)
    requires Under(path, from)
    ensures Under(to + path[|from|..], to)
  {
  }

  lemma {:induction false} UnderTrans(a: string, b: string, c: string)
    requires Under(a, b) && Under(b, c)
    ensures Under(a, c)
  {
  }

  /** The rule chosen for a token is the one chosen for its own source. */
  lemma {:induction false} ChosenIsLive(rules: seq<Rule>, token: string, i: nat)
    requires LongestFirst(rules) && i < |rules| && Choose(rules, token) == Some(rules[i])
    ensures Choose(rules, rules[i].0) == Some(rules[i])
  {
    hide Under, Choose;
    UnderItself(rules[i].0);
    ChooseLongest(rules, rules[i].0, i);
    var c := Choose(rules, rules[i].0).value;
    ChosenUnder(rules, rules[i].0);
    ChosenUnder(rules, token);
    UnderTrans(token, rules[i].0, c.0);
    UnderLength(rules[i].0, c.0);
    SameChoice(rules, token, rules[i].0);
  }

  lemma {:induction false} UnderItself(a: string)
    ensures Under(a, a)
  {
  }

  lemma {:induction false} UnderLength(a: string, b: string)
    requires Under(a, b)
    ensures |b| <= |a| && (|a| == |b| ==> a == b)
  {
  }

  lemma {:induction false} ChosenUnder(rules: seq<Rule>, token: string)
    requires Choose(rules, token).Some?
    ensures Under(token, Choose(rules, token).value.0) && Choose(rules, token).value in rules
  {
  }

  /** Whichever comes first of two rules with the same source is chosen by both tokens. */
  lemma {:induction false} SameChoice(rules: seq<Rule>, a: string, b: string)
    requires Choose(rules, a).Some? && Choose(rules, b).Some?
    requires Choose(rules, a).value.0 == Choose(rules, b).value.0
    ensures Choose(rules, a) == Choose(rules, b)
  {
    hide Under;
    if !Under(a, rules[0].0) && !Under(b, rules[0].0) {
      SameChoice(rules[1..], a, b);
    } else if Under(a, rules[0].0) {
      ChosenUnder(rules, b);
    } else {
      ChosenUnder(rules, a);
    }
  }

  lemma {:induction false} PickedUpAgain(rules: seq<Rule>, token: string, i: nat, j: nat)
    requires Proper(rules) && Apart(rules) && i < |rules| && j < |rules| && Choose(rules, token) == Some(rules[i])
    ensures |rules[i].0| <= |token| && !Under(Last(rules[i].1) + token[|rules[i].0|..], rules[j].0)
  {
    hide Choose, AllMove, TokenOnly, Last, Front, NoneUnder;
    var source, last := rules[i].0, Last(rules[i].1);
    ChosenIsLive(rules, token, i);
    ChosenUnder(rules, token);
    var moved := last + token[|source|..];
    UnderMoves(token, source, last);
    assert !Meets(rules, i, j);
    if Under(moved, rules[j].0) {
      if |rules[j].0| <= |last| {
        RootsNest(moved, rules[j].0, last);
      } else {
        RootsNest(moved, last, rules[j].0);
        EarlierRule(rules, token, i, j, last);
      }
      assert false;
    }
  }

  /** A source under the destination: had the path back to it been in force, so would the token's. */
  lemma {:induction false} EarlierRule(rules: seq<Rule>, token: string, i: nat, j: nat, destination: string)
    requires Proper(rules) && i < |rules| && j < |rules| && Choose(rules, token) == Some(rules[i])
    requires |rules[i].0| <= |token|
    requires Under(rules[j].0, destination) && Under(destination + token[|rules[i].0|..], rules[j].0)
    ensures |destination| <= |rules[j].0|
    ensures Choose(rules, rules[i].0 + rules[j].0[|destination|..]) == Some(rules[i])
  {
    hide Choose, AllMove, TokenOnly, Under;
    var source := rules[i].0;
    UnderLength(rules[j].0, destination);
    var inner := source + rules[j].0[|destination|..];
    ChosenUnder(rules, token);
    MovesBack(token, source, destination, rules[j].0);
    UnderMoves(rules[j].0, destination, source);
    ChooseLongest(rules, inner, i);
    ChosenUnder(rules, inner);
    var c := Choose(rules, inner).value;
    var k :| 0 <= k < |rules| && rules[k] == c;
    UnderTrans(token, inner, c.0);
    ChooseLongest(rules, token, k);
    RootsNest(inner, source, c.0);
    UnderLength(c.0, source);
    SameChoice(rules, token, inner);
  }

  lemma {:induction false} MovesBack(token: string, source: string, destination: string, root: string)
    requires Under(token, source) && Under(root, destination)
    requires Under(destination + token[|source|..], root)
    ensures Under(token, source + root[|destination|..])
  {
    var rest, tail := token[|source|..], root[|destination|..];
    var moved := destination + rest;
    assert root == destination + tail by { assert root[..|destination|] == destination; }
    assert token == source + rest by { assert token[..|source|] == source; }
    if moved == root {
      assert rest == moved[|destination|..] == tail;
    } else {
      assert tail + "/" <= rest by {
        assert moved[|destination|..] == rest;
        assert moved[..|root| + 1] == root + "/";
        assert (root + "/")[|destination|..] == tail + "/";
      }
      assert token[..|source + tail| + 1] == source + tail + "/";
    }
  }

  lemma {:induction false} NoneChosen(rules: seq<Rule>, token: string)
    requires forall j :: 0 <= j < |rules| ==> !Under(token, rules[j].0)
    ensures Choose(rules, token).None?
  {
    hide Under;
    if rules != [] { NoneChosen(rules[1..], token); }
  }

  /** A token that has moved stays, with all that its destination brings along. */
  lemma {:induction false} TokenStays(rules: seq<Rule>, token: string)
    requires Proper(rules) && Apart(rules) && TokenOnly(token) && token != ""
    ensures var moved := RemapToken(rules, token); Remap(rules, moved) == moved
  {
    hide Choose, Proper, Apart, Under, Remap, IsSeparator, Front, Last, LastStart;
    var c := Choose(rules, token);
    if c.None? {
      TokenText(rules, token);
    } else {
      ChosenUnder(rules, token);
      var i :| 0 <= i < |rules| && rules[i] == c.value;
      var (source, destination) := rules[i];
      UnderLength(token, source);
      var front, piece := Front(destination), Last(destination) + token[|source|..];
      Pieces(destination);
      assert RemapToken(rules, token) == front + piece by { assert front + piece == destination + token[|source|..]; }
      FrontStays(rules, i, token);
      StartSplits(rules, front, piece);
      forall j | 0 <= j < |rules| ensures !Under(piece, rules[j].0) { PickedUpAgain(rules, token, i, j); }
      NoneChosen(rules, piece);
      if piece == "" { RemapNothing(rules); } else { TokenText(rules, piece); }
    }
  }

  lemma {:induction false} Pieces(d: string)
    ensures d == Front(d) + Last(d) && AtStart(Front(d)) && TokenOnly(Last(d))
  {
  }

  lemma {:induction false} FrontStays(rules: seq<Rule>, i: nat, token: string)
    requires Proper(rules) && Apart(rules) && i < |rules| && Choose(rules, token) == Some(rules[i])
    ensures Remap(rules, Front(rules[i].1)) == Front(rules[i].1)
  {
    hide Choose, Remap, Front, Last, Under;
    ChosenIsLive(rules, token, i);
    RemapUnchanged(rules, Front(rules[i].1));
  }

  /** A destination made of token characters keeps a token a token. */
  lemma {:induction false} TokenTwice(rules: seq<Rule>, token: string)
    requires Proper(rules) && Apart(rules) && TokenDestinations(rules) && TokenOnly(token) && token != ""
    ensures RemapToken(rules, RemapToken(rules, token)) == RemapToken(rules, token)
  {
    hide Choose, Proper, Apart, Remap, IsSeparator;
    TokenStays(rules, token);
    ReplacedIsToken(rules, token);
    var moved := RemapToken(rules, token);
    if moved == "" {
      NoEmptySource(rules);
    } else {
      TokenText(rules, moved);
    }
  }

  lemma {:induction false} NoEmptySource(rules: seq<Rule>)
    requires Proper(rules)
    ensures RemapToken(rules, "") == ""
  {
  }

  /** So the text that has been remapped stays. */
  lemma {:induction false} TextTwice(rules: seq<Rule>, s: string)
    requires Proper(rules) && Apart(rules)
    ensures Remap(rules, Remap(rules, s)) == Remap(rules, s)
    decreases |s|, 1
  {
    hide IsSeparator, RemapToken, Remap, TokenOnly, AllMove, Choose, Apart, LongestFirst;
    if s == "" {
      RemapNothing(rules);
    } else if IsSeparator(s[0]) {
      RemapNothing(rules);
      SeparatorTwice(rules, "", s);
      assert "" + Remap(rules, s) == Remap(rules, s);
    } else {
      var x, rest := Cut(s);
      RemapHead(rules, x, rest);
      TokenStays(rules, x);
      if rest == "" {
        RemapNothing(rules);
        assert RemapToken(rules, x) + "" == RemapToken(rules, x);
      } else {
        SeparatorTwice(rules, RemapToken(rules, x), rest);
      }
    }
  }

  /** A separator cuts off what is in front of it. */
  lemma {:induction false} SeparatorTwice(rules: seq<Rule>, a: string, s: string)
    requires Proper(rules) && Apart(rules) && s != "" && IsSeparator(s[0]) && Remap(rules, a) == a
    ensures Remap(rules, a + Remap(rules, s)) == a + Remap(rules, s)
    decreases |s|, 0
  {
    hide IsSeparator, Remap, Proper, Apart;
    var c, rest := s[0], s[1..];
    assert s == [c] + rest;
    RemapSeparator(rules, c, rest);
    TextTwice(rules, rest);
    RemapSplits(rules, a, c, Remap(rules, rest));
    assert a + ([c] + Remap(rules, rest)) == a + [c] + Remap(rules, rest);
  }

  lemma {:induction false} TokenText(rules: seq<Rule>, x: string)
    requires TokenOnly(x) && x != ""
    ensures Remap(rules, x) == RemapToken(rules, x)
  {
    hide RemapToken, IsSeparator;
    assert x + "" == x;
    RemapHead(rules, x, "");
    RemapNothing(rules);
    assert RemapToken(rules, x) + "" == RemapToken(rules, x);
  }

  lemma {:induction false} TokensSeparator(c: char, rest: string)
    requires IsSeparator(c)
    ensures Tokens([c] + rest) == Tokens(rest)
  {
    assert ([c] + rest)[1..] == rest;
  }

  lemma {:induction false} TokensSplit(a: string, z: string)
    requires AtStart(a)
    ensures Tokens(a + z) == Tokens(a) + Tokens(z)
    decreases |a|
  {
    hide IsSeparator, Tokens;
    if a == "" {
      assert a + z == z;
      assert Tokens(a) == [] by { NoTokens(); }
    } else if IsSeparator(a[0]) {
      var rest := a[1..];
      assert a == [a[0]] + rest && a + z == [a[0]] + (rest + z);
      TokensSeparator(a[0], rest);
      TokensSeparator(a[0], rest + z);
      TokensSplit(rest, z);
    } else {
      var x, rest := Cut(a);
      assert rest != "" by { assert a[|a| - 1] == (x + rest)[|a| - 1]; }
      assert rest[|rest| - 1] == a[|a| - 1];
      TokensHead(x, rest);
      TokensHead(x, rest + z);
      assert a + z == x + (rest + z);
      TokensSplit(rest, z);
    }
  }

  lemma {:induction false} NoTokens()
    ensures Tokens("") == []
  {
  }

  lemma {:induction false} OneToken(x: string)
    requires TokenOnly(x) && x != ""
    ensures Tokens(x) == [x]
  {
    hide IsSeparator;
    assert x + "" == x;
    TokensHead(x, "");
  }

  /** A text with a token under a source somewhere in it moves. */
  lemma {:induction false} TokenMovesText(rules: seq<Rule>, front: string, x: string, j: nat)
    requires Proper(rules) && j < |rules| && AtStart(front) && TokenOnly(x) && x != "" && Under(x, rules[j].0)
    ensures Remap(rules, front + x) != front + x
  {
    hide Choose, Remap, IsSeparator, Tokens, Under;
    ChooseLongest(rules, x, j);
    TokensSplit(front, x);
    OneToken(x);
    var ts := Tokens(front) + [x];
    assert ts[|ts| - 1] == x;
    RemapUnchanged(rules, front + x);
  }

  lemma {:induction false} FrontMovesText(rules: seq<Rule>, front: string, x: string)
    requires Proper(rules) && AtStart(front) && !NoneUnder(rules, Tokens(front))
    ensures Remap(rules, front + x) != front + x
  {
    hide Choose, Remap, IsSeparator, Tokens;
    TokensSplit(front, x);
    var k :| 0 <= k < |Tokens(front)| && Choose(rules, Tokens(front)[k]).Some?;
    assert (Tokens(front) + Tokens(x))[k] == Tokens(front)[k];
    RemapUnchanged(rules, front + x);
  }

  /** If the rules are not apart, this path moves twice. */
  lemma {:induction false} MovesTwice(rules: seq<Rule>, i: nat, j: nat) returns (token: string)
    requires Proper(rules) && i < |rules| && j < |rules| && Choose(rules, rules[i].0) == Some(rules[i])
    requires Meets(rules, i, j) || !NoneUnder(rules, Tokens(Front(rules[i].1)))
    ensures TokenOnly(token) && token != "" && Choose(rules, token) == Some(rules[i])
    ensures var last := Last(rules[i].1);
            token == rules[i].0
            || (Under(rules[j].0, last) && token == rules[i].0 + rules[j].0[|last|..])
    ensures Remap(rules, Remap(rules, token)) != Remap(rules, token)
  {
    hide Choose, IsSeparator, Remap, Last, Front, LastStart, Tokens, NoneUnder;
    var (source, destination) := rules[i];
    var front, last := Front(destination), Last(destination);
    Pieces(destination);
    if !NoneUnder(rules, Tokens(front)) || Under(last, rules[j].0) {
      token := source;
      assert RemapToken(rules, token) == front + last;
      if Under(last, rules[j].0) { TokenMovesText(rules, front, last, j); } else { FrontMovesText(rules, front, last); }
    } else {
      var tail := rules[j].0[|last|..];
      token := source + tail;
      assert rules[j].0 == last + tail;
      assert RemapToken(rules, token) == front + rules[j].0 by {
        assert token[|source|..] == tail;
        assert destination + tail == front + (last + tail);
      }
      UnderItself(rules[j].0);
      TokenMovesText(rules, front, rules[j].0, j);
    }
    TokenText(rules, token);
  }

  /** Remapping twice is remapping once, on every text, exactly when the rules are apart. */
  lemma {:induction false} RemapTwice(rules: seq<Rule>)
    requires Proper(rules)
    ensures Apart(rules) <==> forall s :: Remap(rules, Remap(rules, s)) == Remap(rules, s)
  {
    hide Choose, Remap, Proper, Meets, NoneUnder, Front;
    if Apart(rules) {
      forall s ensures Remap(rules, Remap(rules, s)) == Remap(rules, s) { TextTwice(rules, s); }
    } else {
      var i, j := NotApart(rules);
      var token := MovesTwice(rules, i, j);
    }
  }

  lemma {:induction false} NotApart(rules: seq<Rule>) returns (i: nat, j: nat)
    requires !Apart(rules)
    ensures i < |rules| && j < |rules| && Choose(rules, rules[i].0) == Some(rules[i])
    ensures Meets(rules, i, j) || !NoneUnder(rules, Tokens(Front(rules[i].1)))
  {
    hide Choose, Meets, NoneUnder, Front;
    i :| 0 <= i < |rules| && Choose(rules, rules[i].0) == Some(rules[i])
      && !(NoneUnder(rules, Tokens(Front(rules[i].1))) && forall j :: 0 <= j < |rules| ==> !Meets(rules, i, j));
    if NoneUnder(rules, Tokens(Front(rules[i].1))) {
      j :| 0 <= j < |rules| && Meets(rules, i, j);
    } else {
      j := i;
    }
  }

  /** The rules the source builds from two pairs of roots are proper. */
  lemma {:induction false} RulesAreProper(install: Rule, code: Rule)
    requires TokenOnly(install.0) && TokenOnly(code.0)
    ensures Proper(RulesFor(install, code))
  {
    hide IsSeparator;
    MovingPair(install, code);
    MovingPair(code, install);
  }

  /** With the two roots, remapping a text twice is remapping it once exactly when the rules are apart. */
  lemma {:induction false} RemapPathsTwice(install: Rule, code: Rule)
    requires TokenOnly(install.0) && TokenOnly(code.0)
    ensures Apart(RulesFor(install, code))
            <==> forall s :: RemapPaths(RemapPaths(s, install, code), install, code) == RemapPaths(s, install, code)
  {
    hide Remap, Apart, RulesFor;
    RulesAreProper(install, code);
    RemapTwice(RulesFor(install, code));
    var rules := RulesFor(install, code);
    if rules == [] {
      NoRulesApart();
    } else if Apart(rules) {
      forall s ensures RemapPaths(RemapPaths(s, install, code), install, code) == RemapPaths(s, install, code) {
        assert Remap(rules, Remap(rules, s)) == Remap(rules, s);
      }
    } else {
      var s :| Remap(rules, Remap(rules, s)) != Remap(rules, s);
      assert RemapPaths(RemapPaths(s, install, code), install, code) != RemapPaths(s, install, code);
    }
  }

  lemma {:induction false} NoRulesApart()
    ensures Apart([])
  {
  }

  /** A token under the one rule there is. */
  lemma {:induction false} OneRule(rule: Rule, x: string)
    requires TokenOnly(x) && x != "" && Under(x, rule.0)
    ensures Remap([rule], x) == rule.1 + x[|rule.0|..]
  {
    hide Remap, TokenOnly, Under;
    TokenText([rule], x);
    assert Choose([rule], x) == Some(rule);
  }

  /** Moving a root below itself moves its paths again on the second pass. */
  lemma {:induction false} NestedRootMovesTwice()
    ensures var install, code := ("/a", "/a/b"), ("", "");
            RemapPaths(RemapPaths("/a", install, code), install, code) == "/a/b/b"
  {
    hide Remap, TokenOnly, Moving;
    var install, code := ("/a", "/a/b"), ("", "");
    MovingPair(install, code);
    assert RulesFor(install, code) == [install];
    SlashTokens();
    OneRule(install, "/a");
    OneRule(install, "/a/b");
  }

  lemma {:induction false} SlashTokens()
    ensures TokenOnly("/a") && TokenOnly("/a/b") && Under("/a/b", "/a")
    ensures "/a/b" + "/a"[2..] == "/a/b" && "/a/b" + "/a/b"[2..] == "/a/b/b"
  {
  }
}
