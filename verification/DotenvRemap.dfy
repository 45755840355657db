/**
 * What the host apply reads from the bundle's dotenv file: the text is remapped, parsed, and every value is
 * remapped again. Remapping commutes with scanning, so this is parsing and then remapping once, exactly when the
 * roots are apart and nested roots stay nested.
 */
module DotenvRemap {
  import opened Options
  import opened Sequences
  import opened Text
  import opened Dotenv
  import opened DotenvPrint
  import opened DotenvLines
  import opened DotenvRewrite
  import opened DotenvLaws
  import opened DotenvEdit
  import opened PathRemap
  import opened DotenvAround

  function RemapValues(m: map<string, string>, install: Rule, code: Rule): map<string, string> {
    map k | k in m :: RemapPaths(m[k], install, code)
  }

  /** The bundle's values as the host apply computes them. */
  function TwoPasses(t: string, install: Rule, code: Rule): map<string, string> {
    RemapValues(Parse(RemapPaths(t, install, code)), install, code)
  }

  /** The bundle's values, each remapped once. */
  function OnePass(t: string, install: Rule, code: Rule): map<string, string> { RemapValues(Parse(t), install, code) }

  ghost predicate Live(rules: seq<Rule>, i: nat)
    requires i < |rules|
  {
    Choose(rules, rules[i].0) == Some(rules[i])
  }

  /** A source under another goes where it would go under the other's destination. */
  ghost predicate Nested(rules: seq<Rule>) {
    forall i, j :: 0 <= i < |rules| && 0 <= j < |rules| && Live(rules, i) && Live(rules, j)
      && rules[i].0 != rules[j].0 && Under(rules[j].0, rules[i].0)
      ==> rules[j].1 == rules[i].1 + rules[j].0[|rules[i].0|..]
  }

  ghost predicate Rooted(rules: seq<Rule>) { forall i :: 0 <= i < |rules| ==> Root(rules[i].0) && Root(rules[i].1) }

  // ---------------------------------------------------------------------------------------------
  // A root that stands at the start of a token
  // ---------------------------------------------------------------------------------------------

  /** Once its source is chosen for some path, a root and its destination are remapped alike. */
  lemma {:induction false} TokenSwaps(rules: seq<Rule>, i: nat, r: string)
    requires Proper(rules) && Rooted(rules) && Apart(rules) && Nested(rules) && i < |rules| && Live(rules, i)
    requires TokenOnly(r) && (r == "" || r[0] == '/')
    ensures RemapToken(rules, rules[i].0 + r) == RemapToken(rules, rules[i].1 + r)
  {
    hide Choose, Proper, Apart, Under;
    var (s, d) := rules[i];
    var y := s + r;
    RestIsUnder(s, r);
    assert LongestFirst(rules) by { assert Proper(rules); ProperIsSorted(rules); }
    ChooseLongest(rules, y, i);
    ChosenUnder(rules, y);
    var c := Choose(rules, y).value;
    var j :| 0 <= j < |rules| && rules[j] == c;
    ChosenIsLive(rules, y, j);
    RootsNest(y, s, c.0);
    UnderLength(c.0, s);
    if c.0 == s {
      SameChoice(rules, y, s);
    } else {
      assert c.1 == d + c.0[|s|..];
      assert c.1 + y[|c.0|..] == d + r by { NestedRest(s, r, c.0, d); }
    }
    assert RemapToken(rules, y) == d + r;
    assert TokenOnly(y) && y != "";
    TokenTwice(rules, y);
  }

  lemma {:induction false} ProperIsSorted(rules: seq<Rule>)
    requires Proper(rules)
    ensures LongestFirst(rules)
  {
  }

  lemma {:induction false} RestIsUnder(s: string, r: string)
    requires r == "" || r[0] == '/'
    ensures Under(s + r, s)
  {
    if r != "" { assert (s + r)[..|s| + 1] == s + "/"; }
  }

  lemma {:induction false} NestedRest(s: string, r: string, inner: string, d: string)
    requires Under(s + r, inner) && |s| <= |inner|
    ensures d + inner[|s|..] + (s + r)[|inner|..] == d + r
  {
    assert (s + r)[..|inner|] == inner;
    assert inner[|s|..] == r[..|inner| - |s|];
    assert (s + r)[|inner|..] == r[|inner| - |s|..];
  }

  /** In every value, a root and its destination are remapped alike. */
  lemma {:induction false} RootSwaps(rules: seq<Rule>, i: nat, pre: string, post: string)
    requires Proper(rules) && Rooted(rules) && Apart(rules) && Nested(rules) && i < |rules| && Live(rules, i)
    requires AtStart(pre) && Breaks(post)
    ensures Remap(rules, pre + rules[i].0 + post) == Remap(rules, pre + rules[i].1 + post)
  {
    hide IsSeparator, Remap, RemapToken, Proper, Apart, Nested, Live, AtStart;
    var (s, d) := rules[i];
    var r, rest := "", post;
    if post != "" && !IsSeparator(post[0]) { r, rest := Cut(post); }
    assert r == "" || r[0] == '/';
    assert pre + s + post == pre + (s + r + rest) && pre + d + post == pre + (d + r + rest);
    StartSplits(rules, pre, s + r + rest);
    StartSplits(rules, pre, d + r + rest);
    assert TokenOnly(s + r) && TokenOnly(d + r) && s != "" && d != "";
    RemapHead(rules, s + r, rest);
    RemapHead(rules, d + r, rest);
    TokenSwaps(rules, i, r);
  }

  // ---------------------------------------------------------------------------------------------
  // Texts whose values are remapped alike
  // ---------------------------------------------------------------------------------------------

  ghost predicate Alike(rules: seq<Rule>, bs: Bindings, cs: Bindings) {
    |bs| == |cs| && forall i :: 0 <= i < |bs| ==> bs[i].0 == cs[i].0 && Remap(rules, bs[i].1) == Remap(rules, cs[i].1)
  }

  lemma {:induction false} AlikeAppend(rules: seq<Rule>, a: Bindings, b: Bindings, c: Bindings, d: Bindings)
    requires Alike(rules, a, b) && Alike(rules, c, d)
    ensures Alike(rules, a + c, b + d)
  {
    hide Remap;
  }

  lemma {:induction false} AlikeSelf(rules: seq<Rule>, bs: Bindings)
    ensures Alike(rules, bs, bs)
  {
  }

  /** One root, moved anywhere in a dotenv text where a token starts, comments and keys included. */
  lemma {:induction false} OneMove(rules: seq<Rule>, i: nat, a: string, b: string)
    requires Proper(rules) && Rooted(rules) && Apart(rules) && Nested(rules) && i < |rules| && Live(rules, i)
    requires AtStart(a) && Breaks(b)
    ensures Alike(rules, Binds(a + rules[i].0 + b), Binds(a + rules[i].1 + b))
    decreases |a|
  {
    hide Remap, Proper, Apart, Nested, Live, AtStart, Breaks, Binds, ScanHead, HeadFit, Alike;
    var (s, d) := rules[i];
    if ScanHead(a).stop < |a| {
      var n := ScanHead(a).stop + 1;
      HeadBefore(a, s, b);
      HeadBefore(a, d, b);
      SuffixAtStart(a, n);
      OneMove(rules, i, a[n..], b);
      AlikeSelf(rules, Bound(ScanHead(a).binding));
      AlikeAppend(rules, Bound(ScanHead(a).binding), Bound(ScanHead(a).binding),
                  Binds(a[n..] + s + b), Binds(a[n..] + d + b));
    } else {
      var f, rest := HeadFit(a, b), Binds(b[Min(HeadTail(a, b) + 1, |b|)..]);
      HeadThrough(a, s, b);
      HeadThrough(a, d, b);
      HeadFits(a, b);
      FitSwaps(rules, i, f);
      AlikeSelf(rules, rest);
      AlikeAppend(rules, Bound(Fitted(f, s)), Bound(Fitted(f, d)), rest, rest);
    }
  }

  lemma {:induction false} FitSwaps(rules: seq<Rule>, i: nat, f: Fit)
    requires Proper(rules) && Rooted(rules) && Apart(rules) && Nested(rules) && i < |rules| && Live(rules, i) && Fits(f)
    ensures Alike(rules, Bound(Fitted(f, rules[i].0)), Bound(Fitted(f, rules[i].1)))
  {
    hide Remap, Proper, Rooted, Apart, Nested, Live, AtStart, Breaks;
    if f.Spanning? { RootSwaps(rules, i, f.pre, f.post); }
  }

  /** So the whole of a text may be remapped, from any start of a token on. */
  lemma {:induction false} AllMoves(rules: seq<Rule>, a: string, z: string)
    requires Proper(rules) && Rooted(rules) && Apart(rules) && Nested(rules) && AtStart(a)
    ensures Alike(rules, Binds(a + z), Binds(a + Remap(rules, z)))
    decreases |z|, 1
  {
    hide Remap, RemapToken, Proper, Rooted, Apart, Nested, AtStart, Binds, Alike, IsSeparator;
    if z == "" {
      RemapNothing(rules);
      AlikeSelf(rules, Binds(a + z));
    } else if IsSeparator(z[0]) {
      SeparatorMoves(rules, a, z);
    } else {
      var x, rest := Cut(z);
      var x' := RemapToken(rules, x);
      RemapHead(rules, x, rest);
      TokenMoves(rules, a, x, rest);
      assert a + z == a + x + rest && a + Remap(rules, z) == a + x' + Remap(rules, rest);
      if rest == "" {
        RemapNothing(rules);
      } else {
        SeparatorMoves(rules, a + x', rest);
        AlikeChain(rules, Binds(a + x + rest), Binds(a + x' + rest), Binds(a + x' + Remap(rules, rest)));
      }
    }
  }

  lemma {:induction false} AlikeChain(rules: seq<Rule>, a: Bindings, b: Bindings, c: Bindings)
    requires Alike(rules, a, b) && Alike(rules, b, c)
    ensures Alike(rules, a, c)
  {
    hide Remap;
  }

  lemma {:induction false} SeparatorMoves(rules: seq<Rule>, a: string, z: string)
    requires Proper(rules) && Rooted(rules) && Apart(rules) && Nested(rules) && z != "" && IsSeparator(z[0])
    ensures Alike(rules, Binds(a + z), Binds(a + Remap(rules, z)))
    decreases |z|, 0
  {
    hide Remap, Proper, Rooted, Apart, Nested, Binds, Alike, IsSeparator;
    var c, rest := z[0], z[1..];
    assert z == [c] + rest && a + z == a + [c] + rest;
    RemapSeparator(rules, c, rest);
    assert a + Remap(rules, z) == a + [c] + Remap(rules, rest);
    AllMoves(rules, a + [c], rest);
  }

  lemma {:induction false} TokenMoves(rules: seq<Rule>, a: string, x: string, rest: string)
    requires Proper(rules) && Rooted(rules) && Apart(rules) && Nested(rules) && AtStart(a)
    requires TokenOnly(x) && (rest == "" || IsSeparator(rest[0]))
    ensures Alike(rules, Binds(a + x + rest), Binds(a + RemapToken(rules, x) + rest))
  {
    hide Remap, Proper, Rooted, Apart, Nested, AtStart, Binds, Alike, IsSeparator, Choose, Under;
    var c := Choose(rules, x);
    if c.None? {
      AlikeSelf(rules, Binds(a + x + rest));
    } else {
      var (s, d) := c.value;
      ChosenUnder(rules, x);
      var i :| 0 <= i < |rules| && rules[i] == c.value;
      ProperIsSorted(rules);
      ChosenIsLive(rules, x, i);
      var b := x[|s|..] + rest;
      TokenSplits(x, s);
      assert Breaks(b);
      assert a + x + rest == a + s + b && a + RemapToken(rules, x) + rest == a + d + b;
      OneMove(rules, i, a, b);
    }
  }

  lemma {:induction false} TokenSplits(x: string, s: string)
    requires Under(x, s)
    ensures |s| <= |x| && x == s + x[|s|..] && (x[|s|..] != "" ==> x[|s|..][0] == '/')
  {
  }

  function RemapMap(rules: seq<Rule>, m: map<string, string>): map<string, string> {
    map k | k in m :: Remap(rules, m[k])
  }

  lemma {:induction false} AlikeMaps(rules: seq<Rule>, bs: Bindings, cs: Bindings)
    requires Alike(rules, bs, cs)
    ensures RemapMap(rules, ToMap(bs)) == RemapMap(rules, ToMap(cs))
  {
    hide Remap;
    if bs != [] {
      AlikeMaps(rules, bs[1..], cs[1..]);
      RemapOne(rules, bs[0].0, bs[0].1, ToMap(bs[1..]));
      RemapOne(rules, cs[0].0, cs[0].1, ToMap(cs[1..]));
    }
  }

  lemma {:induction false} RemapOne(rules: seq<Rule>, k: string, v: string, m: map<string, string>)
    ensures RemapMap(rules, map[k := v] + m) == map[k := Remap(rules, v)] + RemapMap(rules, m)
  {
    hide Remap;
  }

  lemma {:induction false} RemapWithoutRules(s: string)
    ensures Remap([], s) == s
    decreases |s|
  {
    if s != "" {
      if IsSeparator(s[0]) {
        RemapWithoutRules(s[1..]);
      } else {
        var n := TokenEnd(s, 0);
        RemapWithoutRules(s[n..]);
        assert s == s[..n] + s[n..];
      }
    }
  }

  lemma {:induction false} PassesAreRemaps(t: string, install: Rule, code: Rule)
    ensures var rules := RulesFor(install, code);
            && TwoPasses(t, install, code) == RemapMap(rules, Parse(Remap(rules, t)))
            && OnePass(t, install, code) == RemapMap(rules, Parse(t))
  {
    hide Remap, RulesFor, Parse;
    forall s ensures RemapPaths(s, install, code) == Remap(RulesFor(install, code), s) { RemapWithoutRules(s); }
  }

  /** Parsing commutes with remapping, up to remapping the values. */
  lemma {:induction false} ParsingCommutes(rules: seq<Rule>, t: string)
    requires Proper(rules) && Rooted(rules) && Apart(rules) && Nested(rules)
    ensures RemapMap(rules, Parse(Remap(rules, t))) == RemapMap(rules, Parse(t))
  {
    hide Remap, RemapMap, Proper, Rooted, Apart, Nested, Binds, ToMap, Alike;
    AllMoves(rules, "", t);
    assert "" + t == t && "" + Remap(rules, t) == Remap(rules, t);
    AlikeMaps(rules, Binds(t), Binds(Remap(rules, t)));
  }

  // ---------------------------------------------------------------------------------------------
  // Texts on which the two differ
  // ---------------------------------------------------------------------------------------------

  /** One assignment of a value in double quotes. */
  function Quoting(e: string): string { "A" + "=" + "\"" + e + "\"" + "\n" }

  /** The quotes around it close where they should. */
  ghost predicate Body(e: string) {
    (forall i :: 0 <= i < |e| ==> e[i] != '\n') && CloseQuote(e + "\"" + "\n", 0, '"') == |e|
  }

  lemma {:induction false} QuotingParses(e: string)
    requires Body(e)
    ensures Parse(Quoting(e)) == map["A" := Unescape(e)]
  {
    hide ScanHead, Unescape, ToMap, Scan;
    var t := Quoting(e);
    QuotingScans(e);
    BindsHead(t);
    assert t[HeadLength(t)..] == "";
    assert Binds("") == [] by { ScanNothing(); }
    assert Binds(t) == [("A", Unescape(e))] + [] == [("A", Unescape(e))];
    OneKeyMap("A", Unescape(e));
  }

  lemma {:induction false} QuotingScans(e: string)
    requires Body(e)
    ensures ScanHead(Quoting(e)) == Head(Some(("A", Unescape(e))), |Quoting(e)| - 1, false)
  {
    hide ParseLine, IndexOf, CloseQuote, SkipBlanks, Unescape;
    var t := Quoting(e);
    assert IsKey("A");
    QuotedLineParses("A", e);
    QuotedParts("A", e);
    IndexOfAt(t, '=', 0, 1);
    NoBlank(t, 2);
    CloseQuoteShift(t, 3, 0, '"');
    assert t[3..] == e + "\"" + "\n";
    assert Slice(t, 3, 3 + |e|) == e;
    IndexOfAt(t, '\n', 3 + |e|, |t| - 1);
  }

  lemma {:induction false} NoBlank(t: string, i: nat)
    requires i < |t| && t[i] == '"'
    ensures SkipBlanks(t, i) == i
  {
  }

  lemma {:induction false} QuotingRemaps(rules: seq<Rule>, e: string)
    requires Rooted(rules)
    ensures Remap(rules, Quoting(e)) == Quoting(Remap(rules, e))
  {
    hide Remap, Rooted;
    var b := e + "\"" + "\n";
    KeyStays(rules);
    RemapNothing(rules);
    RemapSplits(rules, "A", '=', "\"" + b);
    assert "A" + ['='] + ("\"" + b) == Quoting(e);
    assert "\"" + b == ['"'] + b && e + ['"'] + "\n" == b;
    RemapSeparator(rules, '"', b);
    RemapSplits(rules, e, '"', "\n");
    assert "\n" == ['\n'] + "";
    RemapSeparator(rules, '\n', "");
  }

  lemma {:induction false} KeyStays(rules: seq<Rule>)
    requires Rooted(rules)
    ensures Remap(rules, "A") == "A"
  {
    hide Remap;
    TokenText(rules, "A");
    NotUnderRoots(rules, "A");
  }

  lemma {:induction false} NotUnderRoots(rules: seq<Rule>, x: string)
    requires Rooted(rules) && x != "" && x[0] != '/'
    ensures Choose(rules, x).None?
  {
    if rules != [] {
      assert rules[0].0[0] == '/';
      NotUnderRoots(rules[1..], x);
    }
  }

  lemma {:induction false} RootIsBody(x: string)
    requires TokenOnly(x) && forall i :: 0 <= i < |x| ==> x[i] != '\\'
    ensures Body(x) && Unescape(x) == x
  {
    hide Unescape, CloseQuote;
    var u := x + "\"" + "\n";
    CloseOverRoot(u, 0, |x|, '"');
    CloseHere(u, |x|);
    UnescapePlain(x);
  }

  lemma {:induction false} CloseHere(u: string, i: nat)
    requires i < |u| && u[i] == '"'
    ensures CloseQuote(u, i, '"') == i
  {
  }

  /** A path and an escaped quote. */
  lemma {:induction false} QuotedPathIsBody(x: string)
    requires TokenOnly(x) && forall i :: 0 <= i < |x| ==> x[i] != '\\'
    ensures var e := x + "\\" + "\""; Body(e) && Unescape(e) == x + "\""
  {
    hide CloseQuote;
    var e := x + "\\" + "\"";
    var u := e + "\"" + "\n";
    CloseOverRoot(u, 0, |x|, '"');
    assert u[|x|] == '\\' && u[|x| + 2] == '"';
    CloseEscaped(u, |x|);
    CloseHere(u, |x| + 2);
    hide Unescape;
    assert e == x + ("\\" + "\"");
    UnescapeSplits(x, "\\" + "\"");
    UnescapePlain(x);
    UnescapeQuote();
  }

  lemma {:induction false} UnescapeQuote()
    ensures Unescape("\\" + "\"") == "\""
  {
    var u := "\\" + "\"";
    assert u[2..] == "";
  }

  lemma {:induction false} CloseEscaped(u: string, i: nat)
    requires i < |u| && u[i] == '\\'
    ensures CloseQuote(u, i, '"') == CloseQuote(u, i + 2, '"')
  {
  }

  /** What both ways make of such a text. */
  lemma {:induction false} QuotingBothWays(rules: seq<Rule>, e: string)
    requires Rooted(rules) && Body(e) && Body(Remap(rules, e))
    ensures RemapMap(rules, Parse(Remap(rules, Quoting(e)))) == map["A" := Remap(rules, Unescape(Remap(rules, e)))]
    ensures RemapMap(rules, Parse(Quoting(e))) == map["A" := Remap(rules, Unescape(e))]
  {
    hide Remap, Rooted, Body, Parse, Unescape;
    QuotingRemaps(rules, e);
    QuotingParses(e);
    QuotingParses(Remap(rules, e));
  }

  lemma {:induction false} DifferAtA(x: string, y: string)
    requires x != y
    ensures map["A" := x] != map["A" := y]
  {
    assert map["A" := x]["A"] != map["A" := y]["A"];
  }

  /** If the rules are not apart, a path moves twice. */
  lemma {:induction false} NotApartDiffers(rules: seq<Rule>) returns (t: string)
    requires Proper(rules) && Rooted(rules) && !Apart(rules)
    ensures RemapMap(rules, Parse(Remap(rules, t))) != RemapMap(rules, Parse(t))
  {
    hide Remap, RemapMap, Choose, Proper, Parse, Unescape, Body;
    var i, j :| 0 <= i < |rules| && 0 <= j < |rules| && Choose(rules, rules[i].0) == Some(rules[i])
      && (Under(rules[i].1, rules[j].0)
          || (Under(rules[j].0, rules[i].1)
              && Choose(rules, rules[i].0 + rules[j].0[|rules[i].1|..]) == Some(rules[i])));
    var x := MovesTwice(rules, i, j);
    var x' := rules[i].1 + x[|rules[i].0|..];
    assert RemapToken(rules, x) == x';
    TokenText(rules, x);
    RootIsBody(x);
    RootIsBody(x');
    QuotingBothWays(rules, x);
    t := Quoting(x);
    DifferAtA(Remap(rules, x'), x');
  }

  /**
   * If a nested root does not stay nested, a path in escaped quotes lands under the wrong root: with the
   * backslash at its end, the outer rule takes it.
   */
  lemma {:induction false} NotNestedDiffers(rules: seq<Rule>) returns (t: string)
    requires |rules| <= 2 && Proper(rules) && Rooted(rules) && Apart(rules) && !Nested(rules)
    ensures RemapMap(rules, Parse(Remap(rules, t))) != RemapMap(rules, Parse(t))
  {
    hide Remap, RemapMap, Choose, Proper, Parse, Unescape, Body;
    var i, j :| 0 <= i < |rules| && 0 <= j < |rules| && Live(rules, i) && Live(rules, j)
      && rules[i].0 != rules[j].0 && Under(rules[j].0, rules[i].0)
      && rules[j].1 != rules[i].1 + rules[j].0[|rules[i].0|..];
    var (s, d) := rules[i];
    var (inner, d') := rules[j];
    var moved := d + inner[|s|..];
    var e := inner + "\\" + "\"";
    QuotedPathIsBody(inner);
    QuotedPathIsBody(moved);
    OuterTakes(rules, i, j);
    QuotedRemaps(rules, inner + "\\");
    assert Remap(rules, e) == moved + "\\" + "\"";
    QuotingBothWays(rules, e);
    QuotedRemaps(rules, moved);
    QuotedRemaps(rules, inner);
    InnerGoesElsewhere(rules, i, j);
    t := Quoting(e);
    assert RemapToken(rules, inner) == d' by { assert inner[|inner|..] == ""; }
    assert (RemapToken(rules, moved) + "\"")[..|RemapToken(rules, moved)|] == RemapToken(rules, moved);
    assert (d' + "\"")[..|d'|] == d';
    DifferAtA(RemapToken(rules, moved) + "\"", d' + "\"");
  }

  lemma {:induction false} QuotedRemaps(rules: seq<Rule>, x: string)
    requires TokenOnly(x) && x != ""
    ensures Remap(rules, x + "\"") == RemapToken(rules, x) + "\""
  {
    hide Remap, RemapToken;
    RemapNothing(rules);
    assert "\"" == ['"'] + "";
    RemapSeparator(rules, '"', "");
    RemapHead(rules, x, "\"");
  }

  /** The inner root with a backslash behind it is not the inner root, but lies under the outer one. */
  lemma {:induction false} OuterTakes(rules: seq<Rule>, i: nat, j: nat)
    requires |rules| <= 2 && i < |rules| && j < |rules| && Rooted(rules) && rules[i].0 != rules[j].0
    requires Under(rules[j].0, rules[i].0)
    ensures TokenOnly(rules[j].0 + "\\") && TokenOnly(rules[i].1 + rules[j].0[|rules[i].0|..])
    ensures forall k :: 0 <= k < |rules[i].1 + rules[j].0[|rules[i].0|..]| ==>
              (rules[i].1 + rules[j].0[|rules[i].0|..])[k] != '\\'
    ensures RemapToken(rules, rules[j].0 + "\\") == rules[i].1 + rules[j].0[|rules[i].0|..] + "\\"
  {
    var s, inner := rules[i].0, rules[j].0;
    var x := inner + "\\";
    assert !IsSeparator('\\');
    hide IsSeparator, Root;
    assert Under(x, s) by { assert x[..|s| + 1] == inner[..|s| + 1]; }
    assert !Under(x, inner) by { assert x[|inner|] == '\\'; }
    assert Choose(rules, x) == Some(rules[i]) by { OnlyChoice(rules, i, j, x); }
    assert x[|s|..] == inner[|s|..] + "\\";
  }

  lemma {:induction false} OnlyChoice(rules: seq<Rule>, i: nat, j: nat, x: string)
    requires |rules| <= 2 && i < |rules| && j < |rules| && i != j && Under(x, rules[i].0) && !Under(x, rules[j].0)
    ensures Choose(rules, x) == Some(rules[i])
  {
    hide Under;
    assert rules == [rules[0], rules[1]];
    assert rules[1..] == [rules[1]] && rules[1..][1..] == [];
  }

  /** With two rules apart, what the outer rule makes of the inner root is not moved to where the inner one goes. */
  lemma {:induction false} InnerGoesElsewhere(rules: seq<Rule>, i: nat, j: nat)
    requires |rules| <= 2 && i < |rules| && j < |rules| && Proper(rules) && Rooted(rules) && Apart(rules)
    requires Live(rules, i) && Live(rules, j)
    requires rules[i].0 != rules[j].0 && Under(rules[j].0, rules[i].0)
    requires rules[j].1 != rules[i].1 + rules[j].0[|rules[i].0|..]
    ensures RemapToken(rules, rules[i].1 + rules[j].0[|rules[i].0|..]) != rules[j].1
  {
    hide Choose, Under, Apart, Proper;
    var (s, d) := rules[i];
    var (inner, d') := rules[j];
    UnderLength(inner, s);
    var moved := d + inner[|s|..];
    var c := Choose(rules, moved);
    if c.Some? {
      ChosenUnder(rules, moved);
      TokenSplits(moved, c.value.0);
      TokenSplits(inner, s);
      assert s != d by { assert Proper(rules); ProperMoves(rules, i); }
      if c == Some(rules[i]) {
        OuterReach(rules, i, j);
        assert d + moved[|s|..] == d;
        if d' == d { InnerComesBack(rules, i, j); }
      } else if c == Some(rules[j]) {
        HeadsDiffer(s, d, inner[|s|..]);
        assert moved != inner;
      }
    }
  }

  lemma {:induction false} HeadsDiffer(s: string, d: string, tail: string)
    requires s != d
    ensures s + tail != d + tail
  {
    if |s| == |d| { assert (s + tail)[..|s|] == s && (d + tail)[..|d|] == d; }
  }

  lemma {:induction false} ProperMoves(rules: seq<Rule>, i: nat)
    requires Proper(rules) && i < |rules|
    ensures rules[i].0 != rules[i].1
  {
  }

  /** If the outer rule picks it up again, it is the outer root itself. */
  lemma {:induction false} OuterReach(rules: seq<Rule>, i: nat, j: nat)
    requires |rules| <= 2 && i < |rules| && j < |rules| && Proper(rules) && Rooted(rules)
             && Apart(rules) && Live(rules, i)
    requires rules[i].0 != rules[j].0 && Under(rules[j].0, rules[i].0)
    requires Under(rules[i].1 + rules[j].0[|rules[i].0|..], rules[i].0)
    ensures rules[i].1 + rules[j].0[|rules[i].0|..] == rules[i].0
  {
    hide Choose, AllMove, TokenOnly, Under, Last, Front, NoneUnder;
    var (s, d) := rules[i];
    var (inner, _) := rules[j];
    UnderLength(inner, s);
    var tail := inner[|s|..];
    var moved := d + tail;
    TokenSplits(inner, s);
    RestIsUnder(d, tail);
    LastOfToken(d);
    assert !Meets(rules, i, i);
    assert !Under(d, s);
    if |s| <= |d| { RootsNest(moved, s, d); }
    RootsNest(moved, d, s);
    var q := s[|d|..];
    TokenSplits(s, d);
    RestIsUnder(s, q);
    assert Choose(rules, s + q) != Some(rules[i]);
    if !Under(s + q, inner) { OnlyChoice(rules, i, j, s + q); }
    TokenSplits(s + q, inner);
    TokenSplits(moved, s);
    assert inner == s + tail && |tail| <= |q| && |q| <= |tail|;
    assert (s + q)[|s|..] == q && (s + tail)[|s|..] == tail;
    assert s + q == inner;
  }

  /** And if both go to the same place, the inner rule's destination lies over the outer root. */
  lemma {:induction false} InnerComesBack(rules: seq<Rule>, i: nat, j: nat)
    requires |rules| <= 2 && i < |rules| && j < |rules| && Proper(rules) && Rooted(rules) && Live(rules, j)
    requires rules[i].0 != rules[j].0 && Under(rules[j].0, rules[i].0)
    requires rules[j].1 == rules[i].1 && rules[i].1 + rules[j].0[|rules[i].0|..] == rules[i].0
    ensures !Apart(rules)
  {
    hide Choose, AllMove, TokenOnly, Under, Last, Front, NoneUnder;
    var (s, d) := rules[i];
    var (inner, d') := rules[j];
    UnderLength(inner, s);
    var tail := inner[|s|..];
    TokenSplits(inner, s);
    RestIsUnder(d, tail);
    assert s[|d'|..] == tail;
    var x := inner + tail;
    RestIsUnder(inner, tail);
    ChooseLongest(rules, x, j);
    ChosenUnder(rules, x);
    LastOfToken(d');
    assert Meets(rules, j, i);
  }

  // ---------------------------------------------------------------------------------------------
  // The law
  // ---------------------------------------------------------------------------------------------

  /**
   * On every dotenv text, remapping, parsing and remapping again is parsing and remapping once, exactly when
   * no destination meets a source and a nested root stays nested.
   */
  lemma {:induction false} TwoPassesAreOne(install: Rule, code: Rule)
    requires Rooted(RulesFor(install, code))
    ensures (forall t :: TwoPasses(t, install, code) == OnePass(t, install, code))
            <==> Apart(RulesFor(install, code)) && Nested(RulesFor(install, code))
  {
    hide Remap, RemapMap, Parse, Apart, Nested, RulesFor, TwoPasses, OnePass, Proper;
    var rules := RulesFor(install, code);
    RulesAreRooted(install, code);
    if Apart(rules) && Nested(rules) {
      forall t ensures TwoPasses(t, install, code) == OnePass(t, install, code) {
        PassesAreRemaps(t, install, code);
        ParsingCommutes(rules, t);
      }
    } else {
      var t := Differing(rules);
      PassesAreRemaps(t, install, code);
      assert TwoPasses(t, install, code) != OnePass(t, install, code);
    }
  }

  lemma {:induction false} Differing(rules: seq<Rule>) returns (t: string)
    requires |rules| <= 2 && Proper(rules) && Rooted(rules) && !(Apart(rules) && Nested(rules))
    ensures RemapMap(rules, Parse(Remap(rules, t))) != RemapMap(rules, Parse(t))
  {
    hide Remap, RemapMap, Parse, Apart, Nested, Rooted, Proper;
    if Apart(rules) {
      t := NotNestedDiffers(rules);
    } else {
      t := NotApartDiffers(rules);
    }
  }

  lemma {:induction false} RulesAreRooted(install: Rule, code: Rule)
    requires Rooted(RulesFor(install, code))
    ensures Proper(RulesFor(install, code)) && |RulesFor(install, code)| <= 2
  {
    hide IsSeparator;
    MovingPair(install, code);
    MovingPair(code, install);
  }

  // ---------------------------------------------------------------------------------------------
  // Concrete texts
  // ---------------------------------------------------------------------------------------------

  /** A path behind an escaped newline is moved by the second pass alone. */
  lemma {:induction false} EscapedNewlineHidesPath(rules: seq<Rule>, x: string)
    requires Rooted(rules) && Root(x)
    ensures var t := Quoting("x" + "\\" + "n" + x);
            && Parse(Remap(rules, t)) == Parse(t) == map["A" := "x" + "\n" + x]
            && RemapMap(rules, Parse(Remap(rules, t))) == map["A" := "x" + "\n" + RemapToken(rules, x)]
  {
    var e := "x" + "\\" + "n" + x;
    assert IsSeparator('\n');
    hide Remap, RemapMap, Parse, Unescape, Body, Choose, Root, IsSeparator;
    NewlineBody(x);
    NotUnderRoots(rules, e);
    TokenText(rules, e);
    QuotingRemaps(rules, e);
    QuotingParses(e);
    QuotingBothWays(rules, e);
    RemapSplits(rules, "x", '\n', x);
    NotUnderRoots(rules, "x");
    TokenText(rules, "x");
    RootStart(x);
    TokenText(rules, x);
  }

  lemma {:induction false} NewlineBody(x: string)
    requires Root(x)
    ensures var e := "x" + "\\" + "n" + x; Body(e) && TokenOnly(e) && TokenOnly(x) && Unescape(e) == "x" + "\n" + x
  {
    hide CloseQuote, Unescape;
    var e := "x" + "\\" + "n" + x;
    var u := e + "\"" + "\n";
    CloseOverRoot(u, 0, 1, '"');
    CloseEscaped(u, 1);
    CloseOverRoot(u, 3, |e|, '"');
    CloseHere(u, |e|);
    assert e == "x" + ("\\" + "n" + x);
    UnescapeSplits("x", "\\" + "n" + x);
    UnescapeSplits("\\" + "n", x);
    UnescapePlain("x");
    UnescapePlain(x);
    UnescapeNewline();
    Associate("x", "\n", x);
  }

  /** So the first pass alone, as the other dotenv file gets it, is never enough where a root moves. */
  lemma {:induction false} TextPassAlone(install: Rule, code: Rule)
    requires Rooted(RulesFor(install, code))
    ensures (forall t :: Parse(RemapPaths(t, install, code)) == OnePass(t, install, code))
            <==> RulesFor(install, code) == []
  {
    hide Remap, RemapMap, Parse, Choose, RulesFor, OnePass, Proper, Unescape;
    var rules := RulesFor(install, code);
    RulesAreRooted(install, code);
    if rules == [] {
      forall t ensures Parse(RemapPaths(t, install, code)) == OnePass(t, install, code) {
        PassesAreRemaps(t, install, code);
        NothingMoves(Parse(t));
      }
    } else {
      var x := rules[0].0;
      var t := Quoting("x" + "\\" + "n" + x);
      EscapedNewlineHidesPath(rules, x);
      PassesAreRemaps(t, install, code);
      FirstMoves(rules);
      assert RemapMap(rules, Parse(t)) == map["A" := "x" + "\n" + RemapToken(rules, x)];
      assert ("x" + "\n" + x)[2..] == x && ("x" + "\n" + RemapToken(rules, x))[2..] == RemapToken(rules, x);
      DifferAtA("x" + "\n" + x, "x" + "\n" + RemapToken(rules, x));
    }
  }

  lemma {:induction false} FirstMoves(rules: seq<Rule>)
    requires Proper(rules) && rules != []
    ensures RemapToken(rules, rules[0].0) != rules[0].0
  {
    UnderItself(rules[0].0);
    TokenUnchanged(rules, rules[0].0);
  }

  lemma {:induction false} NothingMoves(m: map<string, string>)
    ensures RemapMap([], m) == m
  {
    hide Remap;
    forall k | k in m ensures Remap([], m[k]) == m[k] { RemapWithoutRules(m[k]); }
  }

  lemma {:induction false} UnescapeNewline()
    ensures Unescape("\\" + "n") == "\n"
  {
    var u := "\\" + "n";
    assert u[2..] == "";
  }

  /** A path in escaped quotes, as in any JSON value, goes by the outer root. */
  lemma {:induction false} EscapedQuoteTakesOuterRoot()
    ensures var install, code := ("/o", "/n"), ("/o/c", "/m");
            var t := Quoting("/o/c" + "\\" + "\"");
            && TwoPasses(t, install, code) == map["A" := "/n/c" + "\""]
            && OnePass(t, install, code) == map["A" := "/m" + "\""]
  {
    hide Remap, RemapMap, Parse, Unescape, Body, Moving, IsSeparator;
    var install, code := ("/o", "/n"), ("/o/c", "/m");
    var rules, x, e := [code, install], "/o/c", "/o/c" + "\\" + "\"";
    MovingPair(code, install);
    assert RulesFor(install, code) == rules;
    JsonRoots();
    QuotedPathIsBody(x);
    QuotedPathIsBody("/n/c");
    assert rules[1..] == [install] && [install][1..] == [];
    var y := x + "\\";
    assert y[4] == '\\' && y[..3] == "/o/" && y[2..] == "/c" + "\\";
    assert Choose(rules, y) == Some(install);
    QuotedRemaps(rules, y);
    assert Remap(rules, e) == "/n/c" + "\\" + "\"";
    QuotingBothWays(rules, e);
    PassesAreRemaps(Quoting(e), install, code);
    assert Choose(rules, "/n/c").None? by { assert "/n/c"[1] == 'n'; }
    QuotedRemaps(rules, "/n/c");
    assert Choose(rules, x) == Some(code) && x[4..] == "" && "/m" + "" == "/m";
    assert RemapToken(rules, x) == "/m";
    assert RemapToken(rules, "/n/c") == "/n/c";
    QuotedRemaps(rules, x);
    assert Unescape(Remap(rules, e)) == "/n/c" + "\"";
  }

  lemma {:induction false} JsonRoots()
    ensures TokenOnly("/o/c") && TokenOnly("/n/c") && TokenOnly("/o/c" + "\\")
    ensures Rooted([("/o/c", "/m"), ("/o", "/n")])
  {
  }
}
