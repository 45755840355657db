/**
 * The laws of the dotenv engine: a printed dictionary parses back, and secrets are stripped record by
 * record; each with its exact condition, or for every text.
 */
module DotenvLaws {
  import opened Text
  import opened Dotenv
  import opened DotenvPrint
  import opened DotenvLines
  import opened DotenvRewrite
  import opened DotenvAppend

  // ---------------------------------------------------------------------------------------------
  // Printing a whole dictionary
  // ---------------------------------------------------------------------------------------------

  function SerializeEnv(bs: Bindings): string {
    if bs == [] then "" else PrintLine(bs[0].0, bs[0].1) + SerializeEnv(bs[1..])
  }

  function LinesOfAll(bs: Bindings): seq<string> {
    if bs == [] then [] else LinesOf(bs[0].0, bs[0].1) + LinesOfAll(bs[1..])
  }

  function ReadAll(bs: Bindings): (r: Bindings) {
    if bs == [] then [] else [(bs[0].0, ReadBack(bs[0].1))] + ReadAll(bs[1..])
  }

  lemma {:induction false} LinesOfIsOneLines(k: string, v: string)
    requires IsKey(k)
    ensures OneLines(LinesOf(k, v)) && LinesOf(k, v) != []
    ensures Assignments(Records(LinesOf(k, v))) == [(k, ReadBack(v))]
  {
    hide ScanHead, PrintLine, RoundTrips, IsKey;
    PrintedLineScans(k, ReadBack(v));
    LinesOfScan(k, v);
    assert OneLine(PrintLine(k, ReadBack(v)));
    assert OneLine("\n");
    assert Assignments([]) == [];
    assert Assignments([Raw("\n")]) == [];
  }

  lemma {:induction false} SerializedScans(bs: Bindings)
    requires KeysOk(bs)
    ensures Concat(LinesOfAll(bs)) == SerializeEnv(bs)
    ensures AllComplete(LinesOfAll(bs)) && OneLines(LinesOfAll(bs))
    ensures Assignments(Records(LinesOfAll(bs))) == ReadAll(bs)
    ensures bs == [] <==> LinesOfAll(bs) == []
  {
    hide LinesOf, Complete, OneLine, PrintLine, IsKey, Records, ReadBack;
    if bs == [] {
      assert Records([]) == [] by { assert LinesOfAll(bs) == []; RecordsOfNothing(); }
    } else {
      var (k, v) := bs[0];
      LinesOfScan(k, v);
      LinesOfIsOneLines(k, v);
      SerializedScans(bs[1..]);
      ConcatAppend(LinesOf(k, v), LinesOfAll(bs[1..]));
      RecordsAppend(LinesOf(k, v), LinesOfAll(bs[1..]));
      AssignmentsAppend(Records(LinesOf(k, v)), Records(LinesOfAll(bs[1..])));
    }
  }

  lemma {:induction false} RecordsOfNothing()
    ensures Records([]) == [] && Assignments([]) == []
  {
  }

  lemma {:induction false} ReadAllMap(bs: Bindings)
    ensures ToMap(ReadAll(bs)) == map k | k in ToMap(bs) :: ReadBack(ToMap(bs)[k])
  {
    hide ReadBack;
    if bs != [] { ReadAllMap(bs[1..]); }
  }

  /** A printed dictionary parses to what its values read back as, in order. */
  lemma {:induction false} ParseSerialized(bs: Bindings)
    requires KeysOk(bs)
    ensures Binds(SerializeEnv(bs)) == ReadAll(bs)
  {
    SerializedScans(bs);
    AllCompleteIsLines(LinesOfAll(bs));
    ScanLines(LinesOfAll(bs));
  }

  /** Printing then parsing gives the dictionary back exactly when every value round-trips. */
  lemma {:induction false} SerializeRoundTrip(bs: Bindings)
    requires KeysOk(bs) && IsDict(bs)
    ensures Parse(SerializeEnv(bs)) == ToMap(bs) <==> forall i :: 0 <= i < |bs| ==> RoundTrips(bs[i].1)
  {
    hide RoundTrips, SerializeEnv, IsKey;
    ParseSerialized(bs);
    ReadAllMap(bs);
    var m, r := ToMap(bs), ToMap(ReadAll(bs));
    if i :| 0 <= i < |bs| && !RoundTrips(bs[i].1) {
      ToMapOfDict(bs, i);
      assert r[bs[i].0] != m[bs[i].0];
    } else {
      forall k | k in m ensures r[k] == m[k] {
        ToMapKeys(bs, k);
        var i :| 0 <= i < |bs| && bs[i].0 == k;
        ToMapOfDict(bs, i);
      }
    }
  }

  /** The newline that the unquoted pattern lets through is lost. */
  lemma {:induction false} FinalNewlineIsLost()
    ensures Parse(SerializeEnv([("A", "a\n")])) != ToMap([("A", "a\n")])
  {
    hide SerializeEnv, Parse, ToMap;
    assert "a\n"[..1] == "a";
    assert SafeRun("a");
    SerializeRoundTrip([("A", "a\n")]);
    assert !RoundTrips([("A", "a\n")][0].1);
  }

  // ---------------------------------------------------------------------------------------------
  // Secret stripping
  // ---------------------------------------------------------------------------------------------

  method StripSecrets(text: string) returns (stripped: string)
    ensures stripped == Rewritten(Blank, text)
  {
    hide Scan, IsSecretKey;
    var records := ScanEnv(text);
    ScanKeys(text);
    var out := [];
    for i := 0 to |records|
      invariant Concat(out) == Concat(Pieces(Blank, records[..i]))
    {
      var r := records[i];
      PiecesSnoc(Blank, records, i);
      var line := if r.Assignment? && IsSecretKey(r.key) then r.key + "=\n" else r.raw;
      PieceText(Blank, r);
      assert r.Assignment? ==> r.key + "=\n" == PrintLine(r.key, "");
      ConcatSnoc(out, line);
      out := out + [line];
    }
    stripped := Concat(out);
    assert records[..|records|] == records;
  }

  /** Every scanned key is a key. */
  lemma {:induction false} ScanKeys(t: string)
    ensures forall i :: 0 <= i < |Scan(t)| && Scan(t)[i].Assignment? ==> IsKey(Scan(t)[i].key)
    decreases |t|
  {
    hide ScanHead, IsKey;
    if t != "" { ScanKeys(t[HeadLength(t)..]); }
  }

  lemma {:induction false} PieceText(w: Rewrite, r: Record)
    requires r.Assignment? ==> IsKey(r.key)
    ensures Concat(Piece(w, r)) == if !Rewrites(w, r) then r.raw
                                   else if Target(w, r.key).None? then ""
                                   else PrintLine(r.key, Target(w, r.key).value)
  {
    hide Touches, Target, LinesOf, PrintLine, IsKey;
    assert Concat([r.raw]) == r.raw;
    if Rewrites(w, r) && Target(w, r.key).Some? { LinesOfScan(r.key, Target(w, r.key).value); }
  }

  lemma {:induction false} PiecesSnoc(w: Rewrite, rs: seq<Record>, i: nat)
    requires i < |rs|
    ensures Concat(Pieces(w, rs[..i + 1])) == Concat(Pieces(w, rs[..i])) + Concat(Piece(w, rs[i]))
  {
    hide Piece;
    assert rs[..i + 1] == rs[..i] + [rs[i]];
    PiecesAppend(w, rs[..i], [rs[i]]);
    assert Pieces(w, [rs[i]]) == Piece(w, rs[i]);
    ConcatAppend(Pieces(w, rs[..i]), Piece(w, rs[i]));
  }

  function Blanked(r: Record): Record {
    if r.Assignment? && IsSecretKey(r.key) then Assignment(r.key + "=\n", r.key, "") else r
  }

  function BlankAll(rs: seq<Record>): (r: seq<Record>)
    ensures |r| == |rs|
    ensures forall i :: 0 <= i < |rs| ==> r[i] == Blanked(rs[i])
  {
    if rs == [] then [] else [Blanked(rs[0])] + BlankAll(rs[1..])
  }

  lemma {:induction false} BlankImage(r: Record)
    ensures Image(Blank, r) == [Blanked(r)]
    ensures Piece(Blank, Blanked(r)) == [Blanked(r).raw]
  {
    hide IsSecretKey;
    assert ReadBack("") == "";
    if r.Assignment? {
      assert PrintLine(r.key, "") == r.key + "=\n";
    }
  }

  lemma {:induction false} BlankImages(rs: seq<Record>)
    ensures Images(Blank, rs) == BlankAll(rs)
    ensures Pieces(Blank, BlankAll(rs)) == Raws(BlankAll(rs))
  {
    hide Blanked, Image, Piece;
    if rs != [] {
      BlankImage(rs[0]);
      BlankImages(rs[1..]);
      var all := BlankAll(rs);
      assert all[0] == Blanked(rs[0]) && all[1..] == BlankAll(rs[1..]);
    }
  }

  /**
   * For every text, multi-line and unclosed quotes included: scanning the stripped text gives the
   * text's records with exactly the secret ones blanked, and the raws of a scan are the text.
   */
  lemma {:induction false} StrippingCommutesWithScanning(t: string)
    ensures Concat(Raws(Scan(t))) == t
    ensures |Scan(Rewritten(Blank, t))| == |Scan(t)|
    ensures forall i :: 0 <= i < |Scan(t)| ==> Scan(Rewritten(Blank, t))[i] == Blanked(Scan(t)[i])
  {
    hide Scan, Blanked;
    ScanGivesLines(t);
    ScanRewritten(Blank, t);
    BlankImages(Scan(t));
  }

  /** So the keys and the values of non-secret keys stay, secret values are gone, and it is idempotent. */
  lemma {:induction false} StrippingKeepsTheRest(t: string)
    ensures Parse(Rewritten(Blank, t)).Keys == Parse(t).Keys
    ensures forall k :: k in Parse(t) ==>
              Parse(Rewritten(Blank, t))[k] == if IsSecretKey(k) then "" else Parse(t)[k]
    ensures Rewritten(Blank, Rewritten(Blank, t)) == Rewritten(Blank, t)
  {
    hide Scan, IsSecretKey;
    ParseRewritten(Blank, t);
    assert ReadBack("") == "";
    StrippingCommutesWithScanning(t);
    ScanRewritten(Blank, t);
    BlankImages(Scan(t));
    ScanGivesLines(Rewritten(Blank, t));
  }
}
