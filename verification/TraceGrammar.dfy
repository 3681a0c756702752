/** Which headers parse, written on characters, and where that differs from W3C Trace Context, section 3.2. */
module TraceGrammar {
  import opened ByteStrings
  import opened Options
  import opened TraceParent

  const ZERO: byte := 48

  predicate Upper(b: byte) { 65 <= b <= 70 }

  predicate Digit(b: byte) { 48 <= b <= 57 || 97 <= b <= 102 || Upper(b) }

  predicate EitherF(b: byte) { b == 102 || b == 70 }

  /** Pairs of digits of either case; the first of a pair may be a plus sign. */
  predicate Lax(s: Bytes) { forall i :: 0 <= i < |s| ==> Digit(s[i]) || (i % 2 == 0 && s[i] == PLUS) }

  /** Some character counts for more than zero. */
  predicate NotAllZero(s: Bytes) { exists i :: 0 <= i < |s| && s[i] != ZERO && s[i] != PLUS }

  /** Four fields of 2, 32, 16 and 2 characters, with dashes between. */
  predicate Laid(s: Bytes) { |s| == 55 && s[2] == s[35] == s[52] == DASH }

  /** What the parser accepts. */
  predicate Accepted(s: Bytes) {
    && Laid(s) && Lax(s[..2]) && Lax(s[3..35]) && Lax(s[36..52]) && Lax(s[53..])
    && !(EitherF(s[0]) && EitherF(s[1])) && NotAllZero(s[3..35]) && NotAllZero(s[36..52])
  }

  /** What the standard calls valid: lower-case digits only, version other than ff, no id all zero. */
  predicate Standard(s: Bytes) {
    && Laid(s) && LowerHex(s[..2]) && LowerHex(s[3..35]) && LowerHex(s[36..52]) && LowerHex(s[53..])
    && !(s[0] == 102 && s[1] == 102)
    && (exists i :: 3 <= i < 35 && s[i] != ZERO) && (exists i :: 36 <= i < 52 && s[i] != ZERO)
  }

  // ---- Pairs and ids ----

  lemma PairLax(s: Bytes)
    requires |s| == 2
    ensures ParseByte(s).Some? <==> Lax(s)
    ensures Lax(s) ==> (ParseByte(s).value == 0 <==> !NotAllZero(s))
    ensures Lax(s) ==> (ParseByte(s).value == 255 <==> EitherF(s[0]) && EitherF(s[1]))
  {
    if Lax(s) { assert Digit(s[1]) && (Digit(s[0]) || s[0] == PLUS); }
    assert NotAllZero(s) <==> (s[0] != ZERO && s[0] != PLUS) || (s[1] != ZERO && s[1] != PLUS);
  }

  lemma LaxHalves(s: Bytes, n: nat)
    requires n + 2 == |s| && n % 2 == 0
    ensures Lax(s) <==> Lax(s[..n]) && Lax(s[n..])
    ensures NotAllZero(s) <==> NotAllZero(s[..n]) || NotAllZero(s[n..])
  {
    var a, b := s[..n], s[n..];
    assert forall i :: 0 <= i < n ==> a[i] == s[i];
    assert b[0] == s[n] && b[1] == s[n + 1];
    if NotAllZero(a) {
      var i :| 0 <= i < n && a[i] != ZERO && a[i] != PLUS;
      assert s[i] != ZERO && s[i] != PLUS;
    }
    if NotAllZero(s) {
      var i :| 0 <= i < |s| && s[i] != ZERO && s[i] != PLUS;
      assert if i < n then a[i] == s[i] else b[i - n] == s[i];
    }
  }

  lemma NonZeroAppend(id: Bytes, b: byte)
    ensures NonZero(id + [b]) <==> NonZero(id) || b != 0
  {
    assert (id + [b])[|id|] == b;
    if i :| 0 <= i < |id| && id[i] != 0 { assert (id + [b])[i] != 0; }
  }

  ghost predicate ParsesIfLax(s: Bytes) {
    && |s| % 2 == 0 && (ParseBytes(s).Some? <==> Lax(s))
    && (Lax(s) ==> (NonZero(ParseBytes(s).value) <==> NotAllZero(s)))
  }

  lemma OneMoreLax(s: Bytes, t: Bytes)
    requires ParsesIfLax(s) && |t| == 2
    ensures ParsesIfLax(s + t)
  {
    hide ParseBytes, ParseByte, Lax, NotAllZero, NonZero;
    assert (s + t)[..|s|] == s && (s + t)[|s|..] == t;
    LaxHalves(s + t, |s|);
    ParseMore(s, t);
    PairLax(t);
    if Lax(s + t) { NonZeroAppend(ParseBytes(s).value, ParseByte(t).value); }
  }

  lemma NothingIsLax()
    ensures ParsesIfLax([])
  {
  }

  lemma {:induction false} AllParseIfLax(s: Bytes)
    requires |s| % 2 == 0
    ensures ParsesIfLax(s)
  {
    hide ParsesIfLax;
    if s == [] {
      NothingIsLax();
    } else {
      AllParseIfLax(s[..|s| - 2]);
      OneMoreLax(s[..|s| - 2], s[|s| - 2..]);
      assert s == s[..|s| - 2] + s[|s| - 2..];
    }
  }

  lemma IdLax(s: Bytes)
    requires |s| % 2 == 0
    ensures ParseBytes(s).Some? <==> Lax(s)
    ensures Lax(s) ==> (NonZero(ParseBytes(s).value) <==> NotAllZero(s))
  {
    AllParseIfLax(s);
  }

  // ---- Fields ----

  lemma Pieces(s: Bytes)
    requires Laid(s)
    ensures s == s[..2] + [DASH] + (s[3..35] + [DASH] + (s[36..52] + [DASH] + s[53..]))
  {
  }

  lemma LaidSplits(s: Bytes)
    requires Laid(s) && DASH !in s[..2] && DASH !in s[3..35] && DASH !in s[36..52] && DASH !in s[53..]
    ensures Split(s) == [s[..2], s[3..35], s[36..52], s[53..]] && FourFields(Split(s))
  {
    Pieces(s);
    SplitFour(s[..2], s[3..35], s[36..52], s[53..]);
  }

  lemma SplitsLaid(s: Bytes)
    requires FourFields(Split(s))
    ensures Laid(s) && Split(s) == [s[..2], s[3..35], s[36..52], s[53..]]
  {
    var p := Split(s);
    FieldsJoined(s);
    Reassembled(p[0], p[1], p[2], p[3], s);
  }

  lemma Reassembled(v: Bytes, t: Bytes, p: Bytes, f: Bytes, s: Bytes)
    requires |v| == 2 && |t| == 32 && |p| == 16 && |f| == 2
    requires s == v + [DASH] + (t + [DASH] + (p + [DASH] + f))
    ensures Laid(s) && s[..2] == v && s[3..35] == t && s[36..52] == p && s[53..] == f
  {
  }

  lemma LaxHasNoDash(s: Bytes)
    ensures Lax(s) ==> DASH !in s
  {
    if Lax(s) {
      forall i | 0 <= i < |s| ensures s[i] != DASH { assert Digit(s[i]) || s[i] == PLUS; }
    }
  }

  lemma FieldsParse(s: Bytes)
    requires Laid(s) && Split(s) == [s[..2], s[3..35], s[36..52], s[53..]]
    ensures Parse(s).Some? <==> Accepted(s)
  {
    hide Split, ParseBytes, ParseByte;
    PairLax(s[..2]);
    IdLax(s[3..35]);
    IdLax(s[36..52]);
    PairLax(s[53..]);
  }

  /** The parser accepts exactly these strings. */
  lemma ParsesIff(s: Bytes)
    ensures Parse(s).Some? <==> Accepted(s)
  {
    if Parse(s).Some? {
      SplitsLaid(s);
      FieldsParse(s);
    }
    if Accepted(s) {
      LaxHasNoDash(s[..2]);
      LaxHasNoDash(s[3..35]);
      LaxHasNoDash(s[36..52]);
      LaxHasNoDash(s[53..]);
      LaidSplits(s);
      FieldsParse(s);
    }
  }

  // ---- Against the standard ----

  ghost predicate Foreign(s: Bytes) { exists i :: 0 <= i < |s| && (Upper(s[i]) || s[i] == PLUS) }

  lemma SliceLower(s: Bytes, from: nat, to: nat)
    requires from <= to <= |s|
    ensures LowerHex(s[from..to]) ==> Lax(s[from..to]) && forall i :: from <= i < to ==> !Upper(s[i]) && s[i] != PLUS
    ensures Lax(s[from..to]) && !Foreign(s) ==> LowerHex(s[from..to])
  {
    var t := s[from..to];
    assert forall i :: from <= i < to ==> t[i - from] == s[i];
  }

  lemma SliceZero(s: Bytes, from: nat, to: nat)
    requires from <= to <= |s| && LowerHex(s[from..to])
    ensures NotAllZero(s[from..to]) <==> exists i :: from <= i < to && s[i] != ZERO
  {
    var t := s[from..to];
    if i :| from <= i < to && s[i] != ZERO { assert t[i - from] == s[i]; }
    if i :| 0 <= i < |t| && t[i] != ZERO && t[i] != PLUS { assert s[from + i] == t[i]; }
  }

  /** The standard's headers are the accepted ones without upper-case digits and plus signs. */
  lemma StandardIff(s: Bytes)
    ensures Standard(s) <==> Accepted(s) && !Foreign(s)
  {
    if Laid(s) {
      assert s[..2] == s[0..2] && s[53..] == s[53..55];
      SliceLower(s, 0, 2);
      SliceLower(s, 3, 35);
      SliceLower(s, 36, 52);
      SliceLower(s, 53, 55);
      if Standard(s) { StandardZeros(s); }
      if Accepted(s) && !Foreign(s) { StandardZeros(s); }
    }
  }

  lemma StandardZeros(s: Bytes)
    requires Laid(s) && LowerHex(s[3..35]) && LowerHex(s[36..52])
    ensures NotAllZero(s[3..35]) <==> exists i :: 3 <= i < 35 && s[i] != ZERO
    ensures NotAllZero(s[36..52]) <==> exists i :: 36 <= i < 52 && s[i] != ZERO
  {
    SliceZero(s, 3, 35);
    SliceZero(s, 36, 52);
  }

  /** The strings that parse and are printed back unchanged are exactly the standard's. */
  lemma ReprintIff(s: Bytes)
    ensures Parse(s).Some? && Print(Parse(s).value) == s <==> Standard(s)
  {
    hide Split, ParseBytes, Print, Fields;
    ParsesIff(s);
    StandardIff(s);
    if Parse(s).Some? {
      SplitsLaid(s);
      PrintParseIff(s);
      assert s[..2] == s[0..2] && s[53..] == s[53..55];
      SliceLower(s, 0, 2);
      SliceLower(s, 3, 35);
      SliceLower(s, 36, 52);
      SliceLower(s, 53, 55);
      var p := Split(s);
      assert (forall i :: 0 <= i < 4 ==> LowerHex(p[i]))
        <==> LowerHex(p[0]) && LowerHex(p[1]) && LowerHex(p[2]) && LowerHex(p[3]);
    }
  }

  // ---- What the parser reads alike ----

  predicate SameDigit(a: byte, b: byte) { a == b || (Digit(a) && HexValue(a) == HexValue(b)) }

  /** The same digits up to case, and plus signs for zeros that begin a pair. */
  predicate Alike(s: Bytes, t: Bytes) {
    |s| == |t| && forall i :: 0 <= i < |s| ==>
      SameDigit(s[i], t[i]) || (i % 2 == 0 && (s[i] == ZERO || s[i] == PLUS) && (t[i] == ZERO || t[i] == PLUS))
  }

  lemma PairAlike(s: Bytes, t: Bytes)
    requires |s| == 2 && Alike(s, t)
    ensures ParseByte(s) == ParseByte(t)
  {
    assert SameDigit(s[1], t[1]);
    assert SameDigit(s[0], t[0]) || ((s[0] == ZERO || s[0] == PLUS) && (t[0] == ZERO || t[0] == PLUS));
  }

  lemma AlikeHalves(s: Bytes, t: Bytes, n: nat)
    requires n + 2 == |s| && n % 2 == 0 && Alike(s, t)
    ensures Alike(s[..n], t[..n]) && Alike(s[n..], t[n..])
  {
    forall i | 0 <= i < 2 ensures s[n..][i] == s[n + i] && t[n..][i] == t[n + i] && (n + i) % 2 == i % 2 {}
  }

  lemma {:induction false} IdAlike(s: Bytes, t: Bytes)
    requires |s| % 2 == 0 && |s| == |t| && Alike(s, t)
    ensures ParseBytes(s) == ParseBytes(t)
  {
    hide Alike, ParseByte;
    if s != [] {
      var n := |s| - 2;
      AlikeHalves(s, t, n);
      IdAlike(s[..n], t[..n]);
      PairAlike(s[n..], t[n..]);
    }
  }

  lemma DashesAlike(s: Bytes, t: Bytes)
    requires Alike(s, t)
    ensures DASH in s <==> DASH in t
  {
    assert forall i :: 0 <= i < |s| ==> (s[i] == DASH <==> t[i] == DASH);
  }

  ghost predicate HeadersAlike(s: Bytes, t: Bytes) {
    && Laid(s) && Laid(t)
    && Alike(s[..2], t[..2]) && Alike(s[3..35], t[3..35]) && Alike(s[36..52], t[36..52]) && Alike(s[53..], t[53..])
  }

  lemma UndashedParses(s: Bytes)
    requires Laid(s) && DASH !in s[..2] && DASH !in s[3..35] && DASH !in s[36..52] && DASH !in s[53..]
    ensures Parse(s) == ParseFields(s)
  {
    LaidSplits(s);
  }

  function ParseFields(s: Bytes): Option<TraceParent>
    requires Laid(s)
  {
    var tp := Fields([s[..2], s[3..35], s[36..52], s[53..]]);
    if tp.Some? && tp.value.version != 255 && NonZero(tp.value.traceId) && NonZero(tp.value.parentId) then tp else None
  }

  lemma FieldsAlike(s: Bytes, t: Bytes)
    requires HeadersAlike(s, t)
    ensures ParseFields(s) == ParseFields(t)
  {
    PairAlike(s[..2], t[..2]);
    IdAlike(s[3..35], t[3..35]);
    IdAlike(s[36..52], t[36..52]);
    PairAlike(s[53..], t[53..]);
  }

  /** Case is ignored, and a plus sign reads as a zero at the beginning of a pair. */
  lemma ReadsAlike(s: Bytes, t: Bytes)
    requires HeadersAlike(s, t)
    ensures Parse(s) == Parse(t)
  {
    DashesAlike(s[..2], t[..2]);
    DashesAlike(s[3..35], t[3..35]);
    DashesAlike(s[36..52], t[36..52]);
    DashesAlike(s[53..], t[53..]);
    if DASH in s[..2] || DASH in s[3..35] || DASH in s[36..52] || DASH in s[53..] {
      ParsesIff(s);
      ParsesIff(t);
      DashNotAccepted(s);
      DashNotAccepted(t);
    } else {
      UndashedParses(s);
      UndashedParses(t);
      FieldsAlike(s, t);
    }
  }

  lemma DashNotAccepted(s: Bytes)
    requires Laid(s) && (DASH in s[..2] || DASH in s[3..35] || DASH in s[36..52] || DASH in s[53..])
    ensures !Accepted(s)
  {
    LaxHasNoDash(s[..2]);
    LaxHasNoDash(s[3..35]);
    LaxHasNoDash(s[36..52]);
    LaxHasNoDash(s[53..]);
  }

  // ---- Witnesses ----

  const SAMPLE := TraceParent(0, seq(16, _ => 1), seq(8, _ => 1), 10)

  lemma Sample() returns (s: Bytes)
    ensures Standard(s) && Parse(s) == Some(SAMPLE) && s[0] == ZERO && s[54] == 97
  {
    s := Print(SAMPLE);
    assert SAMPLE.traceId[0] == 1 && SAMPLE.parentId[0] == 1 && Valid(SAMPLE);
    ParsePrint(SAMPLE);
    ReprintIff(s);
    SplitPrint(SAMPLE);
    SplitsLaid(s);
    assert s[..2] == PrintByte(0) && s[53..] == PrintByte(10);
    assert s[0] == s[..2][0] && s[54] == s[53..][1];
  }

  lemma OneChanged(s: Bytes, k: nat, b: byte)
    requires Laid(s) && k < 55 && s[k] != DASH && (k == 0 || k == 54)
    requires SameDigit(s[k], b) || (k == 0 && s[k] == ZERO && b == PLUS)
    ensures HeadersAlike(s, s[k := b])
  {
    var t := s[k := b];
    assert t[3..35] == s[3..35] && t[36..52] == s[36..52];
  }

  /** An upper-case digit is accepted, */
  lemma UpperAccepted() returns (s: Bytes)
    ensures Parse(s) == Some(SAMPLE) && !Standard(s) && Laid(s) && Upper(s[54]) && PLUS !in s
  {
    var t := Sample();
    s := t[54 := 65];
    OneChanged(t, 54, 65);
    ReadsAlike(t, s);
    StandardIff(t);
    StandardIff(s);
    assert Upper(s[54]);
  }

  /** and so is a plus sign. */
  lemma PlusAccepted() returns (s: Bytes)
    ensures Parse(s) == Some(SAMPLE) && !Standard(s) && s[0] == PLUS && forall i :: 0 <= i < |s| ==> !Upper(s[i])
  {
    var t := Sample();
    s := t[0 := PLUS];
    OneChanged(t, 0, PLUS);
    ReadsAlike(t, s);
    StandardIff(t);
    StandardIff(s);
  }
}
