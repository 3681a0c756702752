/** What the parser does with any string, panics included, against W3C Trace Context, section 3.2. */
module TraceReading {
  import opened ByteStrings
  import opened Options
  import opened TraceParent
  import opened TraceGrammar

  // ---- One id ----

  /** A pair is cut: some even place is inside a character, and everything before the pair ahead of it is lax. */
  predicate Cut(s: Bytes, n: nat)
    requires 2 * n <= |s|
  {
    exists j :: 0 < j <= n && Inside(s, 2 * j) && Lax(s[..2 * j - 2])
  }

  lemma LaxOutside(s: Bytes, k: nat)
    requires k < |s| && (Digit(s[k]) || s[k] == PLUS)
    ensures !Inside(s, k)
  {
  }

  lemma LaxNext(s: Bytes, n: nat)
    requires n > 0 && 2 * n <= |s|
    ensures Lax(s[..2 * n]) <==> Lax(s[..2 * n - 2]) && Lax(s[2 * n - 2..2 * n])
    ensures Lax(s[2 * n - 2..2 * n]) ==> !Inside(s, 2 * n - 2)
  {
    var t, k := s[..2 * n], 2 * n - 2;
    LaxHalves(t, k);
    assert t[..k] == s[..k] && t[k..] == s[k..k + 2];
    if Lax(s[k..k + 2]) {
      assert s[k..k + 2][0] == s[k];
      LaxOutside(s, k);
    }
  }

  lemma CutNext(s: Bytes, n: nat)
    requires n > 0 && 2 * n <= |s|
    ensures Cut(s, n) <==> Cut(s, n - 1) || (Inside(s, 2 * n) && Lax(s[..2 * n - 2]))
  {
    if j :| 0 < j <= n && Inside(s, 2 * j) && Lax(s[..2 * j - 2]) {
      assert j == n || Cut(s, n - 1);
    }
  }

  /** Pairs are read exactly if all are lax and the next is not cut off, and reading panics exactly at a cut. */
  ghost predicate ReadWell(s: Bytes, n: nat)
    requires 2 * n <= |s|
  {
    && (ReadPairs(s, n).Read? <==> Lax(s[..2 * n]) && !Inside(s, 2 * n))
    && (ReadPairs(s, n).Panicked? <==> Cut(s, n))
    && (ReadPairs(s, n).Refused? ==> !Lax(s[..2 * n]))
  }

  lemma OneMoreRead(s: Bytes, n: nat)
    requires n > 0 && 2 * n <= |s| && ReadWell(s, n - 1)
    ensures ReadWell(s, n)
  {
    hide Lax, Cut, Inside, ParseByte;
    assert 2 * (n - 1) == 2 * n - 2;
    LaxNext(s, n);
    CutNext(s, n);
    PairLax(s[2 * n - 2..2 * n]);
  }

  lemma {:induction false} PairsIff(s: Bytes, n: nat)
    requires 2 * n <= |s|
    ensures ReadWell(s, n)
  {
    if n > 0 {
      PairsIff(s, n - 1);
      OneMoreRead(s, n);
    }
  }

  lemma {:induction false} PairsValue(s: Bytes, n: nat)
    requires 2 * n <= |s| && ReadPairs(s, n).Read?
    ensures ParseBytes(s[..2 * n]) == Some(ReadPairs(s, n).value)
  {
    if n > 0 {
      PairsValue(s, n - 1);
      var t := s[..2 * n];
      assert t[..|t| - 2] == s[..2 * n - 2] && t[|t| - 2..] == s[2 * n - 2..2 * n];
    }
  }

  lemma IdIff(s: Bytes, size: nat)
    requires |s| == 2 * size
    ensures ReadId(s, size).Read? <==> Lax(s) && NotAllZero(s)
    ensures ReadId(s, size).Panicked? <==> Cut(s, size)
    ensures ReadId(s, size).Read? ==> ParseBytes(s) == Some(ReadId(s, size).value)
  {
    PairsIff(s, size);
    assert s[..2 * size] == s;
    if ReadPairs(s, size).Read? {
      PairsValue(s, size);
      IdLax(s);
    }
  }

  // ---- The header, field by field ----

  predicate VersionOk(s: Bytes) { |s| == 2 && Lax(s) && !(EitherF(s[0]) && EitherF(s[1])) }

  predicate IdOk(s: Bytes, size: nat) { |s| == 2 * size && Lax(s) && NotAllZero(s) }

  predicate IdCut(s: Bytes, size: nat) { |s| == 2 * size && Cut(s, size) }

  /** The trace id is cut, or it is good and the parent id is cut; what follows does not matter. */
  predicate PartsCut(p: seq<Bytes>) {
    |p| == 4 && VersionOk(p[0]) && (IdCut(p[1], 16) || (IdOk(p[1], 16) && IdCut(p[2], 8)))
  }

  lemma VersionIff(s: Bytes)
    ensures ReadVersion(s).Read? <==> VersionOk(s)
  {
    if |s| == 2 { PairLax(s); }
  }

  lemma PartsIff(s: Bytes)
    ensures ReadHeader(s).Panicked? <==> PartsCut(Split(s))
  {
    var p := Split(s);
    if |p| == 4 {
      VersionIff(p[0]);
      if |p[1]| == 32 { IdIff(p[1], 16); }
      if |p[2]| == 16 { IdIff(p[2], 8); }
    }
  }

  /** What is read is what parses. */
  lemma ReadIff(s: Bytes)
    ensures ReadHeader(s).Read? <==> Parse(s).Some?
    ensures ReadHeader(s).Read? ==> ReadHeader(s).value == Parse(s).value
  {
    var p := Split(s);
    if FourFields(p) {
      VersionIff(p[0]);
      PairLax(p[0]);
      IdIff(p[1], 16);
      IdIff(p[2], 8);
      IdLax(p[1]);
      IdLax(p[2]);
    }
  }

  // ---- The header, on characters ----

  /** Without a second dash. */
  ghost predicate OneDash(s: Bytes) {
    exists c :: 0 <= c < |s| && s[c] == DASH && DASH !in s[..c] && DASH !in s[c + 1..]
  }

  /** A trace id cut inside a character, after a good version and before two fields of any kind. */
  ghost predicate TraceCut(s: Bytes) {
    && |s| >= 36 && s[2] == s[35] == DASH && VersionOk(s[..2])
    && DASH !in s[3..35] && IdCut(s[3..35], 16) && OneDash(s[36..])
  }

  /** A parent id cut inside a character, after a good version and trace id and before flags of any kind. */
  ghost predicate ParentCut(s: Bytes) {
    && |s| >= 53 && s[2] == s[35] == s[52] == DASH && VersionOk(s[..2]) && IdOk(s[3..35], 16)
    && DASH !in s[36..52] && IdCut(s[36..52], 8) && DASH !in s[53..]
  }

  lemma {:induction false} PartsUndashed(s: Bytes)
    ensures forall i :: 0 <= i < |Split(s)| ==> DASH !in Split(s)[i]
  {
    if s != [] { PartsUndashed(s[1..]); }
  }

  /** Fields put together, the second of 32 characters. */
  lemma Placed(v: Bytes, t: Bytes, rest: Bytes, s: Bytes)
    requires |v| == 2 && |t| == 32 && s == v + [DASH] + (t + [DASH] + rest)
    ensures |s| >= 36 && s[2] == s[35] == DASH && s[..2] == v && s[3..35] == t && s[36..] == rest
  {
  }

  lemma RestOneDash(p: Bytes, f: Bytes)
    requires DASH !in p && DASH !in f
    ensures OneDash(p + [DASH] + f)
  {
    var s := p + [DASH] + f;
    assert s[..|p|] == p && s[|p| + 1..] == f && s[|p|] == DASH;
  }

  lemma RestPlaced(p: Bytes, f: Bytes, s: Bytes)
    requires |p| == 16 && |s| >= 36 && s[36..] == p + [DASH] + f
    ensures |s| >= 53 && s[36..52] == p && s[52] == DASH && s[53..] == f
  {
    var r := s[36..];
    assert r[16] == s[52] && r[..16] == s[36..52] && r[17..] == s[53..];
    assert r[..16] == p && r[17..] == f;
  }

  lemma PartsPlaced(s: Bytes)
    requires PartsCut(Split(s))
    ensures TraceCut(s) || ParentCut(s)
  {
    hide Split, Cut;
    var p := Split(s);
    FieldsJoined(s);
    PartsUndashed(s);
    Placed(p[0], p[1], p[2] + [DASH] + p[3], s);
    if IdCut(p[1], 16) {
      RestOneDash(p[2], p[3]);
    } else {
      RestPlaced(p[2], p[3], s);
    }
  }

  lemma Assembled(s: Bytes)
    requires |s| >= 36 && s[2] == s[35] == DASH
    ensures s == s[..2] + [DASH] + (s[3..35] + [DASH] + s[36..])
  {
  }

  lemma FourParts(v: Bytes, t: Bytes, p: Bytes, f: Bytes, s: Bytes)
    requires s == v + [DASH] + (t + [DASH] + (p + [DASH] + f))
    requires VersionOk(v) && DASH !in t && DASH !in p && DASH !in f
    requires IdCut(t, 16) || (IdOk(t, 16) && IdCut(p, 8))
    ensures PartsCut(Split(s))
  {
    hide Split, Cut, NotAllZero;
    LaxHasNoDash(v);
    SplitFour(v, t, p, f);
  }

  lemma TraceParts(s: Bytes)
    requires TraceCut(s)
    ensures PartsCut(Split(s))
  {
    hide Split, IdCut, VersionOk;
    var r := s[36..];
    var c :| 0 <= c < |r| && r[c] == DASH && DASH !in r[..c] && DASH !in r[c + 1..];
    Assembled(s);
    DashApart(r, c);
    FourParts(s[..2], s[3..35], r[..c], r[c + 1..], s);
  }

  lemma DashApart(r: Bytes, c: nat)
    requires c < |r| && r[c] == DASH
    ensures r == r[..c] + [DASH] + r[c + 1..]
  {
  }

  lemma ParentParts(s: Bytes)
    requires ParentCut(s)
    ensures PartsCut(Split(s))
  {
    hide Split, IdCut, VersionOk, NotAllZero;
    Assembled(s);
    assert s[36..] == s[36..52] + [DASH] + s[53..];
    LaxHasNoDash(s[3..35]);
    FourParts(s[..2], s[3..35], s[36..52], s[53..], s);
  }

  /** The parser panics on exactly these strings. */
  lemma PanicsIff(s: Bytes)
    ensures ReadHeader(s).Panicked? <==> TraceCut(s) || ParentCut(s)
  {
    PartsIff(s);
    if PartsCut(Split(s)) { PartsPlaced(s); }
    if TraceCut(s) { TraceParts(s); }
    if ParentCut(s) { ParentParts(s); }
  }

  // ---- Against the standard ----

  /** Read if valid and refused if not. */
  predicate Agrees(s: Bytes) { if Standard(s) then ReadHeader(s).Read? else ReadHeader(s).Refused? }

  /** The parser agrees with the standard on a string exactly unless it is an accepted one with an upper-case digit
      or a plus sign, or one with an id cut inside a character. */
  lemma AgreesIff(s: Bytes)
    ensures Agrees(s) <==> !(Accepted(s) && Foreign(s)) && !TraceCut(s) && !ParentCut(s)
  {
    ReadIff(s);
    ParsesIff(s);
    StandardIff(s);
    PanicsIff(s);
  }

  // ---- UTF-8 ----

  /** The length of a character by its first byte, 0 for none (RFC 3629, section 4). */
  function Width(b: byte): nat {
    if b < 128 then 1
    else if 194 <= b <= 223 then 2
    else if 224 <= b <= 239 then 3
    else if 240 <= b <= 244 then 4
    else 0
  }

  predicate SecondOk(b: byte, c: byte) {
    && Continues(c)
    && (b == 224 ==> c >= 160) && (b == 237 ==> c < 160) && (b == 240 ==> c >= 144) && (b == 244 ==> c < 144)
  }

  /** One character at the beginning. */
  predicate Leads(s: Bytes) {
    && s != [] && 0 < Width(s[0]) <= |s|
    && (Width(s[0]) > 1 ==> SecondOk(s[0], s[1]))
    && forall i :: 1 <= i < Width(s[0]) ==> Continues(s[i])
  }

  predicate Utf8(s: Bytes) { s == [] || (Leads(s) && Utf8(s[Width(s[0])..])) }

  /** In text a byte that continues a character follows one that is no hexadecimal digit or plus sign, so the pair that
      is cut is the first that does not parse. */
  lemma {:induction false} CutPairIsBad(s: Bytes, k: nat)
    requires Utf8(s) && k < |s| && Continues(s[k])
    ensures k > 0 && s[k - 1] >= 128 && !Digit(s[k - 1]) && s[k - 1] != PLUS
  {
    var w := Width(s[0]);
    if k >= w {
      CutPairIsBad(s[w..], k - w);
    } else if k == 1 {
      assert s[0] >= 128;
    }
  }

  lemma {:induction false} AsciiText(s: Bytes, t: Bytes)
    requires Utf8(t) && forall i :: 0 <= i < |s| ==> s[i] < 128
    ensures Utf8(s + t)
  {
    if s == [] {
      assert s + t == t;
    } else {
      AsciiText(s[1..], t);
      assert (s + t)[1..] == s[1..] + t;
    }
  }

  /** The letter e with an acute accent. */
  const E_ACUTE: Bytes := [195, 169]

  const A: byte := 97

  const ZEROS: Bytes := seq(29, _ => ZERO)

  /** Zeros for the parent id and the flags. */
  const LAST_FIELDS: Bytes := seq(16, _ => ZERO) + [DASH] + [ZERO, ZERO]

  const CUT_ID := [A] + E_ACUTE + ZEROS

  lemma CutIdIsCut()
    ensures IdCut(CUT_ID, 16) && DASH !in CUT_ID
  {
    assert CUT_ID[..0] == [] && CUT_ID[2] == 169 && Inside(CUT_ID, 2 * 1) && Lax(CUT_ID[..2 * 1 - 2]);
  }

  /** A header of the right layout and in UTF-8 that is neither read nor refused: the second character of its trace id
      begins in the first pair and ends in the second. */
  lemma TextPanics() returns (s: Bytes)
    ensures Laid(s) && Utf8(s) && ReadHeader(s).Panicked?
  {
    var v := [ZERO, ZERO];
    s := v + [DASH] + (CUT_ID + [DASH] + LAST_FIELDS);
    CutIdIsCut();
    assert VersionOk(v);
    SplitFour(v, CUT_ID, seq(16, _ => ZERO), [ZERO, ZERO]);
    PartsIff(s);
    HeaderText(s);
  }

  lemma AccentText(tail: Bytes)
    requires Utf8(tail)
    ensures Utf8(E_ACUTE + tail)
  {
    var e := E_ACUTE + tail;
    assert e[2..] == tail && Leads(e);
  }

  lemma HeaderText(s: Bytes)
    requires s == [ZERO, ZERO] + [DASH] + (CUT_ID + [DASH] + LAST_FIELDS)
    ensures Utf8(s)
  {
    hide Split, Utf8;
    var none: Bytes := [];
    var tail := ZEROS + [DASH] + LAST_FIELDS;
    AsciiText(tail, none);
    assert tail + none == tail;
    AccentText(tail);
    AsciiText([ZERO, ZERO, DASH, A], E_ACUTE + tail);
    assert s == [ZERO, ZERO, DASH, A] + (E_ACUTE + tail);
  }
}
