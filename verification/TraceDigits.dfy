/** What the digits of a header mean, and which of them go where. */
module TraceDigits {
  import opened ByteStrings
  import opened Options
  import opened TraceParent
  import opened TraceGrammar

  /** The hexadecimal digits, by value. */
  const LOWER: Bytes := [48, 49, 50, 51, 52, 53, 54, 55, 56, 57, 97, 98, 99, 100, 101, 102]
  const UPPER: Bytes := [48, 49, 50, 51, 52, 53, 54, 55, 56, 57, 65, 66, 67, 68, 69, 70]

  /** A byte is printed as the digit of its sixteens and the digit of its ones. */
  lemma PrintsDigits(b: byte)
    ensures PrintByte(b) == [LOWER[b as nat / 16], LOWER[b as nat % 16]]
  {
    DigitIs(b as nat / 16);
    DigitIs(b as nat % 16);
  }

  lemma DigitIs(d: nat)
    requires d < 16
    ensures HexDigit(d) == LOWER[d]
  {
  }

  /** The place of a character among the digits of either case; a plus sign stands for zero. */
  ghost predicate Means(c: byte, d: nat) { d < 16 && (c == LOWER[d] || c == UPPER[d]) }

  lemma ValueIs(c: byte, d: nat)
    requires Means(c, d)
    ensures HexValue(c) == Some(d) && c != PLUS
  {
  }

  /** Two digits mean sixteen times the first plus the second, and a plus sign before a digit means that digit. */
  lemma PairMeans(high: byte, low: byte, h: nat, l: nat)
    requires Means(low, l)
    ensures Means(high, h) ==> ParseByte([high, low]) == Some((16 * h + l) as byte)
    ensures high == PLUS ==> ParseByte([high, low]) == Some(l as byte)
  {
    ValueIs(low, l);
    if Means(high, h) { ValueIs(high, h); }
  }

  lemma {:induction false} PairAt(s: Bytes, i: nat)
    requires |s| % 2 == 0 && ParseBytes(s).Some? && 2 * i + 2 <= |s|
    ensures |ParseBytes(s).value| == |s| / 2
    ensures ParseByte(s[2 * i..2 * i + 2]) == Some(ParseBytes(s).value[i])
  {
    var n := |s| - 2;
    var init := s[..n];
    TextRoundTrip(s);
    TextRoundTrip(init);
    if 2 * i == n {
      assert s[n..] == s[2 * i..2 * i + 2];
    } else {
      PairAt(init, i);
      assert init[2 * i..2 * i + 2] == s[2 * i..2 * i + 2];
    }
  }

  lemma Slice(s: Bytes, from: nat, to: nat, i: nat)
    requires from <= to <= |s| && from + i + 2 <= to
    ensures s[from..to][i..i + 2] == s[from + i..from + i + 2]
  {
    var t := s[from..to];
    assert t[i] == s[from + i] && t[i + 1] == s[from + i + 1];
  }

  /** In a header that parses, the characters 0 and 1 are the version, the pairs from 3 and from 36 on are the bytes of
      the ids, in order, and the last two are the flags. */
  lemma FieldsAt(s: Bytes, i: nat)
    requires Parse(s).Some?
    ensures |s| == 55
    ensures ParseByte(s[0..2]) == Some(Parse(s).value.version) && ParseByte(s[53..55]) == Some(Parse(s).value.flags)
    ensures |Parse(s).value.traceId| == 16 && |Parse(s).value.parentId| == 8
    ensures i < 16 ==> ParseByte(s[3 + 2 * i..5 + 2 * i]) == Some(Parse(s).value.traceId[i])
    ensures i < 8 ==> ParseByte(s[36 + 2 * i..38 + 2 * i]) == Some(Parse(s).value.parentId[i])
  {
    SplitsLaid(s);
    ParsedIsValid(s);
    assert s[..2] == s[0..2] && s[53..] == s[53..55];
    if i < 16 {
      PairAt(s[3..35], i);
      Slice(s, 3, 35, 2 * i);
    }
    if i < 8 {
      PairAt(s[36..52], i);
      Slice(s, 36, 52, 2 * i);
    }
  }
}
