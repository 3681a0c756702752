/** The traceparent header of src/trace_context.rs (W3C Trace Context, section 3.2), on bytes. */
module TraceParent {
  import opened ByteStrings
  import opened Options

  const DASH: byte := 45
  const PLUS: byte := 43

  datatype TraceParent = TraceParent(version: byte, traceId: Bytes, parentId: Bytes, flags: byte)

  /** The sizes the source's array types fix. */
  predicate Shaped(tp: TraceParent) { |tp.traceId| == 16 && |tp.parentId| == 8 }

  predicate NonZero(id: Bytes) { exists i :: 0 <= i < |id| && id[i] != 0 }

  predicate Valid(tp: TraceParent) { Shaped(tp) && tp.version != 255 && NonZero(tp.traceId) && NonZero(tp.parentId) }

  // ---- Hexadecimal ----

  function HexDigit(d: nat): byte
    requires d < 16
  {
    if d < 10 then (48 + d) as byte else (87 + d) as byte
  }

  /** Digits of either case. */
  function HexValue(b: byte): Option<nat> {
    if 48 <= b <= 57 then Some(b as nat - 48)
    else if 97 <= b <= 102 then Some(b as nat - 87)
    else if 65 <= b <= 70 then Some(b as nat - 55)
    else None
  }

  predicate LowerHex(s: Bytes) { forall i :: 0 <= i < |s| ==> 48 <= s[i] <= 57 || 97 <= s[i] <= 102 }

  function PrintByte(b: byte): (s: Bytes)
    ensures |s| == 2
  {
    [HexDigit(b as nat / 16), HexDigit(b as nat % 16)]
  }

  /** `u8::from_str_radix` on two bytes: a leading plus is accepted. */
  function ParseByte(s: Bytes): Option<byte>
    requires |s| == 2
  {
    var low := HexValue(s[1]);
    if low.None? then None
    else if s[0] == PLUS then Some(low.value as byte)
    else
      var high := HexValue(s[0]);
      if high.None? || low.value >= 16 || high.value >= 16 then None
      else Some((16 * high.value + low.value) as byte)
  }

  function PrintBytes(id: Bytes): Bytes {
    if id == [] then [] else PrintBytes(id[..|id| - 1]) + PrintByte(id[|id| - 1])
  }

  function ParseBytes(s: Bytes): Option<Bytes>
    requires |s| % 2 == 0
  {
    if s == [] then Some([])
    else
      var init, last := ParseBytes(s[..|s| - 2]), ParseByte(s[|s| - 2..]);
      if init.None? || last.None? then None else Some(init.value + [last.value])
  }

  // ---- The header ----

  function Split(s: Bytes): (parts: seq<Bytes>)
    ensures parts != []
  {
    if s == [] then [[]]
    else
      var rest := Split(s[1..]);
      if s[0] == DASH then [[]] + rest else [[s[0]] + rest[0]] + rest[1..]
  }

  function Print(tp: TraceParent): Bytes {
    PrintByte(tp.version) + [DASH]
    + (PrintBytes(tp.traceId) + [DASH] + (PrintBytes(tp.parentId) + [DASH] + PrintByte(tp.flags)))
  }

  /** The four fields, of the lengths the header fixes. */
  function Fields(parts: seq<Bytes>): Option<TraceParent>
    requires |parts| == 4 && |parts[0]| == 2 && |parts[1]| == 32 && |parts[2]| == 16 && |parts[3]| == 2
  {
    var version, traceId := ParseByte(parts[0]), ParseBytes(parts[1]);
    var parentId, flags := ParseBytes(parts[2]), ParseByte(parts[3]);
    if version.None? || traceId.None? || parentId.None? || flags.None? then None
    else Some(TraceParent(version.value, traceId.value, parentId.value, flags.value))
  }

  predicate FourFields(parts: seq<Bytes>) {
    |parts| == 4 && |parts[0]| == 2 && |parts[1]| == 32 && |parts[2]| == 16 && |parts[3]| == 2
  }

  function Parse(s: Bytes): Option<TraceParent> {
    var parts := Split(s);
    if !FourFields(parts) then None
    else
      var tp := Fields(parts);
      if tp.Some? && tp.value.version != 255 && NonZero(tp.value.traceId) && NonZero(tp.value.parentId) then tp
      else None
  }

  // ---- The parser's own order of steps ----

  /** What the parser does with a string: it also ends in a panic where it slices inside a character. */
  datatype Reading<T> = Read(value: T) | Refused | Panicked

  /** A byte that continues a character of UTF-8 (RFC 3629, section 3). */
  predicate Continues(b: byte) { 128 <= b <= 191 }

  /** No character of `s` begins at `k`, so slicing there panics. */
  predicate Inside(s: Bytes, k: nat) { 0 < k < |s| && Continues(s[k]) }

  /** The first `n` pairs of an id. */
  function ReadPairs(s: Bytes, n: nat): Reading<Bytes>
    requires 2 * n <= |s|
  {
    if n == 0 then Read([])
    else
      var init := ReadPairs(s, n - 1);
      if !init.Read? then init
      else if Inside(s, 2 * n - 2) || Inside(s, 2 * n) then Panicked
      else
        var last := ParseByte(s[2 * n - 2..2 * n]);
        if last.None? then Refused else Read(init.value + [last.value])
  }

  /** An id field of the right length and not all zero. */
  function ReadId(s: Bytes, size: nat): Reading<Bytes> {
    if |s| != 2 * size then Refused
    else
      var id := ReadPairs(s, size);
      if id.Read? && !NonZero(id.value) then Refused else id
  }

  function ReadVersion(s: Bytes): Reading<byte> {
    if |s| != 2 || ParseByte(s).None? || ParseByte(s).value == 255 then Refused else Read(ParseByte(s).value)
  }

  function ReadFlags(s: Bytes): Reading<byte> {
    if |s| != 2 || ParseByte(s).None? then Refused else Read(ParseByte(s).value)
  }

  /** The fields one after the other: a bad one ends it before the next is looked at. */
  function ReadHeader(s: Bytes): Reading<TraceParent> {
    var parts := Split(s);
    if |parts| != 4 then Refused
    else
      var version, traceId := ReadVersion(parts[0]), ReadId(parts[1], 16);
      var parentId, flags := ReadId(parts[2], 8), ReadFlags(parts[3]);
      if !version.Read? then Refused
      else if traceId.Panicked? || (traceId.Read? && parentId.Panicked?) then Panicked
      else if !traceId.Read? || !parentId.Read? || !flags.Read? then Refused
      else Read(TraceParent(version.value, traceId.value, parentId.value, flags.value))
  }

  // ---- Hexadecimal, there and back ----

  lemma ByteRoundTrip(b: byte)
    ensures ParseByte(PrintByte(b)) == Some(b) && LowerHex(PrintByte(b)) && DASH !in PrintByte(b)
  {
    DigitRoundTrip(b as nat / 16);
    DigitRoundTrip(b as nat % 16);
  }

  lemma DigitRoundTrip(d: nat)
    requires d < 16
    ensures HexValue(HexDigit(d)) == Some(d) && HexDigit(d) != PLUS && HexDigit(d) != DASH
  {
  }

  /** A pair of digits is printed back exactly if it is in lower case. */
  lemma PairRoundTrip(s: Bytes)
    requires |s| == 2 && ParseByte(s).Some?
    ensures PrintByte(ParseByte(s).value) == s <==> LowerHex(s)
  {
    var b := ParseByte(s).value;
    ByteRoundTrip(b);
    if LowerHex(s) {
      assert HexValue(s[0]).Some? && HexDigit(HexValue(s[0]).value) == s[0];
      assert HexValue(s[1]).Some? && HexDigit(HexValue(s[1]).value) == s[1];
      DivMod(HexValue(s[0]).value, HexValue(s[1]).value);
    }
  }

  lemma DivMod(high: nat, low: nat)
    requires low < 16
    ensures (16 * high + low) / 16 == high && (16 * high + low) % 16 == low
  {
  }

  lemma PrintMore(id: Bytes, b: byte)
    ensures PrintBytes(id + [b]) == PrintBytes(id) + PrintByte(b)
  {
    assert (id + [b])[..|id|] == id;
  }

  lemma ParseMore(s: Bytes, t: Bytes)
    requires |s| % 2 == 0 && |t| == 2
    ensures ParseBytes(s + t)
         == if ParseBytes(s).None? || ParseByte(t).None? then None else Some(ParseBytes(s).value + [ParseByte(t).value])
  {
    assert (s + t)[..|s|] == s && (s + t)[|s|..] == t;
  }

  /** An id that is printed and parsed back, in lower case and without dashes. */
  ghost predicate RoundTrips(id: Bytes) {
    && |PrintBytes(id)| == 2 * |id| && ParseBytes(PrintBytes(id)) == Some(id)
    && LowerHex(PrintBytes(id)) && DASH !in PrintBytes(id)
  }

  lemma OneMoreRoundTrips(id: Bytes, b: byte)
    requires RoundTrips(id)
    ensures RoundTrips(id + [b])
  {
    hide PrintBytes, ParseBytes, PrintByte, ParseByte, LowerHex;
    ByteRoundTrip(b);
    PrintMore(id, b);
    ParseMore(PrintBytes(id), PrintByte(b));
    LowerHalves(PrintBytes(id), PrintByte(b));
  }

  lemma NothingRoundTrips()
    ensures RoundTrips([])
  {
  }

  lemma {:induction false} AllRoundTrip(id: Bytes)
    ensures RoundTrips(id)
  {
    hide RoundTrips;
    if id == [] {
      NothingRoundTrips();
    } else {
      AllRoundTrip(id[..|id| - 1]);
      OneMoreRoundTrips(id[..|id| - 1], id[|id| - 1]);
      assert id == id[..|id| - 1] + [id[|id| - 1]];
    }
  }

  lemma BytesRoundTrip(id: Bytes)
    ensures |PrintBytes(id)| == 2 * |id| && ParseBytes(PrintBytes(id)) == Some(id)
    ensures LowerHex(PrintBytes(id)) && DASH !in PrintBytes(id)
  {
    AllRoundTrip(id);
  }

  /** Text that parses, and is printed back exactly if it is in lower case. */
  ghost predicate TextTrips(s: Bytes) {
    && |s| % 2 == 0 && ParseBytes(s).Some? && |ParseBytes(s).value| * 2 == |s|
    && (PrintBytes(ParseBytes(s).value) == s <==> LowerHex(s))
  }

  lemma OneMoreTextTrips(s: Bytes, t: Bytes)
    requires TextTrips(s) && |t| == 2 && ParseByte(t).Some?
    ensures TextTrips(s + t)
  {
    hide PrintBytes, ParseBytes, PrintByte, ParseByte, LowerHex;
    var init, last := ParseBytes(s).value, ParseByte(t).value;
    ParseMore(s, t);
    PrintMore(init, last);
    BytesRoundTrip(init);
    PairRoundTrip(t);
    SameHalves(PrintBytes(init), PrintByte(last), s, t);
    LowerHalves(s, t);
  }

  lemma NothingTextTrips()
    ensures TextTrips([])
  {
  }

  lemma TextSplits(s: Bytes)
    requires |s| % 2 == 0 && ParseBytes(s).Some? && s != []
    ensures var n := |s| - 2; ParseBytes(s[..n]).Some? && ParseByte(s[n..]).Some?
  {
    hide ParseByte;
  }

  lemma InTwo(s: Bytes, n: nat)
    requires n <= |s|
    ensures s == s[..n] + s[n..]
  {
  }

  lemma {:induction false} AllTextTrips(s: Bytes)
    requires |s| % 2 == 0 && ParseBytes(s).Some?
    ensures TextTrips(s)
  {
    hide TextTrips, ParseBytes, ParseByte;
    if s == [] {
      NothingTextTrips();
    } else {
      TextSplits(s);
      AllTextTrips(s[..|s| - 2]);
      OneMoreTextTrips(s[..|s| - 2], s[|s| - 2..]);
      InTwo(s, |s| - 2);
    }
  }

  lemma TextRoundTrip(s: Bytes)
    requires |s| % 2 == 0 && ParseBytes(s).Some?
    ensures |ParseBytes(s).value| * 2 == |s|
    ensures PrintBytes(ParseBytes(s).value) == s <==> LowerHex(s)
  {
    AllTextTrips(s);
  }

  lemma SameHalves(a: Bytes, b: Bytes, c: Bytes, d: Bytes)
    requires |a| == |c|
    ensures a + b == c + d <==> a == c && b == d
  {
    if a + b == c + d {
      assert a == (a + b)[..|a|] && c == (c + d)[..|a|];
      assert b == (a + b)[|a|..] && d == (c + d)[|a|..];
    }
  }

  lemma LowerHalves(a: Bytes, b: Bytes)
    ensures LowerHex(a + b) <==> LowerHex(a) && LowerHex(b)
  {
    if LowerHex(a + b) {
      forall i | 0 <= i < |a| ensures 48 <= a[i] <= 57 || 97 <= a[i] <= 102 { assert (a + b)[i] == a[i]; }
      forall i | 0 <= i < |b| ensures 48 <= b[i] <= 57 || 97 <= b[i] <= 102 { assert (a + b)[|a| + i] == b[i]; }
    }
  }

  // ---- Splitting ----

  lemma {:induction false} SplitField(a: Bytes, s: Bytes)
    requires DASH !in a
    ensures Split(a) == [a] && Split(a + [DASH] + s) == [a] + Split(s)
  {
    if a == [] {
      assert a + [DASH] + s == [DASH] + s;
    } else {
      var t := a + [DASH] + s;
      SplitField(a[1..], s);
      assert t[1..] == a[1..] + [DASH] + s;
      assert [a[0]] + a[1..] == a;
    }
  }

  function Join(parts: seq<Bytes>): Bytes
    requires parts != []
  {
    if |parts| == 1 then parts[0] else parts[0] + [DASH] + Join(parts[1..])
  }

  lemma {:induction false} JoinSplit(s: Bytes)
    ensures Join(Split(s)) == s
  {
    if s != [] {
      JoinSplit(s[1..]);
      var rest, parts := Split(s[1..]), Split(s);
      assert s == [s[0]] + s[1..];
      if s[0] == DASH {
        assert parts[1..] == rest;
      } else {
        assert parts[1..] == rest[1..];
        if |rest| > 1 { assert parts[0] + [DASH] + Join(rest[1..]) == [s[0]] + (rest[0] + [DASH] + Join(rest[1..])); }
      }
    }
  }

  // ---- The results ----

  lemma SplitFour(v: Bytes, t: Bytes, p: Bytes, f: Bytes)
    requires DASH !in v && DASH !in t && DASH !in p && DASH !in f
    ensures Split(v + [DASH] + (t + [DASH] + (p + [DASH] + f))) == [v, t, p, f]
  {
    SplitField(f, []);
    SplitField(p, f);
    SplitField(t, p + [DASH] + f);
    SplitField(v, t + [DASH] + (p + [DASH] + f));
  }

  lemma SplitPrint(tp: TraceParent)
    requires Shaped(tp)
    ensures Split(Print(tp))
         == [PrintByte(tp.version), PrintBytes(tp.traceId), PrintBytes(tp.parentId), PrintByte(tp.flags)]
    ensures FourFields(Split(Print(tp)))
  {
    hide Split;
    ByteRoundTrip(tp.version);
    BytesRoundTrip(tp.traceId);
    BytesRoundTrip(tp.parentId);
    ByteRoundTrip(tp.flags);
    SplitFour(PrintByte(tp.version), PrintBytes(tp.traceId), PrintBytes(tp.parentId), PrintByte(tp.flags));
  }

  /** Parsing what was printed gives the value back, exactly for valid values. */
  lemma ParsePrint(tp: TraceParent)
    requires Shaped(tp)
    ensures Parse(Print(tp)) == if Valid(tp) then Some(tp) else None
  {
    SplitPrint(tp);
    ByteRoundTrip(tp.version);
    BytesRoundTrip(tp.traceId);
    BytesRoundTrip(tp.parentId);
    ByteRoundTrip(tp.flags);
  }

  lemma ParsedIsValid(s: Bytes)
    requires Parse(s).Some?
    ensures Valid(Parse(s).value)
  {
    TextRoundTrip(Split(s)[1]);
    TextRoundTrip(Split(s)[2]);
  }

  lemma FieldsJoined(s: Bytes)
    requires |Split(s)| == 4
    ensures var p := Split(s); s == p[0] + [DASH] + (p[1] + [DASH] + (p[2] + [DASH] + p[3]))
  {
    JoinSplit(s);
    var p := Split(s);
    assert Join(p) == p[0] + [DASH] + Join(p[1..]);
    assert Join(p[1..]) == p[1] + [DASH] + Join(p[1..][1..]);
    assert p[1..][1..] == p[2..] && p[2..][1..] == p[3..];
    assert Join(p[2..]) == p[2] + [DASH] + Join(p[3..]);
  }

  /** A header that parses is printed back unchanged exactly if all its fields are lower-case hexadecimal. */
  lemma PrintParseIff(s: Bytes)
    requires Parse(s).Some?
    ensures Print(Parse(s).value) == s <==> forall i :: 0 <= i < 4 ==> LowerHex(Split(s)[i])
  {
    hide PrintBytes, ParseBytes, Split;
    var p, tp := Split(s), Parse(s).value;
    FieldsJoined(s);
    PairRoundTrip(p[0]);
    TextRoundTrip(p[1]);
    TextRoundTrip(p[2]);
    PairRoundTrip(p[3]);
    ParsedIsValid(s);
    BytesRoundTrip(tp.traceId);
    BytesRoundTrip(tp.parentId);
    var v, t, q, f := PrintByte(tp.version), PrintBytes(tp.traceId), PrintBytes(tp.parentId), PrintByte(tp.flags);
    SameHalves(v + [DASH], t + [DASH] + (q + [DASH] + f), p[0] + [DASH], p[1] + [DASH] + (p[2] + [DASH] + p[3]));
    SameHalves(v, [DASH], p[0], [DASH]);
    SameHalves(t + [DASH], q + [DASH] + f, p[1] + [DASH], p[2] + [DASH] + p[3]);
    SameHalves(t, [DASH], p[1], [DASH]);
    SameHalves(q + [DASH], f, p[2] + [DASH], p[3]);
    SameHalves(q, [DASH], p[2], [DASH]);
    assert (forall i :: 0 <= i < 4 ==> LowerHex(p[i]))
      <==> LowerHex(p[0]) && LowerHex(p[1]) && LowerHex(p[2]) && LowerHex(p[3]);
  }

  /** A child span; `parentId` is what the random source gave. */
  function Child(tp: TraceParent, parentId: Bytes): TraceParent { tp.(parentId := parentId) }

  /** A child of a header that parsed prints as a header of the same trace, version and flags, with the new id. */
  lemma ChildPropagates(s: Bytes, parentId: Bytes)
    requires Parse(s).Some? && |parentId| == 8 && NonZero(parentId)
    ensures var child := Parse(Print(Child(Parse(s).value, parentId)));
      && child.Some? && child.value.traceId == Parse(s).value.traceId && child.value.parentId == parentId
      && child.value.version == Parse(s).value.version && child.value.flags == Parse(s).value.flags
  {
    ParsedIsValid(s);
    ParsePrint(Child(Parse(s).value, parentId));
  }

  // ---- As the source does it ----

  /** Once it does not read on, it never does. */
  lemma {:induction false} ReadStops(s: Bytes, i: nat, n: nat)
    requires i <= n && 2 * n <= |s| && !ReadPairs(s, i).Read?
    ensures ReadPairs(s, n) == ReadPairs(s, i)
  {
    if i < n { ReadStops(s, i, n - 1); }
  }

  /** The loops that fill the ids, giving up at the first pair that does not parse and panicking at the first that is
      cut inside a character. */
  method FillId(s: Bytes, id: array<byte>) returns (r: Reading<()>)
    requires |s| == 2 * id.Length
    modifies id
    ensures r.Read? <==> ReadPairs(s, id.Length).Read?
    ensures r.Read? ==> ReadPairs(s, id.Length) == Read(id[..])
    ensures r.Panicked? <==> ReadPairs(s, id.Length).Panicked?
  {
    hide ParseByte, Inside;
    var i := 0;
    while i < id.Length
      invariant i <= id.Length && ReadPairs(s, i) == Read(id[..i])
    {
      if Inside(s, 2 * i) || Inside(s, 2 * i + 2) {
        ReadStops(s, i + 1, id.Length);
        return Panicked;
      }
      var b := ParseByte(s[2 * i..2 * i + 2]);
      if b.None? {
        ReadStops(s, i + 1, id.Length);
        return Refused;
      }
      ghost var init := id[..i];
      id[i] := b.value;
      i := i + 1;
      assert id[..i] == init + [b.value];
    }
    assert id[..i] == id[..];
    r := Read(());
  }

  method IsZero(id: array<byte>) returns (zero: bool)
    ensures zero <==> !NonZero(id[..])
  {
    var i := 0;
    while i < id.Length
      invariant i <= id.Length && forall j :: 0 <= j < i ==> id[j] == 0
    {
      if id[i] != 0 {
        assert id[..][i] != 0;
        return false;
      }
      i := i + 1;
    }
    zero := true;
  }

  /** One id field: its length, the loop, the test for zero. */
  method ParseId(s: Bytes, size: nat) returns (r: Reading<Bytes>)
    ensures r == ReadId(s, size)
  {
    if |s| != 2 * size { return Refused; }
    var id := new byte[size];
    var filled := FillId(s, id);
    if filled.Panicked? { return Panicked; }
    if filled.Refused? { return Refused; }
    var zero := IsZero(id);
    r := if zero then Refused else Read(id[..]);
  }

  /** `parse`. */
  method ParseHeader(s: Bytes) returns (r: Reading<TraceParent>)
    ensures r == ReadHeader(s)
  {
    var parts := Split(s);
    if |parts| != 4 || |parts[0]| != 2 { return Refused; }
    var version := ParseByte(parts[0]);
    if version.None? || version.value == 255 { return Refused; }
    var traceId := ParseId(parts[1], 16);
    if !traceId.Read? { return if traceId.Panicked? then Panicked else Refused; }
    var parentId := ParseId(parts[2], 8);
    if !parentId.Read? { return if parentId.Panicked? then Panicked else Refused; }
    if |parts[3]| != 2 { return Refused; }
    var flags := ParseByte(parts[3]);
    if flags.None? { return Refused; }
    r := Read(TraceParent(version.value, traceId.value, parentId.value, flags.value));
  }
}
