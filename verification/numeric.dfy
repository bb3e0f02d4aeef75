/** The numeric field formats of the extracts: EBCDIC zoned signed decimal and COMP-3 packed
    decimal (the Well Bore decoders), and implied-decimal PIC 9(a)V9(b) text (the P-4
    gatherer/purchaser record). A value is kept exact, as a mantissa and a decimal scale. */
module Numeric {
  import opened Results
  import opened PyStr
  import opened Cp500

  /** The number mantissa / 10^scale. */
  datatype FixedPoint = FixedPoint(mantissa: int, scale: nat)

  /** Two fixed-point numbers denote the same value. */
  predicate SameValue(x: FixedPoint, y: FixedPoint) {
    x.mantissa * Pow10(y.scale) == y.mantissa * Pow10(x.scale)
  }

  /** The number a sequence of decimal digit values spells, most significant first. */
  function NibbleValue(ns: seq<nat>): nat {
    if ns == [] then 0 else 10 * NibbleValue(ns[..|ns| - 1]) + ns[|ns| - 1]
  }

  /** Digit text whose characters have the digit values `ns` denotes NibbleValue(ns). */
  lemma {:induction false} DecimalValueOfDigits(s: string, ns: seq<nat>)
    requires AllDigits(s) && |s| == |ns|
    requires forall k :: 0 <= k < |s| ==> DigitValue(s[k]) == ns[k]
    ensures DecimalValue(s) == NibbleValue(ns)
  {
    if s != [] {
      DecimalValueOfDigits(s[..|s| - 1], ns[..|ns| - 1]);
    }
  }

  // ---------------------------------------------------------------------------
  // Zoned signed decimal (`parse_ebcdic_signed_decimal`)

  function LowNibble(b: bv8): (n: nat)
    ensures n < 16
  {
    (b & 0x0F) as nat
  }

  function HighNibble(b: bv8): (n: nat)
    ensures n < 16
  {
    (b >> 4) as nat
  }

  /** The zone (high nibble) of a byte, kept in place: 0xC0, 0xD0, 0xF0, ... */
  function Zone(b: bv8): bv8 {
    b & 0xF0
  }

  function LowNibbles(bs: Bytes): (ns: seq<nat>)
    ensures |ns| == |bs|
    ensures forall k :: 0 <= k < |bs| ==> ns[k] == LowNibble(bs[k])
  {
    seq(|bs|, k requires 0 <= k < |bs| => LowNibble(bs[k]))
  }

  /** The text a non-empty zoned field hands to `int()`: the characters of all bytes but the
      last, then `str()` of the last byte's low nibble (two characters for a nibble 10..15). */
  function ZonedText(data: Bytes): string
    requires |data| > 0
  {
    Decode(data)[..|data| - 1] + NatToString(LowNibble(data[|data| - 1]))
  }

  /** A zoned field: the number text is ZonedText, the zone of the last byte is the sign (0xD0
      negative). Text `int()` refuses gives zero, and so does an empty field. */
  function ZonedSigned(data: Bytes, decimalPlaces: nat): (r: FixedPoint)
    ensures r.scale == decimalPlaces
    ensures data == [] ==> r.mantissa == 0
  {
    if |data| == 0 then FixedPoint(0, decimalPlaces)
    else
      var isNegative := Zone(data[|data| - 1]) == 0xD0;
      match ParseInt(ZonedText(data))
      case None => FixedPoint(0, decimalPlaces)
      case Some(value) => FixedPoint(if isNegative then -value else value, decimalPlaces)
  }

  /** A well-formed zoned field: digit bytes 0xF0..0xF9, then a last byte whose low nibble is a
      decimal digit. */
  predicate WellFormedZoned(data: Bytes) {
    && |data| > 0
    && (forall k :: 0 <= k < |data| - 1 ==> 0xF0 <= data[k] <= 0xF9)
    && LowNibble(data[|data| - 1]) <= 9
  }

  /** The magnitude of a well-formed zoned field: its low nibbles, read as decimal digits. */
  function ZonedMagnitude(data: Bytes): nat {
    NibbleValue(LowNibbles(data))
  }

  /** The text of a well-formed field is all digits, and denotes the field's magnitude. */
  lemma ZonedTextDigits(data: Bytes)
    requires WellFormedZoned(data)
    ensures AllDigits(ZonedText(data)) && |ZonedText(data)| == |data|
    ensures DecimalValue(ZonedText(data)) == ZonedMagnitude(data)
  {
    var n := |data|;
    var d := LowNibble(data[n - 1]);
    assert NatToString(d) == [DigitChar(d)];
    var text := ZonedText(data);
    forall k | 0 <= k < n - 1
      ensures IsDigit(text[k]) && DigitValue(text[k]) == LowNibble(data[k])
    {
      DigitByte(data[k]);
    }
    DecimalValueOfDigits(text, LowNibbles(data));
  }

  /** On a well-formed field the result is the low nibbles read as decimal, the last digit
      coming from the last byte, negated exactly when the last zone is 0xD0. */
  lemma ZonedValue(data: Bytes, decimalPlaces: nat)
    requires WellFormedZoned(data)
    ensures ZonedSigned(data, decimalPlaces).mantissa ==
              if Zone(data[|data| - 1]) == 0xD0 then -(ZonedMagnitude(data) as int) else ZonedMagnitude(data)
  {
    ZonedTextDigits(data);
    ParseIntDigits(ZonedText(data));
  }

  /** On a well-formed field the result is negative exactly when the zone is 0xD0 and some digit
      is not zero; zones 0xC0 and 0xF0 never give a negative value. */
  lemma ZonedSign(data: Bytes, decimalPlaces: nat)
    requires WellFormedZoned(data)
    ensures ZonedSigned(data, decimalPlaces).mantissa < 0 <==>
              Zone(data[|data| - 1]) == 0xD0 && ZonedMagnitude(data) > 0
    ensures Zone(data[|data| - 1]) == 0xC0 || Zone(data[|data| - 1]) == 0xF0 ==>
              ZonedSigned(data, decimalPlaces).mantissa >= 0
  {
    ZonedValue(data, decimalPlaces);
  }

  /** A character no integer literal can contain, anywhere before the last byte, makes the
      whole field zero. */
  lemma ZonedMalformedIsZero(data: Bytes, decimalPlaces: nat, k: nat)
    requires k < |data| - 1 && IsForeignToNumbers(DecodeByte(data[k]))
    ensures ZonedSigned(data, decimalPlaces).mantissa == 0
  {
    var text := ZonedText(data);
    assert text[k] == DecodeByte(data[k]);
    ParseIntRejects(text, k);
  }

  lemma NibbleValue1235()
    ensures NibbleValue([1, 2, 3, 5]) == 1235
  {
    assert [1, 2, 3, 5][..3] == [1, 2, 3];
    assert [1, 2, 3][..2] == [1, 2];
    assert [1, 2][..1] == [1];
  }

  /** The digits "123" followed by a last byte of zone D and digit 5, at two decimal places,
      are -12.35. */
  lemma ZonedExample(data: Bytes)
    requires data == [0xF1, 0xF2, 0xF3, 0xD5]
    ensures ZonedSigned(data, 2) == FixedPoint(-1235, 2)
  {
    assert WellFormedZoned(data);
    ZonedValue(data, 2);
    assert LowNibbles(data) == [1, 2, 3, 5];
    NibbleValue1235();
  }

  /** Python's `int()` lets leading blanks through: blank bytes 0x40 before a well-formed
      zoned field change nothing. */
  lemma ZonedLeadingBlank(data: Bytes, n: nat, decimalPlaces: nat)
    requires n < |data| && forall k :: 0 <= k < n ==> data[k] == 0x40
    requires WellFormedZoned(data[n..])
    ensures ZonedSigned(data, decimalPlaces) == ZonedSigned(data[n..], decimalPlaces)
  {
    ZonedTextSplits(data, n);
    BlankBytesAreNumberSpace(data[..n]);
    ZonedTextDigits(data[n..]);
    ParseIntSkipsBlanks(Decode(data[..n]), ZonedText(data[n..]));
    ParseIntDigits(ZonedText(data[n..]));
  }

  /** A leading minus byte 0x60 also reaches `int()`: before a well-formed field it negates the
      value, so the zone then flips the sign back instead of setting it. */
  lemma ZonedSignByteFlips(data: Bytes, decimalPlaces: nat)
    requires |data| >= 2 && data[0] == 0x60
    requires WellFormedZoned(data[1..])
    ensures ZonedSigned(data, decimalPlaces).mantissa ==
              if Zone(data[|data| - 1]) == 0xD0 then ZonedMagnitude(data[1..]) as int
              else -(ZonedMagnitude(data[1..]) as int)
  {
    var tail := data[1..];
    assert data[|data| - 1] == tail[|tail| - 1];
    ZonedTextSplits(data, 1);
    MinusByte(data[..1]);
    ZonedTextDigits(tail);
    var text := ZonedText(data);
    assert text[1..] == ZonedText(tail);
    ParseIntNegative(text);
  }

  /** Byte 0x60 decodes to a minus sign. */
  lemma MinusByte(bs: Bytes)
    requires bs == [0x60]
    ensures Decode(bs) == "-"
  {
    assert DecodeByte(0x60) == '-';
  }

  /** The text of a zoned field is the text of its first `n` bytes, then that of the rest. */
  lemma ZonedTextSplits(data: Bytes, n: nat)
    requires n < |data|
    ensures ZonedText(data) == Decode(data[..n]) + ZonedText(data[n..])
  {
    var tail := data[n..];
    assert data[|data| - 1] == tail[|tail| - 1];
    assert Decode(data)[..|data| - 1] == Decode(data[..n]) + Decode(tail)[..|tail| - 1];
  }

  /** Blank bytes 0x40 decode to whitespace `int()` skips. */
  lemma BlankBytesAreNumberSpace(blanks: Bytes)
    requires forall k :: 0 <= k < |blanks| ==> blanks[k] == 0x40
    ensures forall k :: 0 <= k < |blanks| ==> IsNumberSpace(Decode(blanks)[k])
  {
    assert IsNumberSpace(DecodeByte(0x40));
  }

  // ---------------------------------------------------------------------------
  // COMP-3 packed decimal (`unpack_comp3_decimal`)

  function HexChar(n: nat): (c: char)
    requires n < 16
  {
    if n < 10 then (('0' as int) + n) as char else (('a' as int) + n - 10) as char
  }

  /** A hexadecimal digit is a decimal digit exactly for 0..9; 'a'..'f' can appear in no
      integer literal. */
  lemma HexCharClass(n: nat)
    requires n < 16
    ensures n < 10 ==> IsDigit(HexChar(n)) && DigitValue(HexChar(n)) == n
    ensures n >= 10 ==> IsForeignToNumbers(HexChar(n))
    ensures Upper(HexChar(n)) == 'D' <==> n == 13
  {
  }

  /** The nibbles of a byte string, high nibble first. */
  function Nibbles(data: Bytes): (ns: seq<nat>)
    ensures |ns| == 2 * |data|
    ensures forall k :: 0 <= k < |ns| ==> ns[k] < 16
  {
    seq(2 * |data|, k requires 0 <= k < 2 * |data| =>
      if k % 2 == 0 then HighNibble(data[k / 2]) else LowNibble(data[k / 2]))
  }

  /** `data.hex()`: two lower-case hexadecimal digits per byte, high nibble first. */
  function Hex(data: Bytes): (s: string)
    ensures |s| == 2 * |data|
    ensures forall k :: 0 <= k < |s| ==> s[k] == HexChar(Nibbles(data)[k])
  {
    seq(2 * |data|, k requires 0 <= k < 2 * |data| => HexChar(Nibbles(data)[k]))
  }

  /** `c.upper()` for the characters `hex()` produces. */
  function Upper(c: char): char {
    if 'a' <= c <= 'z' then ((c as int) - 32) as char else c
  }

  /** The magnitude nibbles of a packed field: all but the last. */
  function MagnitudeNibbles(data: Bytes): (ns: seq<nat>)
    requires |data| > 0
    ensures |ns| == 2 * |data| - 1
  {
    Nibbles(data)[..2 * |data| - 1]
  }

  /** The sign nibble of a packed field is the low nibble of its last byte. */
  function SignNibble(data: Bytes): nat
    requires |data| > 0
  {
    LowNibble(data[|data| - 1])
  }

  /** The text a non-empty packed field hands to `int()`: its hexadecimal digits but the last. */
  function Comp3Text(data: Bytes): (s: string)
    requires |data| > 0
    ensures |s| == 2 * |data| - 1
    ensures forall k :: 0 <= k < |s| ==> s[k] == HexChar(MagnitudeNibbles(data)[k])
  {
    var hexStr := Hex(data);
    hexStr[..|hexStr| - 1]
  }

  /** A packed field: the magnitude is Comp3Text read by `int()`, the last hexadecimal digit is
      the sign, and 'D' means negative. Text `int()` refuses gives zero, and so does an empty
      field. `integerDigits` is not used. */
  function Comp3(data: Bytes, integerDigits: int, decimalDigits: nat): (r: FixedPoint)
    ensures r.scale == decimalDigits
    ensures data == [] ==> r.mantissa == 0
  {
    if |data| == 0 then FixedPoint(0, decimalDigits)
    else
      var hexStr := Hex(data);
      var isNegative := Upper(hexStr[|hexStr| - 1]) == 'D';
      match ParseInt(Comp3Text(data))
      case None => FixedPoint(0, decimalDigits)
      case Some(value) => FixedPoint(if isNegative then -value else value, decimalDigits)
  }

  /** The sign test looks at the low nibble of the last byte. */
  lemma Comp3SignTest(data: Bytes)
    requires |data| > 0
    ensures var hexStr := Hex(data);
            Upper(hexStr[|hexStr| - 1]) == 'D' <==> SignNibble(data) == 13
  {
    var n := 2 * |data|;
    assert Nibbles(data)[n - 1] == SignNibble(data) by { assert (n - 1) / 2 == |data| - 1; }
    HexCharClass(SignNibble(data));
  }

  /** When every magnitude nibble is a decimal digit, the result is those nibbles read as
      decimal, negated exactly when the sign nibble is 0xD (0xC and 0xF are positive). */
  lemma Comp3Value(data: Bytes, integerDigits: int, decimalDigits: nat)
    requires |data| > 0
    requires forall k :: 0 <= k < |MagnitudeNibbles(data)| ==> MagnitudeNibbles(data)[k] <= 9
    ensures Comp3(data, integerDigits, decimalDigits).mantissa ==
              if SignNibble(data) == 13 then -(NibbleValue(MagnitudeNibbles(data)) as int)
              else NibbleValue(MagnitudeNibbles(data))
  {
    Comp3SignTest(data);
    var text := Comp3Text(data);
    forall k | 0 <= k < |text|
      ensures IsDigit(text[k]) && DigitValue(text[k]) == MagnitudeNibbles(data)[k]
    {
      HexCharClass(MagnitudeNibbles(data)[k]);
    }
    DecimalValueOfDigits(text, MagnitudeNibbles(data));
    ParseIntDigits(text);
  }

  /** A magnitude nibble A..F makes the whole field zero. */
  lemma Comp3BadNibbleIsZero(data: Bytes, integerDigits: int, decimalDigits: nat, k: nat)
    requires |data| > 0 && k < |MagnitudeNibbles(data)| && MagnitudeNibbles(data)[k] > 9
    ensures Comp3(data, integerDigits, decimalDigits).mantissa == 0
  {
    HexCharClass(MagnitudeNibbles(data)[k]);
    ParseIntRejects(Comp3Text(data), k);
  }

  lemma NibbleValue12345()
    ensures NibbleValue([1, 2, 3, 4, 5]) == 12345
  {
    assert [1, 2, 3, 4, 5][..4] == [1, 2, 3, 4];
    assert [1, 2, 3, 4][..3] == [1, 2, 3];
    assert [1, 2, 3][..2] == [1, 2];
    assert [1, 2][..1] == [1];
  }

  /** Hex 12345D at two decimal places is -123.45, and 12345C is 123.45. */
  lemma Comp3Example(negative: Bytes, positive: Bytes, integerDigits: int)
    requires negative == [0x12, 0x34, 0x5D] && positive == [0x12, 0x34, 0x5C]
    ensures Comp3(negative, integerDigits, 2) == FixedPoint(-12345, 2)
    ensures Comp3(positive, integerDigits, 2) == FixedPoint(12345, 2)
  {
    NibbleValue12345();
    assert MagnitudeNibbles(negative) == [1, 2, 3, 4, 5];
    Comp3Value(negative, integerDigits, 2);
    assert MagnitudeNibbles(positive) == [1, 2, 3, 4, 5];
    Comp3Value(positive, integerDigits, 2);
  }

  // ---------------------------------------------------------------------------
  // Implied decimal point (PIC 9(a)V9(b))

  /** `int(text) / 10**fractionDigits`: the decimal point is implied, `int()` raises on text that
      is not an integer. */
  function ImpliedDecimal(text: string, fractionDigits: nat): (r: Result<FixedPoint>)
    ensures r.Success? <==> ParseInt(text).Some?
    ensures r.Success? ==> r.value.scale == fractionDigits
  {
    match ParseInt(text)
    case None => Failure(ValueError)
    case Some(value) => Success(FixedPoint(value, fractionDigits))
  }

  /** A PIC 9(1)V9(4) field of five digits lies in [0, 9.9999] in steps of 0.0001. */
  lemma ImpliedDecimalRange(text: string)
    requires |text| == 5 && AllDigits(text)
    ensures ImpliedDecimal(text, 4).Success?
    ensures var v := ImpliedDecimal(text, 4).value;
            v.scale == 4 && v.mantissa == DecimalValue(text) && 0 <= v.mantissa <= 99999
  {
    ParseIntDigits(text);
    DecimalValueBound(text);
    assert Pow10(5) == 100000;
  }

  lemma DecimalValue00001()
    ensures DecimalValue("00001") == 1
  {
    assert "00001"[..4] == "0000";
    assert "0000"[..3] == "000";
    assert "000"[..2] == "00";
    assert "00"[..1] == "0";
  }

  lemma DecimalValue10000()
    ensures DecimalValue("10000") == 10000
  {
    assert "10000"[..4] == "1000";
    assert "1000"[..3] == "100";
    assert "100"[..2] == "10";
    assert "10"[..1] == "1";
  }

  /** "00001" reads as 0.0001, the smallest step of the field. */
  lemma ImpliedDecimalSmallest(text: string)
    requires text == "00001"
    ensures ImpliedDecimal(text, 4) == Success(FixedPoint(1, 4))
  {
    ImpliedDecimalRange(text);
    DecimalValue00001();
  }

  /** "10000" reads as 1.0. */
  lemma ImpliedDecimalOne(text: string)
    requires text == "10000"
    ensures ImpliedDecimal(text, 4).Success? && SameValue(ImpliedDecimal(text, 4).value, FixedPoint(1, 0))
  {
    ImpliedDecimalRange(text);
    DecimalValue10000();
    assert Pow10(4) == 10000;
  }
}
