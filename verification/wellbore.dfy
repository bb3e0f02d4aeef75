/** The Well Bore record decoders: the root record (tag 01) and the new location record
    (tag 13), both 247 bytes, decoded whole through cp500 and then sliced. */
module Wellbore {
  import opened Results
  import opened PyStr
  import opened Cp500
  import opened Numeric
  import opened Fields

  /** Record type 01, the well bore root. */
  datatype RootRecord = RootRecord(
    apiCounty: int,
    apiUnique: int,
    fieldDistrict: int,
    resCountyCode: int,
    origComplCentury: int,
    origComplYear: int,
    origComplMonth: int,
    origComplDay: int,
    totalDepth: int,
    newestDrillPermitNbr: int,
    freshWaterFlag: char,
    plugFlag: char,
    completionDataInd: char)

  /** Record type 13, the new location of a well bore. */
  datatype NewLocationRecord = NewLocationRecord(
    apiCounty: int,
    apiUnique: int,
    locCounty: int,
    abstractNumber: string,
    survey: string,
    blockNumber: string,
    section: string,
    altSection: string,
    altAbstract: string,
    feetFromSurSect1: int,
    direcFromSurSect1: string,
    feetFromSurSect2: int,
    direcFromSurSect2: string,
    wgs84Latitude: FixedPoint,
    wgs84Longitude: FixedPoint,
    planeZone: int,
    planeCoordinateEast: FixedPoint,
    planeCoordinateNorth: FixedPoint,
    verificationFlag: char)

  /** The ten integer fields of a root record, in the order they are read: API county and
      unique number, field district, reservoir county, original completion century, year,
      month and day, total depth and newest drilling permit number. */
  const RootIntegerSpans: seq<Span> :=
    [Span(2, 3), Span(5, 5), Span(14, 2), Span(16, 3), Span(20, 2),
     Span(22, 2), Span(24, 2), Span(26, 2), Span(28, 5), Span(80, 6)]

  /** `parse_root_record`: ten integer fields and three one-character flags. A field `int()`
      refuses raises `ValueError`; a record too short for the flag at index 99 raises
      `IndexError` once the integers have been read. */
  function ParseRoot(record: Bytes): (r: Result<RootRecord>)
    ensures r.Success? ==> |record| >= 100
  {
    var decoded := Decode(record);
    var n :- IntsOf(decoded, RootIntegerSpans);
    var freshWater :- At(decoded, 89);
    var plug :- At(decoded, 90);
    var completion :- At(decoded, 99);
    Success(RootRecord(n[0], n[1], n[2], n[3], n[4], n[5], n[6], n[7], n[8], n[9],
                       freshWater, plug, completion))
  }

  /** When a root decodes: its integers, in RootIntegerSpans order, and its flags. */
  lemma RootShape(record: Bytes)
    ensures ParseRoot(record).Success? <==>
              IntsOf(Decode(record), RootIntegerSpans).Success? && |record| >= 100
    ensures ParseRoot(record).Success? ==>
              var n := IntsOf(Decode(record), RootIntegerSpans).value;
              ParseRoot(record).value ==
                RootRecord(n[0], n[1], n[2], n[3], n[4], n[5], n[6], n[7], n[8], n[9],
                           DecodeByte(record[89]), DecodeByte(record[90]), DecodeByte(record[99]))
  {
  }

  /** A root record decodes exactly when each of its ten integer fields is an integer and it
      reaches index 99. */
  lemma RootDecodes(record: Bytes)
    ensures ParseRoot(record).Success? <==>
              && (forall k :: 0 <= k < |RootIntegerSpans| ==>
                    IntField(record, RootIntegerSpans[k].start, RootIntegerSpans[k].End()).Success?)
              && |record| >= 100
  {
    RootShape(record);
    IntsOfFields(record, RootIntegerSpans);
  }

  /** Each integer field of a decoded root is `int()` of its own byte range. */
  lemma RootReads(record: Bytes)
    requires ParseRoot(record).Success?
    ensures var r := ParseRoot(record).value;
            && Success(r.apiCounty) == IntField(record, 2, 5)
            && Success(r.apiUnique) == IntField(record, 5, 10)
            && Success(r.fieldDistrict) == IntField(record, 14, 16)
            && Success(r.resCountyCode) == IntField(record, 16, 19)
            && Success(r.origComplCentury) == IntField(record, 20, 22)
            && Success(r.origComplYear) == IntField(record, 22, 24)
            && Success(r.origComplMonth) == IntField(record, 24, 26)
            && Success(r.origComplDay) == IntField(record, 26, 28)
            && Success(r.totalDepth) == IntField(record, 28, 33)
            && Success(r.newestDrillPermitNbr) == IntField(record, 80, 86)
  {
    RootShape(record);
    IntsOfFields(record, RootIntegerSpans);
  }

  /** The flags of a decoded root are the one-character fields at bytes 89, 90 and 99. */
  lemma RootFlags(record: Bytes)
    requires ParseRoot(record).Success?
    ensures var r := ParseRoot(record).value;
            && [r.freshWaterFlag] == Field(record, 89, 90)
            && [r.plugFlag] == Field(record, 90, 91)
            && [r.completionDataInd] == Field(record, 99, 100)
  {
    RootShape(record);
    OneByteField(record, 89);
    OneByteField(record, 90);
    OneByteField(record, 99);
  }

  // ---------------------------------------------------------------------------
  // Feet from the survey lines: `int(float(text)) if text else 0`, 0 on ValueError

  /** The first index of '.' in `s`, or |s| when there is none. */
  function DotIndex(s: string): (i: nat)
    ensures i <= |s|
    ensures forall k :: 0 <= k < i ==> s[k] != '.'
    ensures i < |s| ==> s[i] == '.'
  {
    if s == [] || s[0] == '.' then 0 else 1 + DotIndex(s[1..])
  }

  /** The whole part of the unsigned decimal text `float()` accepts without an exponent, which
      is what `int(float(s))` keeps: digit groups with an optional fraction and at least one
      digit overall ("12", "12.", ".5", "12.75"); `None` for any other text. */
  function UnsignedWhole(s: string): Option<nat> {
    var dot := DotIndex(s);
    if dot == |s| then DigitGroups(s)
    else
      var whole := s[..dot];
      var fraction := s[dot + 1..];
      if whole == [] && fraction == [] then None
      else if fraction != [] && DigitGroups(fraction).None? then None
      else if whole == [] then Some(0)
      else DigitGroups(whole)
  }

  /** `int(float(text))` on the text of a stripped six-byte field: the sign, then the whole part;
      the fraction is dropped, which truncates toward zero. Six characters are too few for
      binary floating point to round the whole part. `None` where `float()` raises. */
  function FloatToInt(text: string): (r: Option<int>)
    ensures r.Some? && r.value < 0 ==> |text| > 0 && text[0] == '-'
  {
    if |text| > 0 && (text[0] == '+' || text[0] == '-') then
      match UnsignedWhole(text[1..])
      case None => None
      case Some(whole) => Some(if text[0] == '-' then -(whole as int) else whole)
    else
      match UnsignedWhole(text)
      case None => None
      case Some(whole) => Some(whole)
  }

  /** `int(float(text)) if text else 0`, with `ValueError` caught and read as 0. */
  function Feet(text: string): (feet: int)
    ensures feet < 0 ==> |text| > 0 && text[0] == '-'
  {
    if text == [] then 0
    else match FloatToInt(text)
      case None => 0
      case Some(n) => n
  }

  /** Plain digit text reads as its decimal value. */
  lemma FeetDigits(text: string)
    requires text != [] && AllDigits(text)
    ensures Feet(text) == DecimalValue(text)
  {
    assert DotIndex(text) == |text| by {
      assert forall k :: 0 <= k < |text| ==> text[k] != '.' by {
        forall k | 0 <= k < |text| ensures text[k] != '.' { assert IsDigit(text[k]); }
      }
    }
    assert text[0] != '+' && text[0] != '-' by { assert IsDigit(text[0]); }
    DigitGroupsDigits(text);
  }

  /** Digits, a point and more digits read as the whole part: the fraction is truncated. */
  lemma FeetTruncates(whole: string, fraction: string)
    requires whole != [] && AllDigits(whole) && AllDigits(fraction)
    ensures Feet(whole + "." + fraction) == DecimalValue(whole)
  {
    var text := whole + "." + fraction;
    assert text[|whole|] == '.';
    forall k | 0 <= k < |whole|
      ensures text[k] == whole[k] && text[k] != '.'
    {
      assert IsDigit(whole[k]);
    }
    assert DotIndex(text) == |whole|;
    assert text[..|whole|] == whole;
    assert text[|whole| + 1..] == fraction;
    DigitGroupsDigits(whole);
    if fraction != [] {
      DigitGroupsDigits(fraction);
    }
    assert text[0] != '+' && text[0] != '-';
  }

  /** Text `float()` cannot read, such as a letter at the front, gives 0. */
  lemma FeetRejectsLetter(text: string)
    requires text != [] && 'A' <= text[0] <= 'Z'
    ensures Feet(text) == 0
  {
    if DotIndex(text) > 0 {
      assert text[..DotIndex(text)][0] == text[0];
    }
  }

  // ---------------------------------------------------------------------------
  // The new location record

  /** `int(text) if text else 0` for the stripped plane zone: `ValueError` is not caught. */
  function PlaneZone(text: string): (r: Result<int>)
    ensures r.Failure? <==> text != [] && ParseInt(text).None?
  {
    if text == [] then Success(0) else IntOf(text)
  }

  /** `parse_new_location_record`: the API key comes from the arguments, the rest from the
      record. The county and a non-blank plane zone must be integers (else `ValueError`), and
      the record must reach index 177 for the verification flag (else `IndexError`). */
  function ParseNewLocation(record: Bytes, apiCounty: int, apiUnique: int): (r: Result<NewLocationRecord>)
    ensures r.Success? ==> r.value.apiCounty == apiCounty && r.value.apiUnique == apiUnique && |record| > 177
  {
    var decoded := Decode(record);
    var locCounty :- IntOf(Slice(decoded, 2, 5));
    var abstractNumber := Strip(Slice(decoded, 5, 11));
    var survey := Strip(Slice(decoded, 11, 66));
    var blockNumber := Strip(Slice(decoded, 66, 76));
    var section := Strip(Slice(decoded, 76, 84));
    var altSection := Strip(Slice(decoded, 84, 88));
    var altAbstract := Strip(Slice(decoded, 88, 94));
    var feet1 := Feet(Strip(Slice(decoded, 94, 100)));
    var direc1 := Strip(Slice(decoded, 100, 113));
    var feet2 := Feet(Strip(Slice(decoded, 113, 119)));
    var direc2 := Strip(Slice(decoded, 119, 132));
    var latitude := ZonedSigned(Slice(record, 132, 142), 7);
    var longitude := ZonedSigned(Slice(record, 142, 152), 7);
    var planeZone :- PlaneZone(Strip(Slice(decoded, 157, 159)));
    var east := ZonedSigned(Slice(record, 159, 169), 2);
    var north := ZonedSigned(Slice(record, 169, 179), 2);
    var verificationFlag :- At(decoded, 177);
    Success(NewLocationRecord(apiCounty, apiUnique, locCounty, abstractNumber, survey, blockNumber, section,
                              altSection, altAbstract, feet1, direc1, feet2, direc2, latitude, longitude,
                              planeZone, east, north, verificationFlag))
  }

  /** The API key of a location is the one passed in, never read from the record: decoding
      with another key succeeds or fails alike and changes only the key. */
  lemma LocationApiFromArguments(record: Bytes, c1: int, u1: int, c2: int, u2: int)
    ensures ParseNewLocation(record, c1, u1).Success? <==> ParseNewLocation(record, c2, u2).Success?
    ensures ParseNewLocation(record, c1, u1).Success? ==>
              && ParseNewLocation(record, c1, u1).value.apiCounty == c1
              && ParseNewLocation(record, c1, u1).value.apiUnique == u1
              && ParseNewLocation(record, c2, u2).value ==
                   ParseNewLocation(record, c1, u1).value.(apiCounty := c2, apiUnique := u2)
  {
  }

  /** A location decodes exactly when its county is an integer, its plane zone is blank or an
      integer, and the record reaches index 177. */
  lemma LocationFailure(record: Bytes, apiCounty: int, apiUnique: int)
    ensures ParseNewLocation(record, apiCounty, apiUnique).Success? <==>
              && IntField(record, 2, 5).Success?
              && PlaneZone(TextField(record, 157, 159)).Success?
              && |record| > 177
  {
    DecodeSlice(record, 2, 5);
    DecodeSlice(record, 157, 159);
  }

  /** A blank first distance field reads as 0. */
  lemma LocationBlankFeet1(record: Bytes, apiCounty: int, apiUnique: int)
    requires ParseNewLocation(record, apiCounty, apiUnique).Success?
    requires Strip(Slice(Decode(record), 94, 100)) == []
    ensures ParseNewLocation(record, apiCounty, apiUnique).value.feetFromSurSect1 == 0
  {
  }

  /** A blank second distance field reads as 0. */
  lemma LocationBlankFeet2(record: Bytes, apiCounty: int, apiUnique: int)
    requires ParseNewLocation(record, apiCounty, apiUnique).Success?
    requires Strip(Slice(Decode(record), 113, 119)) == []
    ensures ParseNewLocation(record, apiCounty, apiUnique).value.feetFromSurSect2 == 0
  {
  }

  /** A blank plane zone reads as 0. */
  lemma LocationBlankPlaneZone(record: Bytes, apiCounty: int, apiUnique: int)
    requires ParseNewLocation(record, apiCounty, apiUnique).Success?
    requires Strip(Slice(Decode(record), 157, 159)) == []
    ensures ParseNewLocation(record, apiCounty, apiUnique).value.planeZone == 0
  {
  }

  /** The verification flag at index 177 lies inside the north coordinate field [169, 179): it
      is the character of that field's ninth byte, so the two fields share a byte. */
  lemma VerificationFlagOverlapsNorth(record: Bytes, apiCounty: int, apiUnique: int)
    requires |record| >= 179
    requires ParseNewLocation(record, apiCounty, apiUnique).Success?
    ensures var r := ParseNewLocation(record, apiCounty, apiUnique).value;
            && r.planeCoordinateNorth == ZonedSigned(Slice(record, 169, 179), 2)
            && [r.verificationFlag] == Field(Slice(record, 169, 179), 8, 9)
  {
    LocationReadsFlag(record, apiCounty, apiUnique);
    var north := Slice(record, 169, 179);
    assert north[8] == record[177];
    OneByteField(north, 8);
  }

  /** The north coordinate and the verification flag of a decoded location, read from the
      record. */
  lemma LocationReadsFlag(record: Bytes, apiCounty: int, apiUnique: int)
    requires ParseNewLocation(record, apiCounty, apiUnique).Success?
    ensures var r := ParseNewLocation(record, apiCounty, apiUnique).value;
            && r.planeCoordinateNorth == ZonedSigned(Slice(record, 169, 179), 2)
            && r.verificationFlag == Decode(record)[177]
  {
  }

  /** Every text field of a location is stripped and no wider than its slice. */
  lemma LocationTextTrimmed(record: Bytes, apiCounty: int, apiUnique: int)
    requires ParseNewLocation(record, apiCounty, apiUnique).Success?
    ensures var r := ParseNewLocation(record, apiCounty, apiUnique).value;
            && Trimmed(r.abstractNumber, 6) && Trimmed(r.survey, 55) && Trimmed(r.blockNumber, 10)
            && Trimmed(r.section, 8) && Trimmed(r.altSection, 4) && Trimmed(r.altAbstract, 6)
            && Trimmed(r.direcFromSurSect1, 13) && Trimmed(r.direcFromSurSect2, 13)
  {
  }
}
