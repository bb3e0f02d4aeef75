/** The P-4 (certificate of compliance) record decoders, 92-byte records: the lease root
    (tag 01), the gatherer/purchaser/nominator record (tag 03) and the lease name record
    (tag 07), and the listing loop that reads a P-4 extract and reports its leases and their
    gatherers and purchasers. */
module P4 {
  import opened Results
  import opened PyStr
  import opened Cp500
  import opened Numeric
  import opened Fields
  import opened Stream

  /** Every P-4 record is 92 bytes long. */
  const RecordLength: nat := 92

  /** Record type 01, the lease root. */
  datatype LeaseRecord = LeaseRecord(
    oilGasCode: string,
    district: int,
    leaseRrcid: int,
    fieldNumber: int,
    onOffSchedule: string,
    operatorNumber: int)

  /** Record type 03, a gatherer, purchaser or nominator of the lease. The two percentages are
      PIC 9(1)V9(4) fields, kept as exact decimals. */
  datatype GathererPurchaserRecord = GathererPurchaserRecord(
    productCode: string,
    typeCode: string,
    percentageKey: FixedPoint,
    gpnNumber: int,
    purchSystemNo: int,
    actualPercent: FixedPoint)

  /** Record type 07, a name of the lease. */
  datatype LeaseNameRecord = LeaseNameRecord(
    sequenceDateKey: int,
    effectDateKey: int,
    leaseName: string)

  // ---------------------------------------------------------------------------
  // Decoders

  /** `parse_lease_record`: the oil/gas code is stripped, the on/off schedule indicator is kept
      as it is, and the four numbers raise `ValueError` when `int()` refuses them. */
  function ParseLease(data: Bytes): (r: Result<LeaseRecord>)
    ensures r.Success? ==> |r.value.oilGasCode| <= 1 && |r.value.onOffSchedule| <= 1
  {
    var oilGasCode := TextField(data, 2, 3);
    var district :- IntField(data, 3, 5);
    var leaseRrcid :- IntField(data, 5, 11);
    var fieldNumber :- IntField(data, 11, 19);
    var onOffSchedule := Field(data, 19, 20);
    var operatorNumber :- IntField(data, 20, 26);
    Success(LeaseRecord(oilGasCode, district, leaseRrcid, fieldNumber, onOffSchedule, operatorNumber))
  }

  /** `parse_gpn_record`: two stripped one-character codes, two implied-decimal percentages
      and two integers; byte 19 lies between the purchaser system number and the actual
      percentage and is not read. */
  function ParseGpn(data: Bytes): (r: Result<GathererPurchaserRecord>)
    ensures r.Success? ==> |r.value.productCode| <= 1 && |r.value.typeCode| <= 1
  {
    var productCode := TextField(data, 2, 3);
    var typeCode := TextField(data, 3, 4);
    var percentageKey :- ImpliedDecimal(Field(data, 4, 9), 4);
    var gpnNumber :- IntField(data, 9, 15);
    var purchSystemNo :- IntField(data, 15, 19);
    var actualPercent :- ImpliedDecimal(Field(data, 20, 25), 4);
    Success(GathererPurchaserRecord(productCode, typeCode, percentageKey, gpnNumber, purchSystemNo,
                                    actualPercent))
  }

  /** `parse_lease_name_record`: two date keys and the stripped lease name. */
  function ParseLeaseName(data: Bytes): (r: Result<LeaseNameRecord>)
    ensures r.Success? ==> Trimmed(r.value.leaseName, 32)
  {
    var sequenceDateKey :- IntField(data, 2, 10);
    var effectDateKey :- IntField(data, 10, 18);
    var leaseName := TextField(data, 18, 50);
    Success(LeaseNameRecord(sequenceDateKey, effectDateKey, leaseName))
  }

  // ---------------------------------------------------------------------------
  // What the decoders read

  /** A lease decodes exactly when its district, lease id, field number and operator number
      are integers, and each of them is `int()` of its own byte range. */
  lemma LeaseReads(data: Bytes)
    ensures ParseLease(data).Success? <==>
              && IntField(data, 3, 5).Success? && IntField(data, 5, 11).Success?
              && IntField(data, 11, 19).Success? && IntField(data, 20, 26).Success?
    ensures ParseLease(data).Success? ==>
              var r := ParseLease(data).value;
              && Success(r.district) == IntField(data, 3, 5)
              && Success(r.leaseRrcid) == IntField(data, 5, 11)
              && Success(r.fieldNumber) == IntField(data, 11, 19)
              && Success(r.operatorNumber) == IntField(data, 20, 26)
              && r.oilGasCode == TextField(data, 2, 3)
              && r.onOffSchedule == Field(data, 19, 20)
  {
  }

  /** A lease whose numeric fields hold only digit bytes 0xF0..0xF9 decodes, and each number is
      the low nibbles of its bytes read as decimal digits. */
  lemma LeaseDigits(data: Bytes)
    requires |data| >= 26
    requires forall k :: 3 <= k < 26 && k != 19 ==> 0xF0 <= data[k] <= 0xF9
    ensures ParseLease(data).Success?
    ensures var r := ParseLease(data).value;
            && r.district == NibbleValue(LowNibbles(data[3..5]))
            && r.leaseRrcid == NibbleValue(LowNibbles(data[5..11]))
            && r.fieldNumber == NibbleValue(LowNibbles(data[11..19]))
            && r.operatorNumber == NibbleValue(LowNibbles(data[20..26]))
  {
    DigitField(data, 3, 5);
    DigitField(data, 5, 11);
    DigitField(data, 11, 19);
    DigitField(data, 20, 26);
    LeaseReads(data);
  }

  /** The oil/gas code is byte 2 with whitespace stripped, so at most one non-blank character;
      the on/off schedule indicator is byte 19 exactly as it is, blank or not. */
  lemma LeaseCodes(data: Bytes)
    requires |data| >= 20
    requires ParseLease(data).Success?
    ensures var r := ParseLease(data).value;
            && r.oilGasCode == (if IsSpace(DecodeByte(data[2])) then [] else [DecodeByte(data[2])])
            && r.onOffSchedule == [DecodeByte(data[19])]
  {
    LeaseReads(data);
    OneByteTextField(data, 2);
    OneByteField(data, 19);
  }

  /** A lease depends on bytes [2, 26) of its record and on nothing else. */
  lemma LeaseFrame(d1: Bytes, d2: Bytes)
    requires SameBytes(d1, d2, 2, 26)
    ensures ParseLease(d1) == ParseLease(d2)
  {
    FieldFrame(d1, d2, 2, 26, 2, 3);
    FieldFrame(d1, d2, 2, 26, 3, 5);
    FieldFrame(d1, d2, 2, 26, 5, 11);
    FieldFrame(d1, d2, 2, 26, 11, 19);
    FieldFrame(d1, d2, 2, 26, 19, 20);
    FieldFrame(d1, d2, 2, 26, 20, 26);
  }

  /** A GPN record decodes exactly when its two percentages and two numbers are integers, and
      each field is read from its own byte range. */
  lemma GpnReads(data: Bytes)
    ensures ParseGpn(data).Success? <==>
              && ImpliedDecimal(Field(data, 4, 9), 4).Success? && IntField(data, 9, 15).Success?
              && IntField(data, 15, 19).Success? && ImpliedDecimal(Field(data, 20, 25), 4).Success?
    ensures ParseGpn(data).Success? ==>
              var r := ParseGpn(data).value;
              && r.productCode == TextField(data, 2, 3)
              && r.typeCode == TextField(data, 3, 4)
              && Success(r.percentageKey) == ImpliedDecimal(Field(data, 4, 9), 4)
              && Success(r.gpnNumber) == IntField(data, 9, 15)
              && Success(r.purchSystemNo) == IntField(data, 15, 19)
              && Success(r.actualPercent) == ImpliedDecimal(Field(data, 20, 25), 4)
  {
  }

  /** A GPN record depends on bytes [2, 19) and [20, 25) only: byte 19 is skipped. */
  lemma GpnSkipsByte19(d1: Bytes, d2: Bytes)
    requires SameBytes(d1, d2, 2, 19) && SameBytes(d1, d2, 20, 25)
    ensures ParseGpn(d1) == ParseGpn(d2)
  {
    FieldFrame(d1, d2, 2, 19, 2, 3);
    FieldFrame(d1, d2, 2, 19, 3, 4);
    FieldFrame(d1, d2, 2, 19, 4, 9);
    FieldFrame(d1, d2, 2, 19, 9, 15);
    FieldFrame(d1, d2, 2, 19, 15, 19);
    FieldFrame(d1, d2, 20, 25, 20, 25);
  }

  /** Five digit bytes in [i, i + 5) read as a PIC 9(1)V9(4) value in [0, 9.9999]: their decimal
      value over 10^4. */
  lemma PercentField(data: Bytes, i: nat)
    requires i + 5 <= |data|
    requires forall k :: i <= k < i + 5 ==> 0xF0 <= data[k] <= 0xF9
    ensures ImpliedDecimal(Field(data, i, i + 5), 4).Success?
    ensures var v := ImpliedDecimal(Field(data, i, i + 5), 4).value;
            && v.scale == 4 && v.mantissa == NibbleValue(LowNibbles(data[i..i + 5]))
            && 0 <= v.mantissa <= 99999
  {
    var text := Field(data, i, i + 5);
    forall k | 0 <= k < 5
      ensures IsDigit(text[k]) && DigitValue(text[k]) == LowNibbles(data[i..i + 5])[k]
    {
      DigitByte(data[i + k]);
    }
    DecimalValueOfDigits(text, LowNibbles(data[i..i + 5]));
    ImpliedDecimalRange(text);
  }

  /** With digit bytes in both percentage fields, both percentages of a GPN record lie in
      [0, 9.9999] in steps of 0.0001. */
  lemma GpnPercentRange(data: Bytes)
    requires |data| >= 25
    requires forall k :: 4 <= k < 9 ==> 0xF0 <= data[k] <= 0xF9
    requires forall k :: 20 <= k < 25 ==> 0xF0 <= data[k] <= 0xF9
    requires ParseGpn(data).Success?
    ensures var r := ParseGpn(data).value;
            && r.percentageKey.scale == 4 && 0 <= r.percentageKey.mantissa <= 99999
            && r.actualPercent.scale == 4 && 0 <= r.actualPercent.mantissa <= 99999
  {
    var key := ImpliedDecimal(Field(data, 4, 9), 4);
    var actual := ImpliedDecimal(Field(data, 20, 25), 4);
    assert key.Success? && key.value.scale == 4 && 0 <= key.value.mantissa <= 99999 by {
      PercentField(data, 4);
    }
    assert actual.Success? && actual.value.scale == 4 && 0 <= actual.value.mantissa <= 99999 by {
      PercentField(data, 20);
    }
    GpnReads(data);
  }

  /** The lease name is the stripped slice [18, 50): at most 32 characters, no surrounding
      whitespace, and empty exactly when the slice is blank. */
  lemma LeaseNameTrimmed(data: Bytes)
    requires ParseLeaseName(data).Success?
    ensures var r := ParseLeaseName(data).value;
            && Trimmed(r.leaseName, 32)
            && (r.leaseName == [] <==> forall k :: 0 <= k < |Field(data, 18, 50)| ==> IsSpace(Field(data, 18, 50)[k]))
  {
  }

  // ---------------------------------------------------------------------------
  // The listing loop

  /** `{'G': 'Gatherer', 'H': 'Purchaser', 'I': 'Nominator'}.get(code, code)`. */
  function TypeName(code: string): (name: string)
    ensures |code| <= 1 ==> (name == code <==> code != "G" && code != "H" && code != "I")
  {
    if code == "G" then "Gatherer"
    else if code == "H" then "Purchaser"
    else if code == "I" then "Nominator"
    else code
  }

  /** One reported line: a lease, or a gatherer/purchaser of the current lease with the name
      of its type. The text layout of the lines is not modelled. */
  datatype Line =
    | LeaseLine(lease: LeaseRecord)
    | GpnLine(typeName: string, gpn: GathererPurchaserRecord)

  /** What the listing loop has seen: the current lease, the lines so far, and the error that
      ended the run, if a decoder raised. */
  datatype Listing = Listing(current: Option<LeaseRecord>, lines: seq<Line>, failure: Option<Error>)

  /** The decoders the listing loop calls on 01 and 03 records. The loop is stated for any
      pair; the script's own are `ScriptDecoders`. */
  datatype ListDecoders = ListDecoders(
    lease: Bytes -> Result<LeaseRecord>,
    gpn: Bytes -> Result<GathererPurchaserRecord>)

  const ScriptDecoders: ListDecoders := ListDecoders(ParseLease, ParseGpn)

  /** One record of the listing loop: a 01 record becomes the current lease, a 03 record is
      reported only once there is a current lease, anything else is ignored. */
  function ListStep(d: ListDecoders, s: Listing, record: Bytes): (r: Listing)
    requires s.failure.None?
    ensures Tag(record) != "01" && Tag(record) != "03" ==> r == s
    ensures s.current.None? && Tag(record) != "01" ==> r == s
    ensures r.failure.None? ==> s.lines <= r.lines && |r.lines| <= |s.lines| + 1
  {
    var tag := Tag(record);
    if tag == "01" then
      match d.lease(record)
      case Failure(e) => s.(failure := Some(e))
      case Success(lease) => s.(current := Some(lease), lines := s.lines + [LeaseLine(lease)])
    else if tag == "03" && s.current.Some? then
      match d.gpn(record)
      case Failure(e) => s.(failure := Some(e))
      case Success(gpn) => s.(lines := s.lines + [GpnLine(TypeName(gpn.typeCode), gpn)])
    else s
  }

  /** The listing after the given full records; a raised error ends the run. */
  function ListingOf(d: ListDecoders, records: seq<Bytes>): (r: Listing)
    ensures |r.lines| <= CountTag(records, "01") + CountTag(records, "03")
  {
    if records == [] then Listing(None, [], None)
    else
      var s := ListingOf(d, records[..|records| - 1]);
      if s.failure.Some? then s else ListStep(d, s, records[|records| - 1])
  }

  /** `main` of the listing script: read 92-byte records until a short read and report the
      leases and, under each, its gatherers, purchasers and nominators. */
  method ListLeases(chunks: seq<Bytes>) returns (lines: seq<Line>, failure: Option<Error>)
    ensures lines == ListingOf(ScriptDecoders, FullRecords(chunks, RecordLength)).lines
    ensures failure == ListingOf(ScriptDecoders, FullRecords(chunks, RecordLength)).failure
  {
    lines, failure := ListWith(ScriptDecoders, chunks);
  }

  /** The listing loop with the decoders `d`. */
  method ListWith(d: ListDecoders, chunks: seq<Bytes>) returns (lines: seq<Line>, failure: Option<Error>)
    ensures lines == ListingOf(d, FullRecords(chunks, RecordLength)).lines
    ensures failure == ListingOf(d, FullRecords(chunks, RecordLength)).failure
  {
    ghost var records := FullRecords(chunks, RecordLength);
    var current: Option<LeaseRecord> := None;
    lines, failure := [], None;
    var i := 0;
    while i < |chunks|
      invariant i <= |records|
      invariant failure.None?
      invariant ListingOf(d, records[..i]) == Listing(current, lines, None)
    {
      var record := chunks[i];
      if record == [] || |record| < RecordLength {
        break;
      }
      assert i < |records| && records[i] == record;
      current, lines, failure := ListRecord(d, current, lines, record);
      ListingOfNext(d, records, i);
      if failure.Some? {
        ListingStops(d, records, i + 1);
        return;
      }
      i := i + 1;
    }
    FullRecordsEnd(chunks, RecordLength, i);
  }

  /** The body of the listing loop for one full record. */
  method ListRecord(d: ListDecoders, current: Option<LeaseRecord>, lines: seq<Line>, record: Bytes)
    returns (current': Option<LeaseRecord>, lines': seq<Line>, failure: Option<Error>)
    ensures Listing(current', lines', failure) == ListStep(d, Listing(current, lines, None), record)
  {
    current', lines', failure := current, lines, None;
    var tag := Tag(record);
    if tag == "01" {
      var lease := d.lease(record);
      if lease.Failure? {
        failure := Some(lease.error);
        return;
      }
      current' := Some(lease.value);
      lines' := lines + [LeaseLine(lease.value)];
    } else if tag == "03" && current.Some? {
      var gpn := d.gpn(record);
      if gpn.Failure? {
        failure := Some(gpn.error);
        return;
      }
      lines' := lines + [GpnLine(TypeName(gpn.value.typeCode), gpn.value)];
    }
  }

  /** The listing after one more record. */
  lemma ListingOfNext(d: ListDecoders, records: seq<Bytes>, i: nat)
    requires i < |records| && ListingOf(d, records[..i]).failure.None?
    ensures ListingOf(d, records[..i + 1]) == ListStep(d, ListingOf(d, records[..i]), records[i])
  {
    assert records[..i + 1][..i] == records[..i];
  }

  /** Once a decoder has raised, later records change nothing. */
  lemma {:induction false} ListingStops(d: ListDecoders, records: seq<Bytes>, n: nat)
    requires n <= |records|
    requires ListingOf(d, records[..n]).failure.Some?
    ensures ListingOf(d, records) == ListingOf(d, records[..n])
    decreases |records| - n
  {
    if n < |records| {
      assert records[..n + 1][..n] == records[..n];
      ListingStops(d, records, n + 1);
      assert records[..|records|] == records;
    } else {
      assert records[..n] == records;
    }
  }

  /** How many lines report a lease. */
  function CountLeaseLines(lines: seq<Line>): (n: nat)
    ensures n <= |lines|
  {
    if lines == [] then 0
    else CountLeaseLines(lines[..|lines| - 1]) + (if lines[|lines| - 1].LeaseLine? then 1 else 0)
  }

  /** Before the first 01 record nothing is reported: without a lease root, 03 records and
      records of every other tag produce no line. */
  lemma {:induction false} NothingBeforeFirstLease(d: ListDecoders, records: seq<Bytes>)
    requires CountTag(records, "01") == 0
    ensures ListingOf(d, records) == Listing(None, [], None)
  {
    if records != [] {
      NothingBeforeFirstLease(d, records[..|records| - 1]);
    }
  }

  /** A run that ends without error reports one lease line per 01 record. */
  lemma {:induction false} LeaseLinePerRoot(d: ListDecoders, records: seq<Bytes>)
    requires ListingOf(d, records).failure.None?
    ensures CountLeaseLines(ListingOf(d, records).lines) == CountTag(records, "01")
  {
    if records != [] {
      var prefix := records[..|records| - 1];
      var s := ListingOf(d, prefix);
      LeaseLinePerRoot(d, prefix);
      var after := ListStep(d, s, records[|records| - 1]);
      if after.lines != s.lines {
        assert after.lines[..|after.lines| - 1] == s.lines;
      }
    }
  }
}
