/** The P-5 (organization report) record decoders, 350-byte records: the organization
    (tag "A "), its specialty codes ("F "), officers ("K ") and activity indicators ("U "), and
    the listing loop that reports each organization with the records that follow it. */
module P5 {
  import opened Results
  import opened PyStr
  import opened Cp500
  import opened Fields
  import opened Stream

  /** Every P-5 record is 350 bytes long. */
  const RecordLength: nat := 350

  /** Record type "A ", an organization. */
  datatype OrgRecord = OrgRecord(
    operatorNumber: int,
    organizationName: string,
    refilingRequiredFlag: string,
    p5Status: string,
    holdMailCode: string,
    renewalLetterCode: string,
    organizationCode: string,
    organOtherComment: string,
    gathererCode: string,
    orgAddrLine1: string,
    orgAddrLine2: string,
    orgAddrCity: string,
    orgAddrState: string,
    orgAddrZip: string,
    orgAddrZipSuffix: string,
    locationAddrLine1: string,
    locationAddrLine2: string,
    locationAddrCity: string,
    locationAddrState: string,
    locationAddrZip: string,
    locationAddrZipSuffix: string,
    dateBuilt: string,
    dateInactive: string,
    phoneNumber: string)

  /** Record type "F ", a specialty code of an organization. */
  datatype SpecialtyCodeRecord = SpecialtyCodeRecord(
    operatorNumber: int,
    organizationName: string,
    specialtyCode: string,
    specAddrLine1: string,
    specAddrLine2: string,
    specAddrCity: string,
    specAddrState: string,
    specAddrZip: string,
    specAddrZipSuffix: string)

  /** Record type "K ", an officer of an organization. */
  datatype OfficerRecord = OfficerRecord(
    operatorNumber: int,
    organizationName: string,
    officerName: string,
    officerTitle: string,
    officerAddrLine1: string,
    officerAddrLine2: string,
    officerAddrCity: string,
    officerAddrState: string,
    officerAddrZip: string,
    officerAddrZipSuffix: string,
    officerTypeId: string,
    officerIdState: string,
    officerIdNumber: string,
    officerAgent: string)

  /** Record type "U ", an activity indicator of an organization. */
  datatype ActivityIndicatorRecord = ActivityIndicatorRecord(
    operatorNumber: int,
    organizationName: string,
    actIndCode: string,
    actIndFlagDistricts: string)

  // ---------------------------------------------------------------------------
  // Decoders

  /** The operator number every P-5 record starts with, bytes [2, 8). */
  function OperatorNumber(data: Bytes): Result<int> {
    IntField(data, 2, 8)
  }

  /** The organization name every P-5 record carries, bytes [8, 40) stripped. */
  function OrganizationName(data: Bytes): string {
    TextField(data, 8, 40)
  }

  /** `parse_org_record`: the five one-byte codes at 40..44 are kept unstripped, every other text
      field is stripped; only the operator number can raise. */
  function ParseOrg(data: Bytes): (r: Result<OrgRecord>)
    ensures r.Success? <==> OperatorNumber(data).Success?
    ensures r.Success? ==> r.value.operatorNumber == OperatorNumber(data).value
  {
    var operatorNumber :- OperatorNumber(data);
    Success(OrgRecord(
      operatorNumber, OrganizationName(data),
      Field(data, 40, 41), Field(data, 41, 42), Field(data, 42, 43), Field(data, 43, 44), Field(data, 44, 45),
      TextField(data, 45, 65), TextField(data, 65, 70),
      TextField(data, 70, 101), TextField(data, 101, 132), TextField(data, 132, 145),
      TextField(data, 145, 147), TextField(data, 147, 152), TextField(data, 152, 156),
      TextField(data, 156, 187), TextField(data, 187, 218), TextField(data, 218, 231),
      TextField(data, 231, 233), TextField(data, 233, 238), TextField(data, 238, 242),
      TextField(data, 242, 250), TextField(data, 250, 258), TextField(data, 258, 268)))
  }

  /** `parse_specialty_code_record`: every text field stripped. */
  function ParseSpecialty(data: Bytes): (r: Result<SpecialtyCodeRecord>)
    ensures r.Success? <==> OperatorNumber(data).Success?
    ensures r.Success? ==> r.value.operatorNumber == OperatorNumber(data).value
  {
    var operatorNumber :- OperatorNumber(data);
    Success(SpecialtyCodeRecord(
      operatorNumber, OrganizationName(data), TextField(data, 40, 46),
      TextField(data, 46, 77), TextField(data, 77, 108), TextField(data, 108, 121),
      TextField(data, 121, 123), TextField(data, 123, 128), TextField(data, 128, 132)))
  }

  /** `parse_officer_record`: every text field stripped; bytes [190, 276) are not read. */
  function ParseOfficer(data: Bytes): (r: Result<OfficerRecord>)
    ensures r.Success? <==> OperatorNumber(data).Success?
    ensures r.Success? ==> r.value.operatorNumber == OperatorNumber(data).value
  {
    var operatorNumber :- OperatorNumber(data);
    Success(OfficerRecord(
      operatorNumber, OrganizationName(data), TextField(data, 40, 72), TextField(data, 72, 104),
      TextField(data, 104, 135), TextField(data, 135, 166), TextField(data, 166, 179),
      TextField(data, 179, 181), TextField(data, 181, 186), TextField(data, 186, 190),
      TextField(data, 276, 277), TextField(data, 277, 279), TextField(data, 279, 299),
      TextField(data, 299, 300)))
  }

  /** `parse_activity_indicator_record`: the district flags are kept unstripped. */
  function ParseActivity(data: Bytes): (r: Result<ActivityIndicatorRecord>)
    ensures r.Success? <==> OperatorNumber(data).Success?
    ensures r.Success? ==> r.value.operatorNumber == OperatorNumber(data).value
  {
    var operatorNumber :- OperatorNumber(data);
    Success(ActivityIndicatorRecord(operatorNumber, OrganizationName(data), TextField(data, 40, 46),
                                    Field(data, 46, 60)))
  }

  // ---------------------------------------------------------------------------
  // What the decoders read

  /** The operator number decides whether a record decodes: each of the four decoders succeeds
      exactly when bytes [2, 8) are an integer, and then all four agree on the operator number
      and the organization name. */
  lemma SharedHeader(data: Bytes)
    ensures ParseOrg(data).Success? <==> OperatorNumber(data).Success?
    ensures ParseSpecialty(data).Success? <==> OperatorNumber(data).Success?
    ensures ParseOfficer(data).Success? <==> OperatorNumber(data).Success?
    ensures ParseActivity(data).Success? <==> OperatorNumber(data).Success?
    ensures OperatorNumber(data).Success? ==>
              && ParseOrg(data).value.operatorNumber == OperatorNumber(data).value
              && ParseSpecialty(data).value.operatorNumber == OperatorNumber(data).value
              && ParseOfficer(data).value.operatorNumber == OperatorNumber(data).value
              && ParseActivity(data).value.operatorNumber == OperatorNumber(data).value
              && ParseOrg(data).value.organizationName == OrganizationName(data)
              && ParseSpecialty(data).value.organizationName == OrganizationName(data)
              && ParseOfficer(data).value.organizationName == OrganizationName(data)
              && ParseActivity(data).value.organizationName == OrganizationName(data)
  {
  }

  /** The organization name is at most 32 characters with no surrounding whitespace. */
  lemma OrganizationNameTrimmed(data: Bytes)
    ensures Trimmed(OrganizationName(data), 32)
  {
  }

  /** The five organization codes at bytes 40..44 are kept as they are: each is exactly the one
      character of its byte, whitespace included. */
  lemma OrgFlags(data: Bytes)
    requires |data| >= 45
    requires ParseOrg(data).Success?
    ensures var r := ParseOrg(data).value;
            && r.refilingRequiredFlag == [DecodeByte(data[40])]
            && r.p5Status == [DecodeByte(data[41])]
            && r.holdMailCode == [DecodeByte(data[42])]
            && r.renewalLetterCode == [DecodeByte(data[43])]
            && r.organizationCode == [DecodeByte(data[44])]
  {
    OrgFlagFields(data);
    OneByteField(data, 40);
    OneByteField(data, 41);
    OneByteField(data, 42);
    OneByteField(data, 43);
    OneByteField(data, 44);
  }

  /** The five organization codes are the unstripped fields [40, 41) to [44, 45). */
  lemma OrgFlagFields(data: Bytes)
    requires ParseOrg(data).Success?
    ensures var r := ParseOrg(data).value;
            && r.refilingRequiredFlag == Field(data, 40, 41) && r.p5Status == Field(data, 41, 42)
            && r.holdMailCode == Field(data, 42, 43) && r.renewalLetterCode == Field(data, 43, 44)
            && r.organizationCode == Field(data, 44, 45)
  {
  }

  /** Every stripped text field of an organization is no wider than its slice and has no
      whitespace at either end. */
  lemma OrgTextTrimmed(data: Bytes)
    requires ParseOrg(data).Success?
    ensures var r := ParseOrg(data).value;
            && Trimmed(r.organizationName, 32) && Trimmed(r.organOtherComment, 20)
            && Trimmed(r.gathererCode, 5) && Trimmed(r.orgAddrLine1, 31) && Trimmed(r.orgAddrLine2, 31)
            && Trimmed(r.orgAddrCity, 13) && Trimmed(r.orgAddrState, 2) && Trimmed(r.orgAddrZip, 5)
            && Trimmed(r.orgAddrZipSuffix, 4) && Trimmed(r.locationAddrLine1, 31)
            && Trimmed(r.locationAddrLine2, 31) && Trimmed(r.locationAddrCity, 13)
            && Trimmed(r.locationAddrState, 2) && Trimmed(r.locationAddrZip, 5)
            && Trimmed(r.locationAddrZipSuffix, 4) && Trimmed(r.dateBuilt, 8)
            && Trimmed(r.dateInactive, 8) && Trimmed(r.phoneNumber, 10)
  {
  }

  /** The district flags of an activity indicator are the 14 characters of bytes [46, 60) as
      they are, one per district, and encode back to those bytes. */
  lemma ActivityDistricts(data: Bytes)
    requires |data| >= 60
    requires ParseActivity(data).Success?
    ensures var r := ParseActivity(data).value;
            && |r.actIndFlagDistricts| == 14
            && (forall k :: 0 <= k < 14 ==> r.actIndFlagDistricts[k] == DecodeByte(data[46 + k]))
            && Encode(r.actIndFlagDistricts) == data[46..60]
  {
  }

  /** An officer record depends on bytes [2, 190) and [276, 300) only: the 86 bytes in between
      never influence it. */
  lemma OfficerFrame(d1: Bytes, d2: Bytes)
    requires SameBytes(d1, d2, 2, 190) && SameBytes(d1, d2, 276, 300)
    ensures ParseOfficer(d1) == ParseOfficer(d2)
  {
    FieldFrame(d1, d2, 2, 190, 2, 8);
    FieldFrame(d1, d2, 2, 190, 8, 40);
    FieldFrame(d1, d2, 2, 190, 40, 72);
    FieldFrame(d1, d2, 2, 190, 72, 104);
    FieldFrame(d1, d2, 2, 190, 104, 135);
    FieldFrame(d1, d2, 2, 190, 135, 166);
    FieldFrame(d1, d2, 2, 190, 166, 179);
    FieldFrame(d1, d2, 2, 190, 179, 181);
    FieldFrame(d1, d2, 2, 190, 181, 186);
    FieldFrame(d1, d2, 2, 190, 186, 190);
    FieldFrame(d1, d2, 276, 300, 276, 277);
    FieldFrame(d1, d2, 276, 300, 277, 279);
    FieldFrame(d1, d2, 276, 300, 279, 299);
    FieldFrame(d1, d2, 276, 300, 299, 300);
  }

  // ---------------------------------------------------------------------------
  // The decoders a P-5 loop calls

  /** The four decoders, one per record type. Loops are stated for any four; the scripts'
      own are `ScriptDecoders`. */
  datatype Decoders = Decoders(
    org: Bytes -> Result<OrgRecord>,
    specialty: Bytes -> Result<SpecialtyCodeRecord>,
    officer: Bytes -> Result<OfficerRecord>,
    activity: Bytes -> Result<ActivityIndicatorRecord>)

  const ScriptDecoders: Decoders := Decoders(ParseOrg, ParseSpecialty, ParseOfficer, ParseActivity)

  // ---------------------------------------------------------------------------
  // The listing loop

  /** One reported line; the text layout is not modelled. An organization is reported with
      `organization_name[:40]`. */
  datatype Line =
    | OrgLine(operatorNumber: int, organizationName: string, p5Status: string)
    | SpecialtyLine(specialtyCode: string)
    | OfficerLine(officerName: string, officerTitle: string)
    | ActivityLine(actIndCode: string)

  /** What the listing loop has seen: the current organization, the lines so far, the number of
      full records read, and the error that ended the run, if a decoder raised. */
  datatype Listing = Listing(current: Option<OrgRecord>, lines: seq<Line>, recordCount: nat,
                             failure: Option<Error>)

  /** One record of the listing loop. It is counted first; a "1T" record is then skipped
      without being decoded, an "A " record becomes the current organization, and "F ", "K "
      and "U " records are reported only once there is a current organization. */
  function ListStep(d: Decoders, s: Listing, record: Bytes): (r: Listing)
    requires s.failure.None?
    ensures r.recordCount == s.recordCount + 1
    ensures Tag(record) != "A " && s.current.None? ==> r == s.(recordCount := s.recordCount + 1)
    ensures Tag(record) == "1T" ==> r == s.(recordCount := s.recordCount + 1)
  {
    var s := s.(recordCount := s.recordCount + 1);
    var tag := Tag(record);
    if tag == "1T" then s
    else if tag == "A " then
      match d.org(record)
      case Failure(e) => s.(failure := Some(e))
      case Success(org) =>
        s.(current := Some(org),
           lines := s.lines + [OrgLine(org.operatorNumber, Slice(org.organizationName, 0, 40), org.p5Status)])
    else if tag == "F " && s.current.Some? then
      match d.specialty(record)
      case Failure(e) => s.(failure := Some(e))
      case Success(spec) => s.(lines := s.lines + [SpecialtyLine(spec.specialtyCode)])
    else if tag == "K " && s.current.Some? then
      match d.officer(record)
      case Failure(e) => s.(failure := Some(e))
      case Success(officer) => s.(lines := s.lines + [OfficerLine(officer.officerName, officer.officerTitle)])
    else if tag == "U " && s.current.Some? then
      match d.activity(record)
      case Failure(e) => s.(failure := Some(e))
      case Success(act) => s.(lines := s.lines + [ActivityLine(act.actIndCode)])
    else s
  }

  /** The listing after the given full records; a raised error ends the run. */
  function ListingOf(d: Decoders, records: seq<Bytes>): (r: Listing)
    ensures r.recordCount <= |records|
    ensures r.failure.None? ==> r.recordCount == |records|
  {
    if records == [] then Listing(None, [], 0, None)
    else
      var s := ListingOf(d, records[..|records| - 1]);
      if s.failure.Some? then s else ListStep(d, s, records[|records| - 1])
  }

  /** The listing after one more record. */
  lemma ListingOfNext(d: Decoders, records: seq<Bytes>, i: nat)
    requires i < |records| && ListingOf(d, records[..i]).failure.None?
    ensures ListingOf(d, records[..i + 1]) == ListStep(d, ListingOf(d, records[..i]), records[i])
  {
    assert records[..i + 1][..i] == records[..i];
  }

  /** Once a decoder has raised, later records change nothing. */
  lemma {:induction false} ListingStops(d: Decoders, records: seq<Bytes>, n: nat)
    requires n <= |records|
    requires ListingOf(d, records[..n]).failure.Some?
    ensures ListingOf(d, records) == ListingOf(d, records[..n])
    decreases |records| - n
  {
    if n < |records| {
      assert records[..n + 1][..n] == records[..n];
      ListingStops(d, records, n + 1);
      assert records[..|records|] == records;
    } else {
      assert records[..n] == records;
    }
  }

  /** `main` of the listing script: read 350-byte records until a short read, report each
      organization and the specialty codes, officers and activity indicators that follow it,
      and return the number of records read. */
  method ListOrganizations(chunks: seq<Bytes>) returns (lines: seq<Line>, recordCount: nat, failure: Option<Error>)
    ensures var s := ListingOf(ScriptDecoders, FullRecords(chunks, RecordLength));
            lines == s.lines && recordCount == s.recordCount && failure == s.failure
  {
    lines, recordCount, failure := ListWith(ScriptDecoders, chunks);
  }

  /** The listing loop with the decoders `d`. */
  method ListWith(d: Decoders, chunks: seq<Bytes>) returns (lines: seq<Line>, recordCount: nat, failure: Option<Error>)
    ensures var s := ListingOf(d, FullRecords(chunks, RecordLength));
            lines == s.lines && recordCount == s.recordCount && failure == s.failure
  {
    ghost var records := FullRecords(chunks, RecordLength);
    var current: Option<OrgRecord> := None;
    lines, recordCount, failure := [], 0, None;
    var i := 0;
    while i < |chunks|
      invariant i <= |records|
      invariant failure.None?
      invariant ListingOf(d, records[..i]) == Listing(current, lines, recordCount, None)
    {
      var record := chunks[i];
      if record == [] || |record| < RecordLength {
        break;
      }
      assert i < |records| && records[i] == record;
      current, lines, recordCount, failure := ListRecord(d, current, lines, recordCount, record);
      ListingOfNext(d, records, i);
      if failure.Some? {
        ListingStops(d, records, i + 1);
        return;
      }
      i := i + 1;
    }
    FullRecordsEnd(chunks, RecordLength, i);
  }

  /** The body of the listing loop for one full record. */
  method ListRecord(d: Decoders, current: Option<OrgRecord>, lines: seq<Line>, recordCount: nat, record: Bytes)
    returns (current': Option<OrgRecord>, lines': seq<Line>, recordCount': nat, failure: Option<Error>)
    ensures Listing(current', lines', recordCount', failure) ==
              ListStep(d, Listing(current, lines, recordCount, None), record)
  {
    var tag := Tag(record);
    if tag == "A " {
      current', lines', recordCount', failure := ListOrg(d, current, lines, recordCount, record);
    } else if tag == "F " && current.Some? {
      current' := current;
      lines', recordCount', failure := ListSpecialty(d, current, lines, recordCount, record);
    } else if tag == "K " && current.Some? {
      current' := current;
      lines', recordCount', failure := ListOfficer(d, current, lines, recordCount, record);
    } else if tag == "U " && current.Some? {
      current' := current;
      lines', recordCount', failure := ListActivity(d, current, lines, recordCount, record);
    } else {
      current', lines', recordCount', failure := current, lines, recordCount + 1, None;
    }
  }

  /** An "A " record becomes the current organization and adds its line. */
  method ListOrg(d: Decoders, current: Option<OrgRecord>, lines: seq<Line>, recordCount: nat, record: Bytes)
    returns (current': Option<OrgRecord>, lines': seq<Line>, recordCount': nat, failure: Option<Error>)
    requires Tag(record) == "A "
    ensures Listing(current', lines', recordCount', failure) ==
              ListStep(d, Listing(current, lines, recordCount, None), record)
  {
    current', lines', recordCount', failure := current, lines, recordCount + 1, None;
    var org := d.org(record);
    if org.Failure? {
      failure := Some(org.error);
      return;
    }
    current' := Some(org.value);
    lines' := lines + [OrgLine(org.value.operatorNumber, Slice(org.value.organizationName, 0, 40),
                               org.value.p5Status)];
  }

  /** An "F " record under an organization adds its specialty code. */
  method ListSpecialty(d: Decoders, current: Option<OrgRecord>, lines: seq<Line>, recordCount: nat, record: Bytes)
    returns (lines': seq<Line>, recordCount': nat, failure: Option<Error>)
    requires Tag(record) == "F " && current.Some?
    ensures Listing(current, lines', recordCount', failure) ==
              ListStep(d, Listing(current, lines, recordCount, None), record)
  {
    lines', recordCount', failure := lines, recordCount + 1, None;
    var spec := d.specialty(record);
    if spec.Failure? {
      failure := Some(spec.error);
      return;
    }
    lines' := lines + [SpecialtyLine(spec.value.specialtyCode)];
  }

  /** A "K " record under an organization adds the officer's name and title. */
  method ListOfficer(d: Decoders, current: Option<OrgRecord>, lines: seq<Line>, recordCount: nat, record: Bytes)
    returns (lines': seq<Line>, recordCount': nat, failure: Option<Error>)
    requires Tag(record) == "K " && current.Some?
    ensures Listing(current, lines', recordCount', failure) ==
              ListStep(d, Listing(current, lines, recordCount, None), record)
  {
    lines', recordCount', failure := lines, recordCount + 1, None;
    var officer := d.officer(record);
    if officer.Failure? {
      failure := Some(officer.error);
      return;
    }
    lines' := lines + [OfficerLine(officer.value.officerName, officer.value.officerTitle)];
  }

  /** A "U " record under an organization adds its activity indicator code. */
  method ListActivity(d: Decoders, current: Option<OrgRecord>, lines: seq<Line>, recordCount: nat, record: Bytes)
    returns (lines': seq<Line>, recordCount': nat, failure: Option<Error>)
    requires Tag(record) == "U " && current.Some?
    ensures Listing(current, lines', recordCount', failure) ==
              ListStep(d, Listing(current, lines, recordCount, None), record)
  {
    lines', recordCount', failure := lines, recordCount + 1, None;
    var act := d.activity(record);
    if act.Failure? {
      failure := Some(act.error);
      return;
    }
    lines' := lines + [ActivityLine(act.value.actIndCode)];
  }

  // ---------------------------------------------------------------------------
  // What the listing loop promises

  /** Every full record is counted, the skipped "1T" records included. */
  lemma {:induction false} EveryRecordCounted(d: Decoders, records: seq<Bytes>)
    requires ListingOf(d, records).failure.None?
    ensures ListingOf(d, records).recordCount == |records|
  {
    if records != [] {
      EveryRecordCounted(d, records[..|records| - 1]);
    }
  }

  /** Before the first "A " record nothing is reported: specialty codes, officers and activity
      indicators without an organization produce no line. */
  lemma {:induction false} NothingBeforeFirstOrg(d: Decoders, records: seq<Bytes>)
    requires CountTag(records, "A ") == 0
    ensures ListingOf(d, records) == Listing(None, [], |records|, None)
  {
    if records != [] {
      NothingBeforeFirstOrg(d, records[..|records| - 1]);
    }
  }

  /** A record that is "1T" or carries an unknown tag is counted and nothing else. */
  lemma SkippedRecord(d: Decoders, records: seq<Bytes>, record: Bytes)
    requires ListingOf(d, records).failure.None?
    requires Tag(record) == "1T" || (Tag(record) != "A " && Tag(record) != "F " && Tag(record) != "K " && Tag(record) != "U ")
    ensures ListingOf(d, records + [record]) ==
              ListingOf(d, records).(recordCount := ListingOf(d, records).recordCount + 1)
  {
    assert (records + [record])[..|records|] == records;
  }

  /** The name printed for an organization is never cut: a stripped 32-byte field is shorter
      than the 40 characters `organization_name[:40]` keeps. */
  lemma OrgNameNotCut(data: Bytes)
    ensures Slice(OrganizationName(data), 0, 40) == OrganizationName(data)
  {
  }
}
