/** The P-5 table loader: it reads 350-byte records and writes one row per organization,
    specialty code, officer and activity indicator record, each decoded on its own. Unlike the
    listing loop it does not wait for an organization before writing the records that belong
    to one. */
module P5Loader {
  import opened Results
  import opened Cp500
  import opened Stream
  import opened P5

  /** The four tables written so far, the number of full records read, and the error that
      ended the run, if a decoder raised. Every row holds every field of its record, so a row
      is the decoded record. */
  datatype Tables = Tables(
    orgRows: seq<OrgRecord>,
    specialtyRows: seq<SpecialtyCodeRecord>,
    officerRows: seq<OfficerRecord>,
    activityRows: seq<ActivityIndicatorRecord>,
    recordCount: nat,
    failure: Option<Error>)

  const Empty: Tables := Tables([], [], [], [], 0, None)

  // ---------------------------------------------------------------------------
  // The specification of the loader

  /** One full record: it is counted; a "1T" record is then skipped, and an "A ", "F ", "K " or
      "U " record is decoded and written to its table. Every other record is only counted. */
  function Step(d: Decoders, s: Tables, record: Bytes): (r: Tables)
    requires s.failure.None?
    ensures r.recordCount == s.recordCount + 1
  {
    var s := s.(recordCount := s.recordCount + 1);
    var tag := Tag(record);
    if tag == "1T" then s
    else if tag == "A " then
      match d.org(record)
      case Failure(e) => s.(failure := Some(e))
      case Success(org) => s.(orgRows := s.orgRows + [org])
    else if tag == "F " then
      match d.specialty(record)
      case Failure(e) => s.(failure := Some(e))
      case Success(spec) => s.(specialtyRows := s.specialtyRows + [spec])
    else if tag == "K " then
      match d.officer(record)
      case Failure(e) => s.(failure := Some(e))
      case Success(officer) => s.(officerRows := s.officerRows + [officer])
    else if tag == "U " then
      match d.activity(record)
      case Failure(e) => s.(failure := Some(e))
      case Success(act) => s.(activityRows := s.activityRows + [act])
    else s
  }

  /** The tables after the given full records; a raised error ends the run. */
  function Run(d: Decoders, records: seq<Bytes>): (r: Tables)
    ensures r.recordCount <= |records|
    ensures r.failure.None? ==> r.recordCount == |records|
  {
    if records == [] then Empty
    else
      var s := Run(d, records[..|records| - 1]);
      if s.failure.Some? then s else Step(d, s, records[|records| - 1])
  }

  /** The tables after one more record. */
  lemma RunNext(d: Decoders, records: seq<Bytes>, i: nat)
    requires i < |records| && Run(d, records[..i]).failure.None?
    ensures Run(d, records[..i + 1]) == Step(d, Run(d, records[..i]), records[i])
  {
    assert records[..i + 1][..i] == records[..i];
  }

  /** Once a decoder has raised, later records change nothing. */
  lemma {:induction false} RunStops(d: Decoders, records: seq<Bytes>, n: nat)
    requires n <= |records|
    requires Run(d, records[..n]).failure.Some?
    ensures Run(d, records) == Run(d, records[..n])
    decreases |records| - n
  {
    if n < |records| {
      assert records[..n + 1][..n] == records[..n];
      RunStops(d, records, n + 1);
      assert records[..|records|] == records;
    } else {
      assert records[..n] == records;
    }
  }

  // ---------------------------------------------------------------------------
  // The loader

  /** The four row counters of `main`, one per table. */
  datatype Counts = Counts(org: nat, specialty: nat, officer: nat, activity: nat)

  /** Each counter is the number of rows written to its table. */
  predicate Counted(c: Counts, s: Tables) {
    && c.org == |s.orgRows|
    && c.specialty == |s.specialtyRows|
    && c.officer == |s.officerRows|
    && c.activity == |s.activityRows|
  }

  /** The body of the read loop for one full record. */
  method HandleRecord(d: Decoders, s: Tables, c: Counts, record: Bytes) returns (s': Tables, c': Counts)
    requires s.failure.None? && Counted(c, s)
    ensures s' == Step(d, s, record) && Counted(c', s')
  {
    var tag := Tag(record);
    s', c' := s.(recordCount := s.recordCount + 1), c;
    if tag == "1T" {
      return;
    } else if tag == "A " {
      s', c' := WriteOrg(d, s, c, record);
    } else if tag == "F " {
      s', c' := WriteSpecialty(d, s, c, record);
    } else if tag == "K " {
      s', c' := WriteOfficer(d, s, c, record);
    } else if tag == "U " {
      s', c' := WriteActivity(d, s, c, record);
    }
  }

  /** An "A " record: decode it and write its row. */
  method WriteOrg(d: Decoders, s: Tables, c: Counts, record: Bytes) returns (s': Tables, c': Counts)
    requires s.failure.None? && Counted(c, s) && Tag(record) == "A "
    ensures s' == Step(d, s, record) && Counted(c', s')
  {
    s', c' := s.(recordCount := s.recordCount + 1), c;
    var org := d.org(record);
    if org.Failure? {
      s' := s'.(failure := Some(org.error));
      return;
    }
    s', c' := s'.(orgRows := s.orgRows + [org.value]), c.(org := c.org + 1);
  }

  /** An "F " record: decode it and write its row. */
  method WriteSpecialty(d: Decoders, s: Tables, c: Counts, record: Bytes) returns (s': Tables, c': Counts)
    requires s.failure.None? && Counted(c, s) && Tag(record) == "F "
    ensures s' == Step(d, s, record) && Counted(c', s')
  {
    s', c' := s.(recordCount := s.recordCount + 1), c;
    var spec := d.specialty(record);
    if spec.Failure? {
      s' := s'.(failure := Some(spec.error));
      return;
    }
    s', c' := s'.(specialtyRows := s.specialtyRows + [spec.value]), c.(specialty := c.specialty + 1);
  }

  /** A "K " record: decode it and write its row. */
  method WriteOfficer(d: Decoders, s: Tables, c: Counts, record: Bytes) returns (s': Tables, c': Counts)
    requires s.failure.None? && Counted(c, s) && Tag(record) == "K "
    ensures s' == Step(d, s, record) && Counted(c', s')
  {
    s', c' := s.(recordCount := s.recordCount + 1), c;
    var officer := d.officer(record);
    if officer.Failure? {
      s' := s'.(failure := Some(officer.error));
      return;
    }
    s', c' := s'.(officerRows := s.officerRows + [officer.value]), c.(officer := c.officer + 1);
  }

  /** A "U " record: decode it and write its row. */
  method WriteActivity(d: Decoders, s: Tables, c: Counts, record: Bytes) returns (s': Tables, c': Counts)
    requires s.failure.None? && Counted(c, s) && Tag(record) == "U "
    ensures s' == Step(d, s, record) && Counted(c', s')
  {
    s', c' := s.(recordCount := s.recordCount + 1), c;
    var act := d.activity(record);
    if act.Failure? {
      s' := s'.(failure := Some(act.error));
      return;
    }
    s', c' := s'.(activityRows := s.activityRows + [act.value]), c.(activity := c.activity + 1);
  }

  /** `main` of the loader script: handle 350-byte records until a short read. The locals of
      `main` are the fields of `s` and `c`. */
  method LoadTables(d: Decoders, chunks: seq<Bytes>) returns (s: Tables, c: Counts)
    ensures s == Run(d, FullRecords(chunks, RecordLength)) && Counted(c, s)
  {
    ghost var records := FullRecords(chunks, RecordLength);
    s, c := Empty, Counts(0, 0, 0, 0);
    var i := 0;
    while i < |chunks|
      invariant i <= |records|
      invariant s.failure.None? && Counted(c, s)
      invariant s == Run(d, records[..i])
    {
      var record := chunks[i];
      if record == [] || |record| < RecordLength {
        break;
      }
      assert i < |records| && records[i] == record;
      s, c := HandleRecord(d, s, c, record);
      RunNext(d, records, i);
      if s.failure.Some? {
        RunStops(d, records, i + 1);
        return;
      }
      i := i + 1;
    }
    FullRecordsEnd(chunks, RecordLength, i);
  }

  /** The loader with the decoders of the P-5 record module. */
  method CreateP5Db(chunks: seq<Bytes>) returns (s: Tables, c: Counts)
    ensures s == Run(ScriptDecoders, FullRecords(chunks, RecordLength)) && Counted(c, s)
  {
    s, c := LoadTables(ScriptDecoders, chunks);
  }

  // ---------------------------------------------------------------------------
  // What the loader promises

  /** The records that carry the given tag, in order. */
  function Tagged(records: seq<Bytes>, tag: string): (r: seq<Bytes>)
    ensures |r| == CountTag(records, tag)
  {
    if records == [] then []
    else
      var prefix := Tagged(records[..|records| - 1], tag);
      if Tag(records[|records| - 1]) == tag then prefix + [records[|records| - 1]] else prefix
  }

  /** Every record decoded in order; the first error raised is the result. */
  function DecodeAll<T>(decode: Bytes -> Result<T>, records: seq<Bytes>): (r: Result<seq<T>>)
    ensures r.Success? ==> |r.value| == |records|
  {
    if records == [] then Success([])
    else
      var prefix :- DecodeAll(decode, records[..|records| - 1]);
      var last :- decode(records[|records| - 1]);
      Success(prefix + [last])
  }

  /** Without an error, each table holds exactly the decoded records of its tag, in the order
      read, whether or not an organization came before them, and every record was counted,
      the skipped "1T" records included. */
  lemma {:induction false} TablesHoldTaggedRecords(d: Decoders, records: seq<Bytes>)
    requires Run(d, records).failure.None?
    ensures var s := Run(d, records);
            && DecodeAll(d.org, Tagged(records, "A ")) == Success(s.orgRows)
            && DecodeAll(d.specialty, Tagged(records, "F ")) == Success(s.specialtyRows)
            && DecodeAll(d.officer, Tagged(records, "K ")) == Success(s.officerRows)
            && DecodeAll(d.activity, Tagged(records, "U ")) == Success(s.activityRows)
            && s.recordCount == |records|
  {
    if records != [] {
      var prefix := records[..|records| - 1];
      var last := records[|records| - 1];
      TablesHoldTaggedRecords(d, prefix);
      StepWrites(d, Run(d, prefix), last);
      DecodeAllNext(d.org, prefix, last, "A ");
      DecodeAllNext(d.specialty, prefix, last, "F ");
      DecodeAllNext(d.officer, prefix, last, "K ");
      DecodeAllNext(d.activity, prefix, last, "U ");
    }
  }

  /** What one record that raises nothing writes: a row of its own table, decoded from it, and
      nothing else. */
  lemma StepWrites(d: Decoders, s: Tables, record: Bytes)
    requires s.failure.None? && Step(d, s, record).failure.None?
    ensures var r := Step(d, s, record);
            && (Tag(record) == "A " ==> d.org(record).Success? && r.orgRows == s.orgRows + [d.org(record).value])
            && (Tag(record) != "A " ==> r.orgRows == s.orgRows)
            && (Tag(record) == "F " ==> d.specialty(record).Success? &&
                                        r.specialtyRows == s.specialtyRows + [d.specialty(record).value])
            && (Tag(record) != "F " ==> r.specialtyRows == s.specialtyRows)
            && (Tag(record) == "K " ==> d.officer(record).Success? && r.officerRows == s.officerRows + [d.officer(record).value])
            && (Tag(record) != "K " ==> r.officerRows == s.officerRows)
            && (Tag(record) == "U " ==> d.activity(record).Success? &&
                                        r.activityRows == s.activityRows + [d.activity(record).value])
            && (Tag(record) != "U " ==> r.activityRows == s.activityRows)
  {
  }

  /** Decoding the tagged records of one more record. */
  lemma DecodeAllNext<T>(decode: Bytes -> Result<T>, prefix: seq<Bytes>, last: Bytes, tag: string)
    ensures Tagged(prefix + [last], tag) ==
              if Tag(last) == tag then Tagged(prefix, tag) + [last] else Tagged(prefix, tag)
    ensures Tag(last) == tag ==>
              DecodeAll(decode, Tagged(prefix + [last], tag)) ==
                var r :- DecodeAll(decode, Tagged(prefix, tag));
                var v :- decode(last);
                Success(r + [v])
  {
    assert (prefix + [last])[..|prefix|] == prefix;
    if Tag(last) == tag {
      var t := Tagged(prefix, tag) + [last];
      assert t[..|t| - 1] == Tagged(prefix, tag);
    }
  }

  /** A "1T" record, or one of a tag the loader does not know, is counted and nothing else. */
  lemma SkippedRecord(d: Decoders, s: Tables, record: Bytes)
    requires s.failure.None?
    requires Tag(record) != "A " && Tag(record) != "F " && Tag(record) != "K " && Tag(record) != "U "
    ensures Step(d, s, record) == s.(recordCount := s.recordCount + 1)
  {
  }
}
