/** The Well Bore table loader: it reads 247-byte records, writes each root record, and writes
    the new location (tag 13) and well-ID (tag 21) records that follow a root under the API key
    of that root. */
module WellboreLoader {
  import opened Results
  import opened Cp500
  import opened Stream
  import opened Wellbore

  /** Every Well Bore record is 247 bytes long. */
  const RecordLength: nat := 247

  /** `current_api`: the API county and unique number of the latest root. */
  datatype ApiKey = ApiKey(county: int, unique: int)

  function RootApi(root: RootRecord): ApiKey {
    ApiKey(root.apiCounty, root.apiUnique)
  }

  function LocationApi(location: NewLocationRecord): ApiKey {
    ApiKey(location.apiCounty, location.apiUnique)
  }

  /** The three decoders the loader calls, for records 01, 13 and 21; the last two are given the
      current API key. The well-ID decoder is not part of this model, so the loader is stated
      for any decoders, with the well-ID record (`W`) handled as an opaque value. */
  datatype Decoders<W> = Decoders(
    root: Bytes -> Result<RootRecord>,
    location: (Bytes, int, int) -> Result<NewLocationRecord>,
    wellId: (Bytes, int, int) -> Result<W>)

  /** The current API key, the three tables written so far (a row holds every field of its
      record, so a row is the decoded record), the number of full records read, and the error
      that ended the run, if a decoder raised. */
  datatype Tables<W> = Tables(
    currentApi: Option<ApiKey>,
    rootRows: seq<RootRecord>,
    locationRows: seq<NewLocationRecord>,
    wellIdRows: seq<W>,
    recordCount: nat,
    failure: Option<Error>)

  function Empty<W>(): Tables<W> {
    Tables(None, [], [], [], 0, None)
  }

  // ---------------------------------------------------------------------------
  // The specification of the loader

  /** One full record: it is counted; a 01 record is decoded, written, and its API key becomes
      the current one; a 13 or 21 record is decoded with the current API key and written, but
      only once there is one. Every other record is only counted. */
  function Step<W>(d: Decoders<W>, s: Tables<W>, record: Bytes): (r: Tables<W>)
    requires s.failure.None?
    ensures r.recordCount == s.recordCount + 1
  {
    var s := s.(recordCount := s.recordCount + 1);
    var tag := Tag(record);
    if tag == "01" then
      match d.root(record)
      case Failure(e) => s.(failure := Some(e))
      case Success(root) => s.(currentApi := Some(RootApi(root)), rootRows := s.rootRows + [root])
    else if tag == "13" && s.currentApi.Some? then
      match d.location(record, s.currentApi.value.county, s.currentApi.value.unique)
      case Failure(e) => s.(failure := Some(e))
      case Success(location) => s.(locationRows := s.locationRows + [location])
    else if tag == "21" && s.currentApi.Some? then
      match d.wellId(record, s.currentApi.value.county, s.currentApi.value.unique)
      case Failure(e) => s.(failure := Some(e))
      case Success(wellId) => s.(wellIdRows := s.wellIdRows + [wellId])
    else s
  }

  /** The tables after the given full records; a raised error ends the run. */
  function Run<W>(d: Decoders<W>, records: seq<Bytes>): (r: Tables<W>)
    ensures r.recordCount <= |records|
    ensures r.failure.None? ==> r.recordCount == |records|
  {
    if records == [] then Empty()
    else
      var s := Run(d, records[..|records| - 1]);
      if s.failure.Some? then s else Step(d, s, records[|records| - 1])
  }

  /** The tables after one more record. */
  lemma RunNext<W>(d: Decoders<W>, records: seq<Bytes>, i: nat)
    requires i < |records| && Run(d, records[..i]).failure.None?
    ensures Run(d, records[..i + 1]) == Step(d, Run(d, records[..i]), records[i])
  {
    assert records[..i + 1][..i] == records[..i];
  }

  /** Once a decoder has raised, later records change nothing. */
  lemma {:induction false} RunStops<W>(d: Decoders<W>, records: seq<Bytes>, n: nat)
    requires n <= |records|
    requires Run(d, records[..n]).failure.Some?
    ensures Run(d, records) == Run(d, records[..n])
    decreases |records| - n
  {
    if n < |records| {
      assert records[..n + 1][..n] == records[..n];
      RunStops(d, records, n + 1);
      assert records[..|records|] == records;
    } else {
      assert records[..n] == records;
    }
  }

  // ---------------------------------------------------------------------------
  // The loader

  /** The three row counters of `main`, one per table. */
  datatype Counts = Counts(root: nat, location: nat, wellId: nat)

  /** Each counter is the number of rows written to its table. */
  predicate Counted<W>(c: Counts, s: Tables<W>) {
    && c.root == |s.rootRows|
    && c.location == |s.locationRows|
    && c.wellId == |s.wellIdRows|
  }

  /** The body of the read loop for one full record. */
  method HandleRecord<W>(d: Decoders<W>, s: Tables<W>, c: Counts, record: Bytes)
    returns (s': Tables<W>, c': Counts)
    requires s.failure.None? && Counted(c, s)
    ensures s' == Step(d, s, record) && Counted(c', s')
  {
    var tag := Tag(record);
    if tag == "01" {
      s', c' := WriteRoot(d, s, c, record);
    } else if tag == "13" && s.currentApi.Some? {
      s', c' := WriteLocation(d, s, c, record);
    } else if tag == "21" && s.currentApi.Some? {
      s', c' := WriteWellId(d, s, c, record);
    } else {
      s', c' := s.(recordCount := s.recordCount + 1), c;
    }
  }

  /** A 01 record: decode it, make its API key the current one and write its row. */
  method WriteRoot<W>(d: Decoders<W>, s: Tables<W>, c: Counts, record: Bytes) returns (s': Tables<W>, c': Counts)
    requires s.failure.None? && Counted(c, s) && Tag(record) == "01"
    ensures s' == Step(d, s, record) && Counted(c', s')
  {
    s', c' := s.(recordCount := s.recordCount + 1), c;
    var root := d.root(record);
    if root.Failure? {
      s' := s'.(failure := Some(root.error));
      return;
    }
    s' := s'.(currentApi := Some(RootApi(root.value)), rootRows := s.rootRows + [root.value]);
    c' := c.(root := c.root + 1);
  }

  /** A 13 record under a current API key: decode it with that key and write its row. */
  method WriteLocation<W>(d: Decoders<W>, s: Tables<W>, c: Counts, record: Bytes) returns (s': Tables<W>, c': Counts)
    requires s.failure.None? && Counted(c, s) && Tag(record) == "13" && s.currentApi.Some?
    ensures s' == Step(d, s, record) && Counted(c', s')
  {
    s', c' := s.(recordCount := s.recordCount + 1), c;
    var api := s.currentApi.value;
    var location := d.location(record, api.county, api.unique);
    if location.Failure? {
      s' := s'.(failure := Some(location.error));
      return;
    }
    s', c' := s'.(locationRows := s.locationRows + [location.value]), c.(location := c.location + 1);
  }

  /** A 21 record under a current API key: decode it with that key and write its row. */
  method WriteWellId<W>(d: Decoders<W>, s: Tables<W>, c: Counts, record: Bytes) returns (s': Tables<W>, c': Counts)
    requires s.failure.None? && Counted(c, s) && Tag(record) == "21" && s.currentApi.Some?
    ensures s' == Step(d, s, record) && Counted(c', s')
  {
    s', c' := s.(recordCount := s.recordCount + 1), c;
    var api := s.currentApi.value;
    var wellId := d.wellId(record, api.county, api.unique);
    if wellId.Failure? {
      s' := s'.(failure := Some(wellId.error));
      return;
    }
    s', c' := s'.(wellIdRows := s.wellIdRows + [wellId.value]), c.(wellId := c.wellId + 1);
  }

  /** `main` of the loader script: handle 247-byte records until a short read. The locals of
      `main` are the fields of `s` and `c`. */
  method LoadTables<W>(d: Decoders<W>, chunks: seq<Bytes>) returns (s: Tables<W>, c: Counts)
    ensures s == Run(d, FullRecords(chunks, RecordLength)) && Counted(c, s)
  {
    ghost var records := FullRecords(chunks, RecordLength);
    s, c := Empty(), Counts(0, 0, 0);
    var i := 0;
    while i < |chunks|
      invariant i <= |records|
      invariant s.failure.None? && Counted(c, s)
      invariant s == Run(d, records[..i])
    {
      var record := chunks[i];
      if record == [] || |record| < RecordLength {
        break;
      }
      assert i < |records| && records[i] == record;
      s, c := HandleRecord(d, s, c, record);
      RunNext(d, records, i);
      if s.failure.Some? {
        RunStops(d, records, i + 1);
        return;
      }
      i := i + 1;
    }
    FullRecordsEnd(chunks, RecordLength, i);
  }

  // ---------------------------------------------------------------------------
  // What the loader promises

  /** Location and well-ID records that come before any root are counted and dropped. */
  lemma ChildrenNeedRoot<W>(d: Decoders<W>, s: Tables<W>, record: Bytes)
    requires s.failure.None? && s.currentApi.None? && Tag(record) != "01"
    ensures Step(d, s, record) == s.(recordCount := s.recordCount + 1)
  {
  }

  /** Under a current API key, a location or well-ID record is decoded with that key, and the
      key stays current. */
  lemma ChildrenUseCurrentApi<W>(d: Decoders<W>, s: Tables<W>, record: Bytes)
    requires s.failure.None? && s.currentApi.Some?
    ensures var api := s.currentApi.value;
            var r := Step(d, s, record);
            && (Tag(record) == "13" && d.location(record, api.county, api.unique).Success? ==>
                  r == s.(recordCount := s.recordCount + 1,
                          locationRows := s.locationRows + [d.location(record, api.county, api.unique).value]))
            && (Tag(record) == "21" && d.wellId(record, api.county, api.unique).Success? ==>
                  r == s.(recordCount := s.recordCount + 1,
                          wellIdRows := s.wellIdRows + [d.wellId(record, api.county, api.unique).value]))
  {
  }

  /** A location decoder that takes the API key of its record from its arguments. */
  ghost predicate KeepsApi(location: (Bytes, int, int) -> Result<NewLocationRecord>) {
    forall record, county, unique ::
      location(record, county, unique).Success? ==> LocationApi(location(record, county, unique).value) == ApiKey(county, unique)
  }

  /** The decoder of the Well Bore record module is such a decoder. */
  lemma LocationDecoderKeepsApi()
    ensures KeepsApi(ParseNewLocation)
  {
    forall record, county, unique | ParseNewLocation(record, county, unique).Success?
      ensures LocationApi(ParseNewLocation(record, county, unique).value) == ApiKey(county, unique)
    {
      LocationApiFromArguments(record, county, unique, county, unique);
    }
  }

  /** The API keys of the root rows. */
  function RootApis(roots: seq<RootRecord>): set<ApiKey> {
    set k | 0 <= k < |roots| :: RootApi(roots[k])
  }

  /** Without an error, and with a location decoder that keeps the API key it is given: there
      is a current API key exactly when a root was written, it is the latest root's, every
      location row carries the API key of some root row, one root row was written per 01
      record, and every record was counted. */
  lemma {:induction false} LocationsUnderRoots<W>(d: Decoders<W>, records: seq<Bytes>)
    requires KeepsApi(d.location)
    requires Run(d, records).failure.None?
    ensures var s := Run(d, records);
            && (s.currentApi.Some? <==> s.rootRows != [])
            && (s.rootRows != [] ==> s.currentApi == Some(RootApi(s.rootRows[|s.rootRows| - 1])))
            && (forall k :: 0 <= k < |s.locationRows| ==> LocationApi(s.locationRows[k]) in RootApis(s.rootRows))
            && |s.rootRows| == CountTag(records, "01")
            && s.recordCount == |records|
  {
    if records != [] {
      var prefix := records[..|records| - 1];
      LocationsUnderRoots(d, prefix);
      StepKeepsRoots(d, Run(d, prefix), records[|records| - 1]);
    }
  }

  /** One record that raises nothing keeps the relation between the current API key, the root
      rows and the location rows. */
  lemma StepKeepsRoots<W>(d: Decoders<W>, s: Tables<W>, record: Bytes)
    requires KeepsApi(d.location)
    requires s.failure.None? && Step(d, s, record).failure.None?
    requires s.currentApi.Some? <==> s.rootRows != []
    requires s.rootRows != [] ==> s.currentApi == Some(RootApi(s.rootRows[|s.rootRows| - 1]))
    requires forall k :: 0 <= k < |s.locationRows| ==> LocationApi(s.locationRows[k]) in RootApis(s.rootRows)
    ensures var r := Step(d, s, record);
            && (r.currentApi.Some? <==> r.rootRows != [])
            && (r.rootRows != [] ==> r.currentApi == Some(RootApi(r.rootRows[|r.rootRows| - 1])))
            && (forall k :: 0 <= k < |r.locationRows| ==> LocationApi(r.locationRows[k]) in RootApis(r.rootRows))
            && |r.rootRows| == |s.rootRows| + (if Tag(record) == "01" then 1 else 0)
  {
    var r := Step(d, s, record);
    if Tag(record) == "01" {
      assert RootApis(s.rootRows) <= RootApis(r.rootRows) by {
        forall a | a in RootApis(s.rootRows) ensures a in RootApis(r.rootRows) {
          var k :| 0 <= k < |s.rootRows| && a == RootApi(s.rootRows[k]);
          assert r.rootRows[k] == s.rootRows[k];
        }
      }
    } else if Tag(record) == "13" && s.currentApi.Some? {
      var last := |s.rootRows| - 1;
      assert RootApi(s.rootRows[last]) in RootApis(s.rootRows);
    }
  }

  /** The loader with the decoders of the Well Bore record module and a given well-ID decoder:
      without an error, every location row carries the API key of some row of the root table. */
  method CreateWellboreDb<W>(wellId: (Bytes, int, int) -> Result<W>, chunks: seq<Bytes>)
    returns (s: Tables<W>, c: Counts)
    ensures s == Run(Decoders(ParseRoot, ParseNewLocation, wellId), FullRecords(chunks, RecordLength))
    ensures Counted(c, s)
    ensures s.failure.None? ==>
              forall k :: 0 <= k < |s.locationRows| ==> LocationApi(s.locationRows[k]) in RootApis(s.rootRows)
  {
    var d := Decoders(ParseRoot, ParseNewLocation, wellId);
    s, c := LoadTables(d, chunks);
    if s.failure.None? {
      LocationDecoderKeepsApi();
      LocationsUnderRoots(d, FullRecords(chunks, RecordLength));
    }
  }
}
