/** The P-4 table loader: it reads 92-byte records, writes each lease root as soon as it is
    read, and buffers the lease's info, gatherer/purchaser (GPN) and lease name records until
    the next root or the end of the stream, when it writes them under the lease's key. */
module P4Loader {
  import opened Results
  import opened Cp500
  import opened Stream
  import opened P4

  /** The key every child row of a lease carries: `(oil_gas_code, district, lease_rrcid)`. */
  datatype LeaseKey = LeaseKey(oilGasCode: string, district: int, leaseRrcid: int)

  function KeyOf(root: LeaseRecord): LeaseKey {
    LeaseKey(root.oilGasCode, root.district, root.leaseRrcid)
  }

  /** The four decoders the loader calls, for records 01, 02, 03 and 07, and the sequence date
      key of an info record. The root and info decoders are not part of this model, so the
      loader is stated for any decoders; the info record (`I`) and the GPN record (`G`) are
      handled as opaque values. */
  datatype Decoders<!I, G> = Decoders(
    root: Bytes -> Result<LeaseRecord>,
    info: Bytes -> Result<I>,
    sequenceDateKey: I -> int,
    gpn: Bytes -> Result<G>,
    leaseName: Bytes -> Result<LeaseNameRecord>)

  /** A GPN record waiting in the buffer with the sequence date key it was paired with. */
  datatype PendingGpn<G> = PendingGpn(sequenceDateKey: int, gpn: G)

  /** The rows of the info, GPN and lease name tables: the buffered record under its lease's
      key. */
  datatype InfoRow<I> = InfoRow(key: LeaseKey, info: I)
  datatype GpnRow<G> = GpnRow(key: LeaseKey, sequenceDateKey: int, gpn: G)
  datatype LeaseNameRow = LeaseNameRow(key: LeaseKey, leaseName: LeaseNameRecord)

  /** The loader's state: the current lease key, the three buffers, the four tables written so
      far, the number of full records read, and the error that ended the run, if a decoder
      raised. */
  datatype Load<I, G> = Load(
    currentLeaseKey: Option<LeaseKey>,
    infoRecords: seq<I>,
    gpnRecords: seq<PendingGpn<G>>,
    leaseNameRecords: seq<LeaseNameRecord>,
    rootRows: seq<LeaseRecord>,
    infoRows: seq<InfoRow<I>>,
    gpnRows: seq<GpnRow<G>>,
    leaseNameRows: seq<LeaseNameRow>,
    recordCount: nat,
    failure: Option<Error>)

  function Initial<I, G>(): Load<I, G> {
    Load(None, [], [], [], [], [], [], [], 0, None)
  }

  // ---------------------------------------------------------------------------
  // The specification of the loader

  /** The info rows of a flush: one per buffered record, in order, each under `key`. */
  function InfoRowsOf<I>(key: LeaseKey, infos: seq<I>): (rows: seq<InfoRow<I>>)
    ensures |rows| == |infos|
    ensures forall k :: 0 <= k < |infos| ==> rows[k] == InfoRow(key, infos[k])
  {
    if infos == [] then []
    else InfoRowsOf(key, infos[..|infos| - 1]) + [InfoRow(key, infos[|infos| - 1])]
  }

  /** The GPN rows of a flush: one per buffered record, in order, each under `key` with the
      sequence date key it was paired with. */
  function GpnRowsOf<G>(key: LeaseKey, gpns: seq<PendingGpn<G>>): (rows: seq<GpnRow<G>>)
    ensures |rows| == |gpns|
    ensures forall k :: 0 <= k < |gpns| ==> rows[k] == GpnRow(key, gpns[k].sequenceDateKey, gpns[k].gpn)
  {
    if gpns == [] then []
    else
      var last := gpns[|gpns| - 1];
      GpnRowsOf(key, gpns[..|gpns| - 1]) + [GpnRow(key, last.sequenceDateKey, last.gpn)]
  }

  /** The lease name rows of a flush: one per buffered record, in order, each under `key`. */
  function LeaseNameRowsOf(key: LeaseKey, names: seq<LeaseNameRecord>): (rows: seq<LeaseNameRow>)
    ensures |rows| == |names|
    ensures forall k :: 0 <= k < |names| ==> rows[k] == LeaseNameRow(key, names[k])
  {
    if names == [] then []
    else LeaseNameRowsOf(key, names[..|names| - 1]) + [LeaseNameRow(key, names[|names| - 1])]
  }

  /** `write_lease`: the buffered info, GPN and lease name records are appended to their tables
      under the current key. The buffers themselves are left as they are. */
  function Flush<I, G>(s: Load<I, G>): (r: Load<I, G>)
    requires s.currentLeaseKey.Some?
    ensures r.rootRows == s.rootRows && r.recordCount == s.recordCount
    ensures |r.infoRows| == |s.infoRows| + |s.infoRecords| && |r.gpnRows| == |s.gpnRows| + |s.gpnRecords|
    ensures |r.leaseNameRows| == |s.leaseNameRows| + |s.leaseNameRecords|
  {
    var key := s.currentLeaseKey.value;
    s.(infoRows := s.infoRows + InfoRowsOf(key, s.infoRecords),
       gpnRows := s.gpnRows + GpnRowsOf(key, s.gpnRecords),
       leaseNameRows := s.leaseNameRows + LeaseNameRowsOf(key, s.leaseNameRecords))
  }

  /** One full record. A 01 record flushes the previous lease, if there is one, before its own
      root is decoded; then the root row is written, its key becomes the current one and the
      buffers are emptied. A 02 or 07 record is buffered only under a current lease, a 03 record
      only when the current lease already has an info record, whose sequence date key it takes;
      a lease name that strips to nothing is dropped. Every other record is only counted. */
  function Step<I, G>(d: Decoders<I, G>, s: Load<I, G>, record: Bytes): (r: Load<I, G>)
    requires s.failure.None?
    ensures r.recordCount == s.recordCount + 1
  {
    var s := s.(recordCount := s.recordCount + 1);
    var tag := Tag(record);
    if tag == "01" then
      var s := if s.currentLeaseKey.Some? then Flush(s) else s;
      match d.root(record)
      case Failure(e) => s.(failure := Some(e))
      case Success(root) =>
        s.(currentLeaseKey := Some(KeyOf(root)), rootRows := s.rootRows + [root],
           infoRecords := [], gpnRecords := [], leaseNameRecords := [])
    else if tag == "02" && s.currentLeaseKey.Some? then
      match d.info(record)
      case Failure(e) => s.(failure := Some(e))
      case Success(info) => s.(infoRecords := s.infoRecords + [info])
    else if tag == "03" && s.currentLeaseKey.Some? && s.infoRecords != [] then
      match d.gpn(record)
      case Failure(e) => s.(failure := Some(e))
      case Success(gpn) =>
        var key := d.sequenceDateKey(s.infoRecords[|s.infoRecords| - 1]);
        s.(gpnRecords := s.gpnRecords + [PendingGpn(key, gpn)])
    else if tag == "07" && s.currentLeaseKey.Some? then
      match d.leaseName(record)
      case Failure(e) => s.(failure := Some(e))
      case Success(name) =>
        if name.leaseName != [] then s.(leaseNameRecords := s.leaseNameRecords + [name]) else s
    else s
  }

  /** The state after the given full records; a raised error ends the run. */
  function Run<I, G>(d: Decoders<I, G>, records: seq<Bytes>): (r: Load<I, G>)
    ensures r.recordCount <= |records|
    ensures r.failure.None? ==> r.recordCount == |records|
  {
    if records == [] then Initial()
    else
      var s := Run(d, records[..|records| - 1]);
      if s.failure.Some? then s else Step(d, s, records[|records| - 1])
  }

  /** The end of the stream: the last lease is flushed, if a root was seen. A raised error
      skips this. */
  function Finish<I, G>(s: Load<I, G>): (r: Load<I, G>)
    ensures r.rootRows == s.rootRows && r.recordCount == s.recordCount && r.failure == s.failure
    ensures s.failure.None? && s.currentLeaseKey.None? ==> r == s
  {
    if s.failure.None? && s.currentLeaseKey.Some? then Flush(s) else s
  }

  /** What the loader leaves behind after reading `chunks`. */
  function LoadOf<I, G>(d: Decoders<I, G>, chunks: seq<Bytes>): (r: Load<I, G>)
    ensures r.recordCount <= |chunks|
  {
    Finish(Run(d, FullRecords(chunks, RecordLength)))
  }

  /** The state after one more record. */
  lemma RunNext<I, G>(d: Decoders<I, G>, records: seq<Bytes>, i: nat)
    requires i < |records| && Run(d, records[..i]).failure.None?
    ensures Run(d, records[..i + 1]) == Step(d, Run(d, records[..i]), records[i])
  {
    assert records[..i + 1][..i] == records[..i];
  }

  /** Once a decoder has raised, later records change nothing. */
  lemma {:induction false} RunStops<I, G>(d: Decoders<I, G>, records: seq<Bytes>, n: nat)
    requires n <= |records|
    requires Run(d, records[..n]).failure.Some?
    ensures Run(d, records) == Run(d, records[..n])
    decreases |records| - n
  {
    if n < |records| {
      assert records[..n + 1][..n] == records[..n];
      RunStops(d, records, n + 1);
      assert records[..|records|] == records;
    } else {
      assert records[..n] == records;
    }
  }

  // ---------------------------------------------------------------------------
  // The three loops of `write_lease`

  /** Write one info row per buffered info record, in order, counting each. */
  method WriteInfoRows<I>(key: LeaseKey, infos: seq<I>, rows: seq<InfoRow<I>>, count: nat)
    returns (rows': seq<InfoRow<I>>, count': nat)
    requires count == |rows|
    ensures rows' == rows + InfoRowsOf(key, infos) && count' == |rows'|
  {
    rows', count' := rows, count;
    var i := 0;
    while i < |infos|
      invariant i <= |infos|
      invariant rows' == rows + InfoRowsOf(key, infos[..i]) && count' == |rows'|
    {
      assert infos[..i + 1][..i] == infos[..i];
      rows', count' := rows' + [InfoRow(key, infos[i])], count' + 1;
      i := i + 1;
    }
    assert infos[..i] == infos;
  }

  /** Write one GPN row per buffered GPN record, in order, counting each. */
  method WriteGpnRows<G>(key: LeaseKey, gpns: seq<PendingGpn<G>>, rows: seq<GpnRow<G>>, count: nat)
    returns (rows': seq<GpnRow<G>>, count': nat)
    requires count == |rows|
    ensures rows' == rows + GpnRowsOf(key, gpns) && count' == |rows'|
  {
    rows', count' := rows, count;
    var i := 0;
    while i < |gpns|
      invariant i <= |gpns|
      invariant rows' == rows + GpnRowsOf(key, gpns[..i]) && count' == |rows'|
    {
      assert gpns[..i + 1][..i] == gpns[..i];
      rows', count' := rows' + [GpnRow(key, gpns[i].sequenceDateKey, gpns[i].gpn)], count' + 1;
      i := i + 1;
    }
    assert gpns[..i] == gpns;
  }

  /** Write one lease name row per buffered lease name record, in order, counting each. */
  method WriteLeaseNameRows(key: LeaseKey, names: seq<LeaseNameRecord>, rows: seq<LeaseNameRow>, count: nat)
    returns (rows': seq<LeaseNameRow>, count': nat)
    requires count == |rows|
    ensures rows' == rows + LeaseNameRowsOf(key, names) && count' == |rows'|
  {
    rows', count' := rows, count;
    var i := 0;
    while i < |names|
      invariant i <= |names|
      invariant rows' == rows + LeaseNameRowsOf(key, names[..i]) && count' == |rows'|
    {
      assert names[..i + 1][..i] == names[..i];
      rows', count' := rows' + [LeaseNameRow(key, names[i])], count' + 1;
      i := i + 1;
    }
    assert names[..i] == names;
  }

  // ---------------------------------------------------------------------------
  // The loader

  /** The four row counters of `main`, one per table. */
  datatype Counts = Counts(root: nat, info: nat, gpn: nat, leaseName: nat)

  /** Each counter is the number of rows written to its table. */
  predicate Counted<I, G>(c: Counts, s: Load<I, G>) {
    && c.root == |s.rootRows|
    && c.info == |s.infoRows|
    && c.gpn == |s.gpnRows|
    && c.leaseName == |s.leaseNameRows|
  }

  /** `write_lease`: write the buffered records under the current key, one row at a time,
      counting each. */
  method WriteLease<I, G>(s: Load<I, G>, c: Counts) returns (s': Load<I, G>, c': Counts)
    requires s.currentLeaseKey.Some? && Counted(c, s)
    ensures s' == Flush(s) && Counted(c', s')
  {
    var key := s.currentLeaseKey.value;
    var infoRows, infoCount := WriteInfoRows(key, s.infoRecords, s.infoRows, c.info);
    var gpnRows, gpnCount := WriteGpnRows(key, s.gpnRecords, s.gpnRows, c.gpn);
    var leaseNameRows, leaseNameCount := WriteLeaseNameRows(key, s.leaseNameRecords, s.leaseNameRows, c.leaseName);
    s' := s.(infoRows := infoRows, gpnRows := gpnRows, leaseNameRows := leaseNameRows);
    c' := c.(info := infoCount, gpn := gpnCount, leaseName := leaseNameCount);
  }

  /** The body of the read loop for one full record. */
  method HandleRecord<I, G>(d: Decoders<I, G>, s: Load<I, G>, c: Counts, record: Bytes)
    returns (s': Load<I, G>, c': Counts)
    requires s.failure.None? && Counted(c, s)
    ensures s' == Step(d, s, record) && Counted(c', s')
  {
    var tag := Tag(record);
    c' := c;
    if tag == "01" {
      s', c' := HandleRoot(d, s, c, record);
    } else if tag == "02" && s.currentLeaseKey.Some? {
      s' := HandleInfo(d, s, record);
    } else if tag == "03" && s.currentLeaseKey.Some? && s.infoRecords != [] {
      s' := HandleGpn(d, s, record);
    } else if tag == "07" && s.currentLeaseKey.Some? {
      s' := HandleLeaseName(d, s, record);
    } else {
      s' := s.(recordCount := s.recordCount + 1);
    }
  }

  /** A 01 record: flush the previous lease, then write the root and start the new lease. */
  method HandleRoot<I, G>(d: Decoders<I, G>, s: Load<I, G>, c: Counts, record: Bytes)
    returns (s': Load<I, G>, c': Counts)
    requires s.failure.None? && Counted(c, s) && Tag(record) == "01"
    ensures s' == Step(d, s, record) && Counted(c', s')
  {
    s', c' := s.(recordCount := s.recordCount + 1), c;
    if s'.currentLeaseKey.Some? {
      s', c' := WriteLease(s', c');
    }
    var root := d.root(record);
    if root.Failure? {
      s' := s'.(failure := Some(root.error));
      return;
    }
    s' := s'.(currentLeaseKey := Some(KeyOf(root.value)), rootRows := s'.rootRows + [root.value],
              infoRecords := [], gpnRecords := [], leaseNameRecords := []);
    c' := c'.(root := c'.root + 1);
  }

  /** A 02 record under a current lease: buffer its info record. */
  method HandleInfo<I, G>(d: Decoders<I, G>, s: Load<I, G>, record: Bytes) returns (s': Load<I, G>)
    requires s.failure.None? && Tag(record) == "02" && s.currentLeaseKey.Some?
    ensures s' == Step(d, s, record)
  {
    s' := s.(recordCount := s.recordCount + 1);
    var info := d.info(record);
    if info.Failure? {
      s' := s'.(failure := Some(info.error));
      return;
    }
    s' := s'.(infoRecords := s'.infoRecords + [info.value]);
  }

  /** A 03 record under a current lease with an info record: buffer it with the sequence date
      key of the latest info record. */
  method HandleGpn<I, G>(d: Decoders<I, G>, s: Load<I, G>, record: Bytes) returns (s': Load<I, G>)
    requires s.failure.None? && Tag(record) == "03" && s.currentLeaseKey.Some? && s.infoRecords != []
    ensures s' == Step(d, s, record)
  {
    s' := s.(recordCount := s.recordCount + 1);
    var gpn := d.gpn(record);
    if gpn.Failure? {
      s' := s'.(failure := Some(gpn.error));
      return;
    }
    var key := d.sequenceDateKey(s.infoRecords[|s.infoRecords| - 1]);
    s' := s'.(gpnRecords := s'.gpnRecords + [PendingGpn(key, gpn.value)]);
  }

  /** A 07 record under a current lease: buffer it unless its name strips to nothing. */
  method HandleLeaseName<I, G>(d: Decoders<I, G>, s: Load<I, G>, record: Bytes) returns (s': Load<I, G>)
    requires s.failure.None? && Tag(record) == "07" && s.currentLeaseKey.Some?
    ensures s' == Step(d, s, record)
  {
    s' := s.(recordCount := s.recordCount + 1);
    var name := d.leaseName(record);
    if name.Failure? {
      s' := s'.(failure := Some(name.error));
      return;
    }
    if name.value.leaseName != [] {
      s' := s'.(leaseNameRecords := s'.leaseNameRecords + [name.value]);
    }
  }

  /** `main` of the loader script: handle 92-byte records until a short read, then flush the
      last lease. A raised error ends the run at once, without the final flush. The locals of
      `main` are the fields of `s` and `c`. */
  method LoadTables<I, G>(d: Decoders<I, G>, chunks: seq<Bytes>) returns (s: Load<I, G>, c: Counts)
    ensures s == LoadOf(d, chunks) && Counted(c, s)
  {
    s, c := ReadRecords(d, chunks);
    if s.failure.None? && s.currentLeaseKey.Some? {
      s, c := WriteLease(s, c);
    }
  }

  /** The read loop of `main`, up to the first short read or the first error. */
  method ReadRecords<I, G>(d: Decoders<I, G>, chunks: seq<Bytes>) returns (s: Load<I, G>, c: Counts)
    ensures s == Run(d, FullRecords(chunks, RecordLength)) && Counted(c, s)
  {
    ghost var records := FullRecords(chunks, RecordLength);
    s, c := Initial(), Counts(0, 0, 0, 0);
    var i := 0;
    while i < |chunks|
      invariant i <= |records|
      invariant s.failure.None? && Counted(c, s)
      invariant s == Run(d, records[..i])
    {
      var record := chunks[i];
      if record == [] || |record| < RecordLength {
        break;
      }
      assert i < |records| && records[i] == record;
      s, c := HandleRecord(d, s, c, record);
      RunNext(d, records, i);
      if s.failure.Some? {
        RunStops(d, records, i + 1);
        return;
      }
      i := i + 1;
    }
    FullRecordsEnd(chunks, RecordLength, i);
  }

  // ---------------------------------------------------------------------------
  // What the loader promises

  /** A root flushes the previous lease's buffers under the previous key before that key is
      replaced; a root that decodes is then written at once, its key becomes the current one,
      and the three buffers start empty. */
  lemma RootFlushesPreviousLease<I, G>(d: Decoders<I, G>, s: Load<I, G>, record: Bytes)
    requires s.failure.None? && s.currentLeaseKey.Some? && Tag(record) == "01"
    ensures var r := Step(d, s, record);
            var key := s.currentLeaseKey.value;
            && r.infoRows == s.infoRows + InfoRowsOf(key, s.infoRecords)
            && r.gpnRows == s.gpnRows + GpnRowsOf(key, s.gpnRecords)
            && r.leaseNameRows == s.leaseNameRows + LeaseNameRowsOf(key, s.leaseNameRecords)
    ensures d.root(record).Success? ==>
              var r := Step(d, s, record);
              && r.currentLeaseKey == Some(KeyOf(d.root(record).value))
              && r.rootRows == s.rootRows + [d.root(record).value]
              && r.infoRecords == [] && r.gpnRecords == [] && r.leaseNameRecords == []
  {
  }

  /** Info, GPN and lease name records that come before any root are counted and dropped. */
  lemma OrphansDropped<I, G>(d: Decoders<I, G>, s: Load<I, G>, record: Bytes)
    requires s.failure.None? && s.currentLeaseKey.None? && Tag(record) != "01"
    ensures Step(d, s, record) == s.(recordCount := s.recordCount + 1)
  {
  }

  /** A GPN record is dropped while the current lease has no info record; otherwise it is
      paired with the sequence date key of the most recent info record. */
  lemma GpnTakesLatestInfo<I, G>(d: Decoders<I, G>, s: Load<I, G>, record: Bytes)
    requires s.failure.None? && s.currentLeaseKey.Some? && Tag(record) == "03"
    ensures s.infoRecords == [] ==> Step(d, s, record) == s.(recordCount := s.recordCount + 1)
    ensures s.infoRecords != [] && d.gpn(record).Success? ==>
              Step(d, s, record).gpnRecords ==
                s.gpnRecords + [PendingGpn(d.sequenceDateKey(s.infoRecords[|s.infoRecords| - 1]), d.gpn(record).value)]
  {
  }

  /** A lease name record whose name strips to nothing is counted and dropped. */
  lemma EmptyLeaseNameDropped<I, G>(d: Decoders<I, G>, s: Load<I, G>, record: Bytes)
    requires s.failure.None? && Tag(record) == "07"
    requires d.leaseName(record).Success? && d.leaseName(record).value.leaseName == []
    ensures Step(d, s, record) == s.(recordCount := s.recordCount + 1)
  {
  }

  /** How many records with the given tag come after the first 01 record. */
  function CountUnderRoot(records: seq<Bytes>, tag: string): (n: nat)
    ensures n <= CountTag(records, tag)
  {
    if records == [] then 0
    else
      var prefix := records[..|records| - 1];
      CountUnderRoot(prefix, tag)
        + (if Tag(records[|records| - 1]) == tag && CountTag(prefix, "01") > 0 then 1 else 0)
  }

  /** Whether the records end in a lease that already has an info record: a 02 record after the
      first root, with no 01 record after it. */
  function InfoSinceRoot(records: seq<Bytes>): (r: bool)
    ensures r ==> CountTag(records, "01") > 0
  {
    if records == [] then false
    else
      var prefix := records[..|records| - 1];
      var tag := Tag(records[|records| - 1]);
      if tag == "01" then false
      else if tag == "02" && CountTag(prefix, "01") > 0 then true
      else InfoSinceRoot(prefix)
  }

  /** How many 03 records arrive while the current lease has an info record. */
  function AcceptedGpns(records: seq<Bytes>): (n: nat)
    ensures n <= CountUnderRoot(records, "03")
  {
    if records == [] then 0
    else
      var prefix := records[..|records| - 1];
      AcceptedGpns(prefix) + (if Tag(records[|records| - 1]) == "03" && InfoSinceRoot(prefix) then 1 else 0)
  }

  /** How many 07 records arrive under a lease and decode to a name that does not strip to
      nothing. */
  function AcceptedLeaseNames<I, G>(d: Decoders<I, G>, records: seq<Bytes>): (n: nat)
    ensures n <= CountUnderRoot(records, "07")
  {
    if records == [] then 0
    else
      var prefix := records[..|records| - 1];
      var last := records[|records| - 1];
      AcceptedLeaseNames(d, prefix)
        + (if Tag(last) == "07" && CountTag(prefix, "01") > 0
              && d.leaseName(last).Success? && d.leaseName(last).value.leaseName != []
           then 1 else 0)
  }

  /** Without an error, the state accounts for every record: there is a current lease exactly
      when a root was read, every root was written, every info record after the first root, every
      03 record that found an info record and every non-empty lease name under a root is either
      written or still buffered, and every record was counted. */
  lemma {:induction false} RunAccounts<I, G>(d: Decoders<I, G>, records: seq<Bytes>)
    requires Run(d, records).failure.None?
    ensures var s := Run(d, records);
            && (s.currentLeaseKey.Some? <==> CountTag(records, "01") > 0)
            && (s.currentLeaseKey.None? ==> s.infoRecords == [] && s.gpnRecords == [] && s.leaseNameRecords == [])
            && |s.rootRows| == CountTag(records, "01")
            && |s.infoRows| + |s.infoRecords| == CountUnderRoot(records, "02")
            && (s.infoRecords != [] <==> InfoSinceRoot(records))
            && |s.gpnRows| + |s.gpnRecords| == AcceptedGpns(records)
            && |s.leaseNameRows| + |s.leaseNameRecords| == AcceptedLeaseNames(d, records)
            && s.recordCount == |records|
  {
    if records != [] {
      var prefix := records[..|records| - 1];
      RunAccounts(d, prefix);
      StepAccounts(d, Run(d, prefix), records[|records| - 1]);
      StepBuffers(d, Run(d, prefix), records[|records| - 1]);
    }
  }

  /** What one record that raises nothing adds to the state. */
  lemma StepAccounts<I, G>(d: Decoders<I, G>, s: Load<I, G>, record: Bytes)
    requires s.failure.None? && Step(d, s, record).failure.None?
    requires s.currentLeaseKey.None? ==> s.infoRecords == []
    ensures var r := Step(d, s, record);
            && (r.currentLeaseKey.None? ==> r.infoRecords == [])
            && (r.currentLeaseKey.Some? <==> s.currentLeaseKey.Some? || Tag(record) == "01")
            && |r.rootRows| == |s.rootRows| + (if Tag(record) == "01" then 1 else 0)
            && |r.infoRows| + |r.infoRecords| ==
                 |s.infoRows| + |s.infoRecords| + (if Tag(record) == "02" && s.currentLeaseKey.Some? then 1 else 0)
  {
  }

  /** One step of `Run` on the GPN and lease name buffers: a 01 record empties the info buffer
      and flushes the others into their tables, a 02 under a lease fills the info buffer, a 03
      is kept when there is an info record and a 07 when its name is not empty. */
  lemma StepBuffers<I, G>(d: Decoders<I, G>, s: Load<I, G>, record: Bytes)
    requires s.failure.None? && Step(d, s, record).failure.None?
    requires s.currentLeaseKey.None? ==> s.infoRecords == [] && s.gpnRecords == [] && s.leaseNameRecords == []
    ensures var r := Step(d, s, record);
            && (r.currentLeaseKey.None? ==> r.gpnRecords == [] && r.leaseNameRecords == [])
            && (r.infoRecords != [] <==>
                  Tag(record) != "01" && ((Tag(record) == "02" && s.currentLeaseKey.Some?) || s.infoRecords != []))
            && |r.gpnRows| + |r.gpnRecords| ==
                 |s.gpnRows| + |s.gpnRecords| + (if Tag(record) == "03" && s.infoRecords != [] then 1 else 0)
            && |r.leaseNameRows| + |r.leaseNameRecords| ==
                 |s.leaseNameRows| + |s.leaseNameRecords|
                   + (if Tag(record) == "07" && s.currentLeaseKey.Some?
                         && d.leaseName(record).Success? && d.leaseName(record).value.leaseName != []
                      then 1 else 0)
  {
  }

  /** A run that ends without error writes one root row per 01 record and, with the final
      flush, exactly one info row per 02 record that follows a root, one GPN row per 03 record
      that found an info record, and one lease name row per non-empty name under a root: none
      is lost and none is written twice. */
  lemma EveryChildWrittenOnce<I, G>(d: Decoders<I, G>, chunks: seq<Bytes>)
    requires Run(d, FullRecords(chunks, RecordLength)).failure.None?
    ensures var records := FullRecords(chunks, RecordLength);
            && |LoadOf(d, chunks).rootRows| == CountTag(records, "01")
            && |LoadOf(d, chunks).infoRows| == CountUnderRoot(records, "02")
            && |LoadOf(d, chunks).gpnRows| == AcceptedGpns(records)
            && |LoadOf(d, chunks).leaseNameRows| == AcceptedLeaseNames(d, records)
            && LoadOf(d, chunks).recordCount == |records|
  {
    var records := FullRecords(chunks, RecordLength);
    RunAccounts(d, records);
    FinishWritesBuffers(Run(d, records));
  }

  /** The final flush moves every buffered record into its table and writes nothing else. */
  lemma FinishWritesBuffers<I, G>(s: Load<I, G>)
    requires s.failure.None?
    requires s.currentLeaseKey.None? ==> s.infoRecords == [] && s.gpnRecords == [] && s.leaseNameRecords == []
    ensures var r := Finish(s);
            && r.rootRows == s.rootRows && r.recordCount == s.recordCount
            && |r.infoRows| == |s.infoRows| + |s.infoRecords|
            && |r.gpnRows| == |s.gpnRows| + |s.gpnRecords|
            && |r.leaseNameRows| == |s.leaseNameRows| + |s.leaseNameRecords|
  {
  }

  // ---------------------------------------------------------------------------
  // Each table, record by record: a reference decoding of the stream

  /** The key of the latest root that decoded, if any. */
  function LatestKey<I, G>(d: Decoders<I, G>, records: seq<Bytes>): (k: Option<LeaseKey>)
    ensures k.Some? ==> CountTag(records, "01") > 0
  {
    if records == [] then None
    else
      var last := records[|records| - 1];
      if Tag(last) == "01" && d.root(last).Success? then Some(KeyOf(d.root(last).value))
      else LatestKey(d, records[..|records| - 1])
  }

  /** The decoding of the latest 02 record read under a root since that root, if any. */
  function LatestInfo<I, G>(d: Decoders<I, G>, records: seq<Bytes>): (info: Option<I>)
    ensures info.Some? ==> InfoSinceRoot(records)
  {
    if records == [] then None
    else
      var prefix := records[..|records| - 1];
      var last := records[|records| - 1];
      if Tag(last) == "01" then None
      else if Tag(last) == "02" && LatestKey(d, prefix).Some? && d.info(last).Success? then
        Some(d.info(last).value)
      else LatestInfo(d, prefix)
  }

  /** The root table: every 01 record's decoding, in order. */
  function RootTable<I, G>(d: Decoders<I, G>, records: seq<Bytes>): (rows: seq<LeaseRecord>)
    ensures |rows| <= CountTag(records, "01")
  {
    if records == [] then []
    else
      var last := records[|records| - 1];
      RootTable(d, records[..|records| - 1])
        + (if Tag(last) == "01" && d.root(last).Success? then [d.root(last).value] else [])
  }

  /** The info table: every 02 record read under a root, decoded, under that root's key. */
  function InfoTable<I, G>(d: Decoders<I, G>, records: seq<Bytes>): (rows: seq<InfoRow<I>>)
    ensures |rows| <= CountUnderRoot(records, "02")
  {
    if records == [] then []
    else
      var prefix := records[..|records| - 1];
      var last := records[|records| - 1];
      var key := LatestKey(d, prefix);
      InfoTable(d, prefix)
        + (if Tag(last) == "02" && key.Some? && d.info(last).Success?
           then [InfoRow(key.value, d.info(last).value)] else [])
  }

  /** The GPN table: every 03 record read while its lease has an info record, decoded, under
      the lease's key and with the sequence date key of the latest info record. */
  function GpnTable<I, G>(d: Decoders<I, G>, records: seq<Bytes>): (rows: seq<GpnRow<G>>)
    ensures |rows| <= AcceptedGpns(records)
  {
    if records == [] then []
    else
      var prefix := records[..|records| - 1];
      var last := records[|records| - 1];
      var key := LatestKey(d, prefix);
      var info := LatestInfo(d, prefix);
      GpnTable(d, prefix)
        + (if Tag(last) == "03" && key.Some? && info.Some? && d.gpn(last).Success?
           then [GpnRow(key.value, d.sequenceDateKey(info.value), d.gpn(last).value)] else [])
  }

  /** The lease name table: every 07 record read under a root whose name is not empty, under
      that root's key. */
  function LeaseNameTable<I, G>(d: Decoders<I, G>, records: seq<Bytes>): (rows: seq<LeaseNameRow>)
    ensures |rows| <= AcceptedLeaseNames(d, records)
  {
    if records == [] then []
    else
      var prefix := records[..|records| - 1];
      var last := records[|records| - 1];
      var key := LatestKey(d, prefix);
      LeaseNameTable(d, prefix)
        + (if Tag(last) == "07" && key.Some? && d.leaseName(last).Success?
              && d.leaseName(last).value.leaseName != []
           then [LeaseNameRow(key.value, d.leaseName(last).value)] else [])
  }

  lemma InfoRowsOfAppend<I>(key: LeaseKey, infos: seq<I>, info: I)
    ensures InfoRowsOf(key, infos + [info]) == InfoRowsOf(key, infos) + [InfoRow(key, info)]
  {
    assert (infos + [info])[..|infos|] == infos;
  }

  lemma GpnRowsOfAppend<G>(key: LeaseKey, gpns: seq<PendingGpn<G>>, gpn: PendingGpn<G>)
    ensures GpnRowsOf(key, gpns + [gpn]) == GpnRowsOf(key, gpns) + [GpnRow(key, gpn.sequenceDateKey, gpn.gpn)]
  {
    assert (gpns + [gpn])[..|gpns|] == gpns;
  }

  lemma LeaseNameRowsOfAppend(key: LeaseKey, names: seq<LeaseNameRecord>, name: LeaseNameRecord)
    ensures LeaseNameRowsOf(key, names + [name]) == LeaseNameRowsOf(key, names) + [LeaseNameRow(key, name)]
  {
    assert (names + [name])[..|names|] == names;
  }

  /** The rows a flush of `s` would write to each table: none without a current lease. */
  function PendingInfoRows<I, G>(s: Load<I, G>): seq<InfoRow<I>> {
    if s.currentLeaseKey.Some? then InfoRowsOf(s.currentLeaseKey.value, s.infoRecords) else []
  }

  function PendingGpnRows<I, G>(s: Load<I, G>): seq<GpnRow<G>> {
    if s.currentLeaseKey.Some? then GpnRowsOf(s.currentLeaseKey.value, s.gpnRecords) else []
  }

  function PendingLeaseNameRows<I, G>(s: Load<I, G>): seq<LeaseNameRow> {
    if s.currentLeaseKey.Some? then LeaseNameRowsOf(s.currentLeaseKey.value, s.leaseNameRecords) else []
  }

  /** The final flush writes exactly the pending rows. */
  lemma FinishWritesPending<I, G>(s: Load<I, G>)
    requires s.failure.None?
    ensures Finish(s).rootRows == s.rootRows
    ensures Finish(s).infoRows == s.infoRows + PendingInfoRows(s)
    ensures Finish(s).gpnRows == s.gpnRows + PendingGpnRows(s)
    ensures Finish(s).leaseNameRows == s.leaseNameRows + PendingLeaseNameRows(s)
  {
    if s.currentLeaseKey.None? {
      assert s.infoRows + [] == s.infoRows && s.gpnRows + [] == s.gpnRows;
      assert s.leaseNameRows + [] == s.leaseNameRows;
    }
  }

  /** A 01 record: the pending rows are written, the root row is written, its key becomes
      current and the buffers are emptied. */
  lemma StepOnRoot<I, G>(d: Decoders<I, G>, s: Load<I, G>, record: Bytes)
    requires s.failure.None? && Step(d, s, record).failure.None?
    requires Tag(record) == "01"
    ensures d.root(record).Success?
    ensures Step(d, s, record) ==
              s.(recordCount := s.recordCount + 1,
                 currentLeaseKey := Some(KeyOf(d.root(record).value)),
                 rootRows := s.rootRows + [d.root(record).value],
                 infoRows := s.infoRows + PendingInfoRows(s),
                 gpnRows := s.gpnRows + PendingGpnRows(s),
                 leaseNameRows := s.leaseNameRows + PendingLeaseNameRows(s),
                 infoRecords := [], gpnRecords := [], leaseNameRecords := [])
  {
  }

  /** A 02 record under a lease: its decoding joins the info buffer. */
  lemma StepOnInfo<I, G>(d: Decoders<I, G>, s: Load<I, G>, record: Bytes)
    requires s.failure.None? && Step(d, s, record).failure.None?
    requires Tag(record) == "02" && s.currentLeaseKey.Some?
    ensures d.info(record).Success?
    ensures Step(d, s, record) ==
              s.(recordCount := s.recordCount + 1, infoRecords := s.infoRecords + [d.info(record).value])
  {
  }

  /** A 03 record under a lease with an info record: its decoding joins the GPN buffer with
      the latest info record's sequence date key. */
  lemma StepOnGpn<I, G>(d: Decoders<I, G>, s: Load<I, G>, record: Bytes)
    requires s.failure.None? && Step(d, s, record).failure.None?
    requires Tag(record) == "03" && s.currentLeaseKey.Some? && s.infoRecords != []
    ensures d.gpn(record).Success?
    ensures Step(d, s, record) ==
              s.(recordCount := s.recordCount + 1,
                 gpnRecords := s.gpnRecords
                   + [PendingGpn(d.sequenceDateKey(s.infoRecords[|s.infoRecords| - 1]), d.gpn(record).value)])
  {
  }

  /** A 07 record under a lease: its decoding joins the lease name buffer unless the name is
      empty. */
  lemma StepOnLeaseName<I, G>(d: Decoders<I, G>, s: Load<I, G>, record: Bytes)
    requires s.failure.None? && Step(d, s, record).failure.None?
    requires Tag(record) == "07" && s.currentLeaseKey.Some?
    ensures d.leaseName(record).Success?
    ensures Step(d, s, record) ==
              s.(recordCount := s.recordCount + 1,
                 leaseNameRecords := s.leaseNameRecords
                   + (if d.leaseName(record).value.leaseName != [] then [d.leaseName(record).value] else []))
  {
  }

  /** Any other record is only counted. */
  lemma StepOnOther<I, G>(d: Decoders<I, G>, s: Load<I, G>, record: Bytes)
    requires s.failure.None?
    requires Tag(record) != "01"
    requires !(Tag(record) == "02" && s.currentLeaseKey.Some?)
    requires !(Tag(record) == "03" && s.currentLeaseKey.Some? && s.infoRecords != [])
    requires !(Tag(record) == "07" && s.currentLeaseKey.Some?)
    ensures Step(d, s, record) == s.(recordCount := s.recordCount + 1)
  {
  }

  /** One step of `Run` on the current key, the root table and the info buffer. */
  lemma StepKeys<I, G>(d: Decoders<I, G>, s: Load<I, G>, record: Bytes)
    requires s.failure.None? && Step(d, s, record).failure.None?
    ensures var r := Step(d, s, record);
            && (Tag(record) == "01" ==>
                  && d.root(record).Success?
                  && r.currentLeaseKey == Some(KeyOf(d.root(record).value))
                  && r.rootRows == s.rootRows + [d.root(record).value]
                  && r.infoRecords == [])
            && (Tag(record) != "01" ==> r.currentLeaseKey == s.currentLeaseKey && r.rootRows == s.rootRows)
            && (Tag(record) == "02" && s.currentLeaseKey.Some? ==>
                  && d.info(record).Success?
                  && r.infoRecords == s.infoRecords + [d.info(record).value])
            && (Tag(record) != "01" && !(Tag(record) == "02" && s.currentLeaseKey.Some?) ==>
                  r.infoRecords == s.infoRecords)
  {
    StepCases(d, s, record);
  }

  /** Calls the lemma for the case `record` falls in. */
  lemma StepCases<I, G>(d: Decoders<I, G>, s: Load<I, G>, record: Bytes)
    requires s.failure.None? && Step(d, s, record).failure.None?
    ensures Tag(record) == "01" ==>
              && d.root(record).Success?
              && Step(d, s, record) ==
                   s.(recordCount := s.recordCount + 1,
                      currentLeaseKey := Some(KeyOf(d.root(record).value)),
                      rootRows := s.rootRows + [d.root(record).value],
                      infoRows := s.infoRows + PendingInfoRows(s),
                      gpnRows := s.gpnRows + PendingGpnRows(s),
                      leaseNameRows := s.leaseNameRows + PendingLeaseNameRows(s),
                      infoRecords := [], gpnRecords := [], leaseNameRecords := [])
    ensures Tag(record) == "02" && s.currentLeaseKey.Some? ==>
              && d.info(record).Success?
              && Step(d, s, record) ==
                   s.(recordCount := s.recordCount + 1, infoRecords := s.infoRecords + [d.info(record).value])
    ensures Tag(record) == "03" && s.currentLeaseKey.Some? && s.infoRecords != [] ==>
              && d.gpn(record).Success?
              && Step(d, s, record) ==
                   s.(recordCount := s.recordCount + 1,
                      gpnRecords := s.gpnRecords
                        + [PendingGpn(d.sequenceDateKey(s.infoRecords[|s.infoRecords| - 1]), d.gpn(record).value)])
    ensures Tag(record) == "07" && s.currentLeaseKey.Some? ==>
              && d.leaseName(record).Success?
              && Step(d, s, record) ==
                   s.(recordCount := s.recordCount + 1,
                      leaseNameRecords := s.leaseNameRecords
                        + (if d.leaseName(record).value.leaseName != [] then [d.leaseName(record).value] else []))
    ensures Tag(record) != "01" && !(Tag(record) == "02" && s.currentLeaseKey.Some?)
            && !(Tag(record) == "03" && s.currentLeaseKey.Some? && s.infoRecords != [])
            && !(Tag(record) == "07" && s.currentLeaseKey.Some?) ==>
              Step(d, s, record) == s.(recordCount := s.recordCount + 1)
  {
    if Tag(record) == "01" {
      StepOnRoot(d, s, record);
    } else if Tag(record) == "02" && s.currentLeaseKey.Some? {
      StepOnInfo(d, s, record);
    } else if Tag(record) == "03" && s.currentLeaseKey.Some? && s.infoRecords != [] {
      StepOnGpn(d, s, record);
    } else if Tag(record) == "07" && s.currentLeaseKey.Some? {
      StepOnLeaseName(d, s, record);
    } else {
      StepOnOther(d, s, record);
    }
  }

  /** One step of `Run` on the current key, the latest info record and the root table. */
  lemma {:induction false} RunKeys<I, G>(d: Decoders<I, G>, records: seq<Bytes>)
    requires Run(d, records).failure.None?
    ensures var s := Run(d, records);
            && s.currentLeaseKey == LatestKey(d, records)
            && LatestInfo(d, records) == (if s.infoRecords == [] then None else Some(s.infoRecords[|s.infoRecords| - 1]))
            && s.rootRows == RootTable(d, records)
  {
    if records != [] {
      var prefix := records[..|records| - 1];
      var last := records[|records| - 1];
      RunKeys(d, prefix);
      StepKeys(d, Run(d, prefix), last);
    }
  }

  /** Without an error, the rows written and still pending make up the reference tables. */
  lemma {:induction false} RunTables<I, G>(d: Decoders<I, G>, records: seq<Bytes>)
    requires Run(d, records).failure.None?
    ensures var s := Run(d, records);
            && s.infoRows + PendingInfoRows(s) == InfoTable(d, records)
            && s.gpnRows + PendingGpnRows(s) == GpnTable(d, records)
            && s.leaseNameRows + PendingLeaseNameRows(s) == LeaseNameTable(d, records)
  {
    if records != [] {
      var prefix := records[..|records| - 1];
      var last := records[|records| - 1];
      RunTables(d, prefix);
      RunKeys(d, prefix);
      var s := Run(d, prefix);
      StepKeys(d, s, last);
      StepInfoTable(d, s, last);
      StepGpnTable(d, s, last);
      StepLeaseNameTable(d, s, last);
    }
  }

  /** Each step adds to the info table, written and pending, exactly the row of a 02 record
      under a lease. */
  lemma StepInfoTable<I, G>(d: Decoders<I, G>, s: Load<I, G>, record: Bytes)
    requires s.failure.None? && Step(d, s, record).failure.None?
    ensures var r := Step(d, s, record);
            r.infoRows + PendingInfoRows(r) ==
              s.infoRows + PendingInfoRows(s)
                + (if Tag(record) == "02" && s.currentLeaseKey.Some? && d.info(record).Success?
                   then [InfoRow(s.currentLeaseKey.value, d.info(record).value)] else [])
  {
    StepCases(d, s, record);
    if Tag(record) == "02" && s.currentLeaseKey.Some? {
      InfoRowsOfAppend(s.currentLeaseKey.value, s.infoRecords, d.info(record).value);
    }
  }

  /** Each step adds to the GPN table, written and pending, exactly the row of a 03 record
      under a lease with an info record, paired with the latest info record. */
  lemma StepGpnTable<I, G>(d: Decoders<I, G>, s: Load<I, G>, record: Bytes)
    requires s.failure.None? && Step(d, s, record).failure.None?
    ensures var r := Step(d, s, record);
            r.gpnRows + PendingGpnRows(r) ==
              s.gpnRows + PendingGpnRows(s)
                + (if Tag(record) == "03" && s.currentLeaseKey.Some? && s.infoRecords != [] && d.gpn(record).Success?
                   then [GpnRow(s.currentLeaseKey.value, d.sequenceDateKey(s.infoRecords[|s.infoRecords| - 1]),
                                d.gpn(record).value)]
                   else [])
  {
    StepCases(d, s, record);
    if Tag(record) == "03" && s.currentLeaseKey.Some? && s.infoRecords != [] {
      var pending := PendingGpn(d.sequenceDateKey(s.infoRecords[|s.infoRecords| - 1]), d.gpn(record).value);
      GpnRowsOfAppend(s.currentLeaseKey.value, s.gpnRecords, pending);
    }
  }

  /** Each step adds to the lease name table, written and pending, exactly the row of a 07
      record under a lease whose name is not empty. */
  lemma StepLeaseNameTable<I, G>(d: Decoders<I, G>, s: Load<I, G>, record: Bytes)
    requires s.failure.None? && Step(d, s, record).failure.None?
    ensures var r := Step(d, s, record);
            r.leaseNameRows + PendingLeaseNameRows(r) ==
              s.leaseNameRows + PendingLeaseNameRows(s)
                + (if Tag(record) == "07" && s.currentLeaseKey.Some? && d.leaseName(record).Success?
                      && d.leaseName(record).value.leaseName != []
                   then [LeaseNameRow(s.currentLeaseKey.value, d.leaseName(record).value)] else [])
  {
    StepCases(d, s, record);
    if Tag(record) == "07" && s.currentLeaseKey.Some? && d.leaseName(record).value.leaseName != [] {
      LeaseNameRowsOfAppend(s.currentLeaseKey.value, s.leaseNameRecords, d.leaseName(record).value);
    }
  }

  /** A run that ends without error leaves in each table exactly the reference rows: every root
      in order, and every info, GPN and lease name row is its own record's decoding under the
      key of the root it followed, each GPN paired with the latest info record before it. */
  lemma TablesHoldLeaseChildren<I, G>(d: Decoders<I, G>, chunks: seq<Bytes>)
    requires Run(d, FullRecords(chunks, RecordLength)).failure.None?
    ensures var records := FullRecords(chunks, RecordLength);
            && LoadOf(d, chunks).rootRows == RootTable(d, records)
            && LoadOf(d, chunks).infoRows == InfoTable(d, records)
            && LoadOf(d, chunks).gpnRows == GpnTable(d, records)
            && LoadOf(d, chunks).leaseNameRows == LeaseNameTable(d, records)
  {
    var records := FullRecords(chunks, RecordLength);
    RunKeys(d, records);
    RunTables(d, records);
    FinishWritesPending(Run(d, records));
  }
}
