/**
 * What one probe cycle promises, whatever order the client map is walked
 * in: the tallies count the clients by state, the traffic points are the
 * two counters of each reportable client, and the error flag decides
 * which aggregate points the batch carries.
 */
module ProbeLemmas {
  import opened Wrappers
  import opened Strings
  import opened Settings
  import opened Points
  import opened Enumerations
  import opened Probe

  /** Two enumerations of the same map list the same keys. */
  lemma EnumerationsShareKeys(clients: map<string, ClientRecord>, o1: seq<string>, o2: seq<string>)
    requires Enumerates(o1, clients) && Enumerates(o2, clients)
    ensures forall k :: k in o1 <==> k in o2
  {
    forall k ensures k in o1 <==> k in o2 {
      if k in o1 {
        var i :| 0 <= i < |o1| && o1[i] == k;
      }
      if k in o2 {
        var i :| 0 <= i < |o2| && o2[i] == k;
      }
    }
  }

  /** The traffic points are the same multiset for every walk of the map. */
  lemma TrafficOrderIndependent(cfg: Config, clients: map<string, ClientRecord>, o1: seq<string>, o2: seq<string>)
    requires Enumerates(o1, clients) && Enumerates(o2, clients)
    ensures multiset(TrafficSeq(cfg, clients, o1)) == multiset(TrafficSeq(cfg, clients, o2))
  {
    EnumerationsShareKeys(clients, o1, o2);
    SameKeysArePermutations(o1, o2);
    FlattenPermutation(o1, o2, TrafficOfKey(cfg, clients));
  }

  /** A tally over an enumeration counts the keys whose client satisfies `p`. */
  lemma EnumeratedTally(clients: map<string, ClientRecord>, order: seq<string>, p: ClientRecord -> bool)
    requires Enumerates(order, clients)
    ensures Tally(clients, order, p) == |IdsWhere(clients, p)|
  {
    var f := KeyWhere(clients, p);
    CountIsCardinality(order, f);
    var listed := Selected(order, f);
    forall k | k in listed ensures k in IdsWhere(clients, p) {
      var i :| 0 <= i < |order| && order[i] == k;
    }
    forall k | k in IdsWhere(clients, p) ensures k in listed {
      assert k in order && f(k);
    }
    assert listed == IdsWhere(clients, p);
  }

  /** `Authenticated` counts the authenticated clients and `PreAuth` all the others. */
  lemma TalliesCountStates(clients: map<string, ClientRecord>, order: seq<string>)
    requires Enumerates(order, clients)
    ensures Tally(clients, order, IsAuthenticated) == |AuthenticatedIds(clients)|
    ensures Tally(clients, order, IsPreAuth) == |PreAuthIds(clients)|
  {
    EnumeratedTally(clients, order, IsAuthenticated);
    EnumeratedTally(clients, order, IsPreAuth);
  }

  /** Every client is counted once: the two tallies add up to the size of the map. */
  lemma TalliesCoverClients(clients: map<string, ClientRecord>, order: seq<string>)
    requires Enumerates(order, clients)
    ensures Tally(clients, order, IsAuthenticated) + Tally(clients, order, IsPreAuth) == |clients|
  {
    TalliesCountStates(clients, order);
    var a, b := AuthenticatedIds(clients), PreAuthIds(clients);
    assert a !! b;
    assert a + b == clients.Keys;
    assert |a + b| == |a| + |b|;
  }

  /** Two traffic points per reportable client, and no others. */
  lemma TrafficPointCount(cfg: Config, clients: map<string, ClientRecord>, order: seq<string>)
    requires Enumerates(order, clients)
    ensures |TrafficSeq(cfg, clients, order)| == 2 * |ReportableIds(clients)|
  {
    FlattenLength(order, TrafficOfKey(cfg, clients), KeyWhere(clients, Reportable), 2);
    EnumeratedTally(clients, order, Reportable);
  }

  /** Each traffic point belongs to a reportable client. */
  lemma TrafficOwner(cfg: Config, clients: map<string, ClientRecord>, order: seq<string>, pt: Point) returns (k: string)
    requires pt in TrafficSeq(cfg, clients, order)
    ensures k in clients && Reportable(clients[k])
    ensures pt == DownloadPoint(cfg, clients[k]) || pt == UploadPoint(cfg, clients[k])
  {
    var f := TrafficOfKey(cfg, clients);
    FlattenMembers(order, f, pt);
    k :| k in order && pt in f(k);
  }

  /** The two counter points of a reportable client are among the traffic points of any walk that visits it. */
  lemma OwnedTraffic(cfg: Config, clients: map<string, ClientRecord>, order: seq<string>, k: string, pt: Point)
    requires k in order && k in clients && Reportable(clients[k])
    requires pt == DownloadPoint(cfg, clients[k]) || pt == UploadPoint(cfg, clients[k])
    ensures pt in TrafficSeq(cfg, clients, order)
  {
    var f := TrafficOfKey(cfg, clients);
    assert f(k) == [DownloadPoint(cfg, clients[k]), UploadPoint(cfg, clients[k])];
    FlattenMembers(order, f, pt);
  }

  /** A point is a traffic point exactly when it is a counter point of a reportable client. */
  lemma TrafficMembership(cfg: Config, clients: map<string, ClientRecord>, order: seq<string>, pt: Point)
    requires Enumerates(order, clients)
    ensures pt in TrafficSeq(cfg, clients, order) <==>
      exists k :: k in clients && Reportable(clients[k]) &&
        (pt == DownloadPoint(cfg, clients[k]) || pt == UploadPoint(cfg, clients[k]))
  {
    if pt in TrafficSeq(cfg, clients, order) {
      var k := TrafficOwner(cfg, clients, order, pt);
    }
    if exists k :: k in clients && Reportable(clients[k]) &&
        (pt == DownloadPoint(cfg, clients[k]) || pt == UploadPoint(cfg, clients[k])) {
      var k :| k in clients && Reportable(clients[k]) &&
        (pt == DownloadPoint(cfg, clients[k]) || pt == UploadPoint(cfg, clients[k]));
      OwnedTraffic(cfg, clients, order, k, pt);
    }
  }

  /** Every traffic point is a `Download_Bytes` or `Upload_Bytes` point with one `value` field. */
  lemma TrafficMeasurements(cfg: Config, clients: map<string, ClientRecord>, order: seq<string>, pt: Point)
    requires pt in TrafficSeq(cfg, clients, order)
    ensures pt.measurement == "Download_Bytes" || pt.measurement == "Upload_Bytes"
    ensures pt.fields.Keys == {ValueField}
  {
    var k := TrafficOwner(cfg, clients, order, pt);
  }

  /** A healthy cycle reports both tallies, as set sizes, and `NdsError`=0. */
  lemma HealthyCycleAggregates(cfg: Config, exec: ExecResult, decoded: Option<Snapshot>, order: seq<string>, probeTimeNs: int)
    requires Enumerates(order, ClientsOf(decoded)) && !ServiceDown(exec)
    ensures ProbePoints(cfg, exec, decoded, order, probeTimeNs)
      == TrafficSeq(cfg, ClientsOf(decoded), order)
         + [IntPoint("Authenticated", PortalTags(cfg), |AuthenticatedIds(ClientsOf(decoded))|),
            IntPoint("PreAuth", PortalTags(cfg), |PreAuthIds(ClientsOf(decoded))|),
            IntPoint("NdsError", PortalTags(cfg), 0)]
         + ProbeTimePoints(cfg, probeTimeNs)
  {
    TalliesCountStates(ClientsOf(decoded), order);
  }

  /** Apart from traffic, only `NdsError`, `Authenticated`, `PreAuth` and `ProbeTime` points occur. */
  lemma ProbeMeasurements(cfg: Config, exec: ExecResult, decoded: Option<Snapshot>, order: seq<string>,
                           probeTimeNs: int, pt: Point)
    requires pt in ProbePoints(cfg, exec, decoded, order, probeTimeNs)
    requires pt !in TrafficSeq(cfg, ClientsOf(decoded), order)
    ensures pt.tags == PortalTags(cfg)
    ensures pt.measurement in {"NdsError", "Authenticated", "PreAuth", "ProbeTime"}
  {
    var clients := ClientsOf(decoded);
    var aggregates := AggregatePoints(cfg, ServiceDown(exec), Tally(clients, order, IsAuthenticated), Tally(clients, order, IsPreAuth));
    var timing := ProbeTimePoints(cfg, probeTimeNs);
    assert ProbePoints(cfg, exec, decoded, order, probeTimeNs) == TrafficSeq(cfg, clients, order) + aggregates + timing;
    if pt in timing {
      assert pt == timing[0];
    } else {
      assert pt in aggregates;
      assert pt.measurement == "NdsError" || pt.measurement == "Authenticated" || pt.measurement == "PreAuth";
    }
  }

  /** `NdsError`, `Authenticated` and `PreAuth` points of a batch come from its aggregates, never from traffic or timing. */
  lemma AggregateOrigin(cfg: Config, exec: ExecResult, decoded: Option<Snapshot>, order: seq<string>,
                        probeTimeNs: int, pt: Point)
    requires pt in ProbePoints(cfg, exec, decoded, order, probeTimeNs)
    requires pt.measurement == "NdsError" || pt.measurement == "Authenticated" || pt.measurement == "PreAuth"
    ensures pt in AggregatePoints(cfg, ServiceDown(exec), Tally(ClientsOf(decoded), order, IsAuthenticated),
                                  Tally(ClientsOf(decoded), order, IsPreAuth))
  {
    var clients := ClientsOf(decoded);
    if pt in TrafficSeq(cfg, clients, order) {
      TrafficMeasurements(cfg, clients, order, pt);
      assert false;
    }
    if pt in ProbeTimePoints(cfg, probeTimeNs) {
      assert false;
    }
  }

  /**
   * The error flag compares the whole output with the not-started message:
   * a failed command is always down, and the message with anything before
   * or after it (a trailing newline, say) does not count as down.
   */
  lemma ServiceDownIsExactMatch(output: string, extra: string)
    requires extra != ""
    ensures ServiceDown(ExecResult(true, output))
    ensures ServiceDown(ExecResult(false, NotStartedOutput))
    ensures !ServiceDown(ExecResult(false, NotStartedOutput + extra))
    ensures !ServiceDown(ExecResult(false, extra + NotStartedOutput))
  {
    assert |NotStartedOutput + extra| > |NotStartedOutput|;
    assert |extra + NotStartedOutput| > |NotStartedOutput|;
  }

  /**
   * The error flag decides the aggregates: `NdsError`=1 is in the batch
   * exactly when the service is down, `NdsError`=0 and the tallies
   * exactly when it is not.
   */
  lemma NdsErrorReportsFlag(cfg: Config, exec: ExecResult, decoded: Option<Snapshot>, order: seq<string>, probeTimeNs: int)
    ensures IntPoint("NdsError", PortalTags(cfg), 1) in ProbePoints(cfg, exec, decoded, order, probeTimeNs)
      <==> ServiceDown(exec)
    ensures IntPoint("NdsError", PortalTags(cfg), 0) in ProbePoints(cfg, exec, decoded, order, probeTimeNs)
      <==> !ServiceDown(exec)
    ensures (exists pt :: pt in ProbePoints(cfg, exec, decoded, order, probeTimeNs) && pt.measurement == "Authenticated")
      <==> !ServiceDown(exec)
    ensures (exists pt :: pt in ProbePoints(cfg, exec, decoded, order, probeTimeNs) && pt.measurement == "PreAuth")
      <==> !ServiceDown(exec)
  {
    var clients := ClientsOf(decoded);
    var aggregates := AggregatePoints(cfg, ServiceDown(exec), Tally(clients, order, IsAuthenticated), Tally(clients, order, IsPreAuth));
    var ps := ProbePoints(cfg, exec, decoded, order, probeTimeNs);
    var one, zero := IntPoint("NdsError", PortalTags(cfg), 1), IntPoint("NdsError", PortalTags(cfg), 0);
    assert one.fields[ValueField] != zero.fields[ValueField];
    if ServiceDown(exec) {
      assert aggregates == [one];
      assert one in ps;
      if zero in ps {
        AggregateOrigin(cfg, exec, decoded, order, probeTimeNs, zero);
        assert false;
      }
      if pt :| pt in ps && pt.measurement == "Authenticated" {
        AggregateOrigin(cfg, exec, decoded, order, probeTimeNs, pt);
        assert false;
      }
      if pt :| pt in ps && pt.measurement == "PreAuth" {
        AggregateOrigin(cfg, exec, decoded, order, probeTimeNs, pt);
        assert false;
      }
    } else {
      assert zero in ps && aggregates[0] in ps && aggregates[0].measurement == "Authenticated";
      assert aggregates[1] in ps && aggregates[1].measurement == "PreAuth";
      if one in ps {
        AggregateOrigin(cfg, exec, decoded, order, probeTimeNs, one);
        assert false;
      }
    }
  }

  /** When the portal is not running, the cycle reports `NdsError`=1 and nothing else about clients. */
  lemma NotStartedCycle(cfg: Config, failed: bool, probeTimeNs: int)
    ensures ProbePoints(cfg, ExecResult(failed, NotStartedOutput), None, [], probeTimeNs)
      == [IntPoint("NdsError", PortalTags(cfg), 1)] + ProbeTimePoints(cfg, probeTimeNs)
  {
  }

  /** Output whose decoding fails before any client is filled in leaves the map empty: zero tallies, `NdsError`=0. */
  lemma DecodeFailureCycle(cfg: Config, exec: ExecResult, probeTimeNs: int)
    requires !ServiceDown(exec)
    ensures ProbePoints(cfg, exec, None, [], probeTimeNs)
      == [IntPoint("Authenticated", PortalTags(cfg), 0),
          IntPoint("PreAuth", PortalTags(cfg), 0),
          IntPoint("NdsError", PortalTags(cfg), 0)]
         + ProbeTimePoints(cfg, probeTimeNs)
  {
  }

  lemma SmallCounters()
    ensures Atoi("10") == Some(10) && Atoi("20") == Some(20)
  {
    assert DecimalValue("10") == 10;
    assert DecimalValue("20") == 20;
  }

  /**
   * The two traffic points of an authenticated client whose counters read
   * `down` and `up` KiB: `Download_Bytes` from the download counter, then
   * `Upload_Bytes` from the upload counter.
   */
  lemma ClientTraffic(cfg: Config, c: ClientRecord, down: int, up: int)
    requires IsAuthenticated(c) && Atoi(c.downloaded) == Some(down) && Atoi(c.uploaded) == Some(up)
    ensures TrafficPoints(cfg, c)
      == [IntPoint("Download_Bytes", ClientTags(cfg, c), down * 1024),
          IntPoint("Upload_Bytes", ClientTags(cfg, c), up * 1024)]
  {
  }

  lemma SampleTallies(clients: map<string, ClientRecord>)
    requires clients.Keys == {"1", "2", "3"}
    requires IsAuthenticated(clients["1"]) && IsAuthenticated(clients["2"]) && IsPreAuth(clients["3"])
    ensures Tally(clients, ["1", "2", "3"], IsAuthenticated) == 2
    ensures Tally(clients, ["1", "2", "3"], IsPreAuth) == 1
  {
    CountThree("1", "2", "3", KeyWhere(clients, IsAuthenticated));
    CountThree("1", "2", "3", KeyWhere(clients, IsPreAuth));
  }

  /** The traffic of the worked example: the points of the first two clients, in walk order. */
  lemma SampleTraffic(cfg: Config, a: ClientRecord, b: ClientRecord, c: ClientRecord)
    requires IsAuthenticated(a) && a.downloaded == "10" && a.uploaded == "20"
    requires IsAuthenticated(b) && b.downloaded == "10" && b.uploaded == "20"
    requires IsPreAuth(c)
    ensures TrafficSeq(cfg, SampleMap(a, b, c), ["1", "2", "3"])
      == [IntPoint("Download_Bytes", ClientTags(cfg, a), 10240), IntPoint("Upload_Bytes", ClientTags(cfg, a), 20480)]
         + [IntPoint("Download_Bytes", ClientTags(cfg, b), 10240), IntPoint("Upload_Bytes", ClientTags(cfg, b), 20480)]
  {
    var f := TrafficOfKey(cfg, SampleMap(a, b, c));
    SampleMapEntries(a, b, c);
    FlattenThree("1", "2", "3", f);
    SmallCounters();
    ClientTraffic(cfg, a, 10, 20);
    ClientTraffic(cfg, b, 10, 20);
    assert f("3") == [];
  }

  /** The map of the worked example: three clients under the keys "1", "2" and "3". */
  function SampleMap(a: ClientRecord, b: ClientRecord, c: ClientRecord): map<string, ClientRecord>
  {
    map["1" := a, "2" := b, "3" := c]
  }

  lemma SampleMapEntries(a: ClientRecord, b: ClientRecord, c: ClientRecord)
    ensures SampleMap(a, b, c).Keys == {"1", "2", "3"}
    ensures SampleMap(a, b, c)["1"] == a && SampleMap(a, b, c)["2"] == b && SampleMap(a, b, c)["3"] == c
  {
  }

  /**
   * Two authenticated clients that each downloaded 10 KiB and uploaded
   * 20 KiB, and one pre-auth client, from a command that succeeded: per
   * authenticated client `Download_Bytes`=10240 and `Upload_Bytes`=20480,
   * then `Authenticated`=2, `PreAuth`=1 and `NdsError`=0.
   */
  lemma ExampleCycle(cfg: Config, exec: ExecResult, a: ClientRecord, b: ClientRecord, c: ClientRecord)
    requires !cfg.selfMonitor && !ServiceDown(exec)
    requires IsAuthenticated(a) && a.downloaded == "10" && a.uploaded == "20"
    requires IsAuthenticated(b) && b.downloaded == "10" && b.uploaded == "20"
    requires IsPreAuth(c)
    ensures ProbePoints(cfg, exec, Some(Snapshot("3", SampleMap(a, b, c))), ["1", "2", "3"], 0)
      == [IntPoint("Download_Bytes", ClientTags(cfg, a), 10240), IntPoint("Upload_Bytes", ClientTags(cfg, a), 20480)]
         + [IntPoint("Download_Bytes", ClientTags(cfg, b), 10240), IntPoint("Upload_Bytes", ClientTags(cfg, b), 20480)]
         + [IntPoint("Authenticated", PortalTags(cfg), 2),
            IntPoint("PreAuth", PortalTags(cfg), 1),
            IntPoint("NdsError", PortalTags(cfg), 0)]
  {
    var clients := SampleMap(a, b, c);
    SampleMapEntries(a, b, c);
    SampleTallies(clients);
    SampleTraffic(cfg, a, b, c);
  }

  /**
   * A command that reports an error but whose output still decodes keeps
   * its traffic points: the batch carries both the client's counters and
   * `NdsError`=1.
   */
  lemma FailedCommandKeepsTraffic(cfg: Config, output: string, c: ClientRecord, probeTimeNs: int)
    requires Reportable(c)
    ensures var ps := ProbePoints(cfg, ExecResult(true, output), Some(Snapshot("1", map["1" := c])), ["1"], probeTimeNs);
      DownloadPoint(cfg, c) in ps && UploadPoint(cfg, c) in ps && IntPoint("NdsError", PortalTags(cfg), 1) in ps
  {
    var clients := map["1" := c];
    OwnedTraffic(cfg, clients, ["1"], "1", DownloadPoint(cfg, c));
    OwnedTraffic(cfg, clients, ["1"], "1", UploadPoint(cfg, c));
  }
}
