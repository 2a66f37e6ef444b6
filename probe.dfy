/**
 * One probe cycle (`probeNDS` in main.go): run `ndsctl json`, decide
 * whether the portal service is down, optionally restart it, turn the
 * decoded client list into a batch of points and hand the batch to the
 * queue when there is room.
 *
 * The ssh command, the restart command, the JSON decoder and the clock
 * are outside the model: their results are parameters. So is the order in
 * which Go walks the client map, which the runtime randomises: `order`
 * lists every key of the map once, and the lemmas below show what does
 * not depend on it.
 */
module Probe {
  import opened Wrappers
  import opened Strings
  import opened Settings
  import opened Points
  import opened Queue
  import opened Enumerations

  /** What `ndsctl` prints when the portal service is not running. */
  const NotStartedOutput: string := "ndsctl: nodogsplash probably not started (Error: Connection refused)"

  /** The only state string that counts as authenticated (case-sensitive). */
  const AuthenticatedState: string := "Authenticated"

  const PortalTag: string := "Captive Portal"

  /** Counters arrive in KiB; points carry bytes. */
  const BytesPerKiB: int := 1024

  /** One client record (`users`); its numeric fields are the decimal text of the document. */
  datatype ClientRecord = ClientRecord(
    id: string, ip: string, mac: string,
    added: string, active: string, duration: string,
    token: string, state: string,
    downloaded: string, uploaded: string)

  /** The decoded status document (`status`); the client count field is never read. */
  datatype Snapshot = Snapshot(clientListLength: string, clients: map<string, ClientRecord>)

  /** The outcome of running `ndsctl json`: whether it reported an error, and its combined output. */
  datatype ExecResult = ExecResult(failed: bool, output: string)

  /**
   * The client map the loop walks. When decoding fails before anything
   * is filled in (`None`), the record keeps its zero value: no clients.
   */
  function ClientsOf(decoded: Option<Snapshot>): map<string, ClientRecord>
  {
    if decoded.Some? then decoded.value.clients else map[]
  }

  /** The error flag: the command failed, or it printed exactly the not-started message. */
  predicate ServiceDown(exec: ExecResult)
  {
    exec.failed || exec.output == NotStartedOutput
  }

  predicate IsAuthenticated(c: ClientRecord)
  {
    c.state == AuthenticatedState
  }

  /** Every state other than exactly "Authenticated", the empty one included. */
  predicate IsPreAuth(c: ClientRecord)
  {
    !IsAuthenticated(c)
  }

  /** A client whose traffic is reported: authenticated, and both counters parse. */
  predicate Reportable(c: ClientRecord)
  {
    IsAuthenticated(c) && Atoi(c.downloaded).Some? && Atoi(c.uploaded).Some?
  }

  function PortalTags(cfg: Config): map<string, string>
  {
    map[PortalTag := cfg.name]
  }

  function ClientTags(cfg: Config, c: ClientRecord): map<string, string>
  {
    map[PortalTag := cfg.name,
        "Mac_Address" := ToUpperAscii(c.mac),
        "Ip_Address" := c.ip,
        "ID" := c.id,
        "Token" := c.token,
        "Auth" := c.state]
  }

  function DownloadPoint(cfg: Config, c: ClientRecord): Point
    requires Reportable(c)
  {
    IntPoint("Download_Bytes", ClientTags(cfg, c), Atoi(c.downloaded).value * BytesPerKiB)
  }

  function UploadPoint(cfg: Config, c: ClientRecord): Point
    requires Reportable(c)
  {
    IntPoint("Upload_Bytes", ClientTags(cfg, c), Atoi(c.uploaded).value * BytesPerKiB)
  }

  /** The traffic points of one client: two for a reportable client, none otherwise. */
  function TrafficPoints(cfg: Config, c: ClientRecord): seq<Point>
  {
    if Reportable(c) then [DownloadPoint(cfg, c), UploadPoint(cfg, c)] else []
  }

  /** The keys of the clients that satisfy `p`, whatever order the map is walked in. */
  function IdsWhere(clients: map<string, ClientRecord>, p: ClientRecord -> bool): set<string>
  {
    set k | k in clients && p(clients[k])
  }

  function AuthenticatedIds(clients: map<string, ClientRecord>): set<string>
  {
    IdsWhere(clients, IsAuthenticated)
  }

  function PreAuthIds(clients: map<string, ClientRecord>): set<string>
  {
    IdsWhere(clients, IsPreAuth)
  }

  function ReportableIds(clients: map<string, ClientRecord>): set<string>
  {
    IdsWhere(clients, Reportable)
  }

  /** `order` is a visiting order of the map: every key exactly once. */
  predicate Enumerates(order: seq<string>, clients: map<string, ClientRecord>)
  {
    && Distinct(order)
    && (forall i :: 0 <= i < |order| ==> order[i] in clients)
    && (forall k :: k in clients ==> k in order)
  }

  /** The traffic points of the client stored under a key. */
  function TrafficOfKey(cfg: Config, clients: map<string, ClientRecord>): string -> seq<Point>
  {
    k => if k in clients then TrafficPoints(cfg, clients[k]) else []
  }

  /** The traffic points of the clients in `order`, in that order. */
  function TrafficSeq(cfg: Config, clients: map<string, ClientRecord>, order: seq<string>): seq<Point>
  {
    Flatten(order, TrafficOfKey(cfg, clients))
  }

  /** Whether the client stored under a key satisfies `p`. */
  function KeyWhere(clients: map<string, ClientRecord>, p: ClientRecord -> bool): string -> bool
  {
    k => k in clients && p(clients[k])
  }

  /** How many of the clients in `order` satisfy `p`. */
  function Tally(clients: map<string, ClientRecord>, order: seq<string>, p: ClientRecord -> bool): nat
  {
    Count(order, KeyWhere(clients, p))
  }

  /** The aggregate points: only `NdsError`=1 when the service is down, else the two tallies and `NdsError`=0. */
  function AggregatePoints(cfg: Config, serviceDown: bool, authenticated: int, preauth: int): seq<Point>
  {
    if serviceDown then [IntPoint("NdsError", PortalTags(cfg), 1)]
    else [IntPoint("Authenticated", PortalTags(cfg), authenticated),
          IntPoint("PreAuth", PortalTags(cfg), preauth),
          IntPoint("NdsError", PortalTags(cfg), 0)]
  }

  function ProbeTimePoints(cfg: Config, probeTimeNs: int): seq<Point>
  {
    if cfg.selfMonitor then [IntPoint("ProbeTime", PortalTags(cfg), probeTimeNs)] else []
  }

  /** The whole batch of one cycle, for the map visited in `order`. */
  function ProbePoints(cfg: Config, exec: ExecResult, decoded: Option<Snapshot>, order: seq<string>, probeTimeNs: int): (r: seq<Point>)
    ensures |r| == |TrafficSeq(cfg, ClientsOf(decoded), order)| + (if ServiceDown(exec) then 1 else 3) + (if cfg.selfMonitor then 1 else 0)
    ensures IntPoint("NdsError", PortalTags(cfg), if ServiceDown(exec) then 1 else 0) in r
  {
    var clients := ClientsOf(decoded);
    TrafficSeq(cfg, clients, order)
    + AggregatePoints(cfg, ServiceDown(exec), Tally(clients, order, IsAuthenticated), Tally(clients, order, IsPreAuth))
    + ProbeTimePoints(cfg, probeTimeNs)
  }

  /** What one more pass of the client loop adds to the tallies and to the traffic points. */
  lemma ClientStep(cfg: Config, clients: map<string, ClientRecord>, order: seq<string>, i: nat)
    requires i < |order| && order[i] in clients
    ensures Tally(clients, order[..i + 1], IsAuthenticated)
      == Tally(clients, order[..i], IsAuthenticated) + (if IsAuthenticated(clients[order[i]]) then 1 else 0)
    ensures Tally(clients, order[..i + 1], IsPreAuth)
      == Tally(clients, order[..i], IsPreAuth) + (if IsPreAuth(clients[order[i]]) then 1 else 0)
    ensures TrafficSeq(cfg, clients, order[..i + 1])
      == TrafficSeq(cfg, clients, order[..i]) + TrafficPoints(cfg, clients[order[i]])
  {
    assert order[..i + 1][..i] == order[..i];
  }

  lemma AppendAssoc<T>(a: seq<T>, b: seq<T>, c: seq<T>)
    ensures (a + b) + c == a + (b + c)
  {
  }

  /**
   * The client loop of `probeNDS`: tally every client as authenticated or
   * pre-auth, and append the traffic points of each one.
   */
  method AddClientPoints(cfg: Config, clients: map<string, ClientRecord>, order: seq<string>, bp: Batch)
    returns (authenticated: nat, preauth: nat)
    requires Enumerates(order, clients)
    modifies bp
    ensures bp.points == old(bp.points) + TrafficSeq(cfg, clients, order)
    ensures authenticated == Tally(clients, order, IsAuthenticated)
    ensures preauth == Tally(clients, order, IsPreAuth)
  {
    authenticated, preauth := 0, 0;
    for i := 0 to |order|
      modifies bp
      invariant bp.points == old(bp.points) + TrafficSeq(cfg, clients, order[..i])
      invariant authenticated == Tally(clients, order[..i], IsAuthenticated)
      invariant preauth == Tally(clients, order[..i], IsPreAuth)
    {
      var value := clients[order[i]];
      ClientStep(cfg, clients, order, i);
      if value.state == AuthenticatedState {
        authenticated := authenticated + 1;
      } else {
        preauth := preauth + 1;
      }
      AddTrafficPoints(cfg, value, bp);
      AppendAssoc(old(bp.points), TrafficSeq(cfg, clients, order[..i]), TrafficPoints(cfg, value));
    }
    assert order[..|order|] == order;
  }

  /**
   * One pass of the client loop after the tally: tag the client, parse
   * both counters, and append `Download_Bytes` and `Upload_Bytes` (KiB
   * times 1024) only when both parse and the client is authenticated.
   */
  method AddTrafficPoints(cfg: Config, value: ClientRecord, bp: Batch)
    modifies bp
    ensures bp.points == old(bp.points) + TrafficPoints(cfg, value)
  {
    // The tags of this client, rebuilt on every pass.
    var looptags := ClientTags(cfg, value);
    var skip := false;

    var downBytes := 0;
    var down := Atoi(value.downloaded);
    if down.None? {
      skip := true;
    } else {
      downBytes := down.value * BytesPerKiB;
    }
    var upBytes := 0;
    var up := Atoi(value.uploaded);
    if up.None? {
      skip := true;
    } else {
      upBytes := up.value * BytesPerKiB;
    }

    // Unauthenticated clients get no traffic points.
    if !skip && value.state == AuthenticatedState {
      QueuePointInt("Download_Bytes", looptags, downBytes, bp);
      QueuePointInt("Upload_Bytes", looptags, upBytes, bp);
    }
  }

  /** The aggregate part of `probeNDS`: `NdsError`=1 alone, or both tallies and `NdsError`=0. */
  method AddAggregatePoints(cfg: Config, ndsError: bool, authenticated: int, preauth: int, bp: Batch)
    modifies bp
    ensures bp.points == old(bp.points) + AggregatePoints(cfg, ndsError, authenticated, preauth)
  {
    var tags := PortalTags(cfg);
    if ndsError {
      QueuePointInt("NdsError", tags, 1, bp);
    } else {
      QueuePointInt("Authenticated", tags, authenticated, bp);
      QueuePointInt("PreAuth", tags, preauth, bp);
      QueuePointInt("NdsError", tags, 0, bp);
    }
  }

  /**
   * The batch-building part of `probeNDS`: the error flag, the optional
   * restart, the client loop, the aggregates and the optional ProbeTime
   * point.
   */
  method BuildBatch(cfg: Config, exec: ExecResult, decoded: Option<Snapshot>, order: seq<string>, probeTimeNs: int)
    returns (bp: Batch, restartAttempted: bool)
    requires Enumerates(order, ClientsOf(decoded))
    ensures fresh(bp) && bp.database == cfg.influxDB
    ensures bp.points == ProbePoints(cfg, exec, decoded, order, probeTimeNs)
    ensures restartAttempted == (ServiceDown(exec) && cfg.allowRestart)
  {
    var tags := PortalTags(cfg);
    var authenticated, preauth := 0, 0;
    var ndsError := false;

    bp := new Batch(cfg);

    if exec.failed {
      ndsError := true;
    }
    if exec.output == NotStartedOutput {
      ndsError := true;
    }

    // The restart command's own result is only logged.
    restartAttempted := false;
    if ndsError && cfg.allowRestart {
      restartAttempted := true;
    }

    var clients := ClientsOf(decoded);
    authenticated, preauth := AddClientPoints(cfg, clients, order, bp);
    assert bp.points == TrafficSeq(cfg, clients, order);
    AddAggregatePoints(cfg, ndsError, authenticated, preauth, bp);

    if cfg.selfMonitor {
      QueuePointInt("ProbeTime", tags, probeTimeNs, bp);
    }
  }

  /**
   * `probeNDS`. The batch is built, then sent only when fewer than 1000
   * batches are waiting, and dropped otherwise.
   */
  method ProbeNds(queue: DbQueue, cfg: Config, exec: ExecResult, decoded: Option<Snapshot>,
                  order: seq<string>, probeTimeNs: int)
    returns (bp: Batch, restartAttempted: bool, queued: bool)
    requires queue.Valid() && queue.capacity == QueueCapacity
    requires Enumerates(order, ClientsOf(decoded))
    modifies queue
    ensures fresh(bp) && bp.database == cfg.influxDB
    ensures bp.points == ProbePoints(cfg, exec, decoded, order, probeTimeNs)
    ensures restartAttempted == (ServiceDown(exec) && cfg.allowRestart)
    ensures queue.Valid()
    ensures queued == (|old(queue.items)| < QueueCapacity)
    ensures queue.items == if queued then old(queue.items) + [bp] else old(queue.items)
  {
    bp, restartAttempted := BuildBatch(cfg, exec, decoded, order, probeTimeNs);

    var waiting := queue.Len();
    if waiting < QueueCapacity {
      queue.Send(bp);
      queued := true;
    } else {
      queued := false;
    }
  }
}
