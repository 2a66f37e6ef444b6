/**
 * The store side (db.go): opening the InfluxDB client and the worker that
 * drains the queue, writing each batch once and backing off when the
 * store stops answering.
 *
 * The client library is not part of the model. What it answers (whether
 * it accepts the address, whether a write or a ping succeeds) arrives as
 * data: one `BatchOutcome` per batch. The worker is described twice: as a
 * pure state machine (`Step`, `Replay`) and as the `Worker` class that
 * does the same thing in place, proved against it.
 */
module Store {
  import opened Settings
  import opened Points
  import opened Queue

  /** Timeout given to the HTTP client. */
  const ClientTimeoutSeconds: nat := 180

  /** The n-th back-off in a row sleeps n times this long. */
  const BackoffStepSeconds: nat := 30

  /** The settings handed to the HTTP client. */
  datatype HttpConfig = HttpConfig(addr: string, username: string, password: string, timeoutSeconds: nat)

  /**
   * How `connectInfluxdb` ends: the process exits when no address is set,
   * the library may refuse the settings (the caller then holds a nil
   * client), or there is a client.
   */
  datatype ConnectResult = NoAddress | ClientRefused | Connected(http: HttpConfig)

  /**
   * `connectInfluxdb`. `accepted` is the library's verdict on the
   * settings. The user name sent is the server address, not the
   * configured InfluxDB user name.
   */
  function ConnectInfluxdb(cfg: Config, accepted: bool): (r: ConnectResult)
    ensures r.NoAddress? <==> cfg.influxdbServer == ""
    ensures r.Connected? <==> cfg.influxdbServer != "" && accepted
    ensures r.Connected? ==> r.http.addr == cfg.influxdbServer && r.http.password == cfg.influxPassword
    ensures r.Connected? ==> r.http.username == cfg.influxdbServer && r.http.timeoutSeconds == ClientTimeoutSeconds
  {
    if cfg.influxdbServer == "" then NoAddress
    else if !accepted then ClientRefused
    else Connected(HttpConfig(cfg.influxdbServer, cfg.influxdbServer, cfg.influxPassword, ClientTimeoutSeconds))
  }

  /**
   * The worker's client: open, nil after a refused reconnect (the next
   * write on it panics), or gone because that panic ended the process.
   */
  datatype Conn = Open | Nil | Crashed

  datatype WorkerState = WorkerState(errcount: nat, conn: Conn)

  /** The state right after a successful start. */
  const Started: WorkerState := WorkerState(0, Open)

  /** What the store answers while one batch is handled; an answer that is never asked for is ignored. */
  datatype BatchOutcome = BatchOutcome(writeOk: bool, pingOk: bool, reconnectOk: bool)

  /** What the worker does with one batch. */
  datatype Action =
    | Written                                       // the store took the batch
    | Dropped                                       // the write failed but the store still answers
    | BackedOff(sleepSeconds: nat, reconnected: bool) // write and ping failed: sleep, then reconnect
    | Panicked                                      // a write on a nil client
    | Halted                                        // the process has already ended

  /** A failed write that the ping confirms: the store is unreachable. */
  predicate ConfirmedFailure(o: BatchOutcome)
  {
    !o.writeOk && !o.pingOk
  }

  /**
   * One pass of the `dbWorker` loop. The batch itself is never retried: it
   * reaches the store only through a successful write on an open client, a
   * nil client ends the process, and the count of confirmed failures only
   * grows, one per back-off, until a write succeeds.
   */
  function Step(s: WorkerState, o: BatchOutcome): (r: (WorkerState, Action))
    ensures r.1.Written? <==> s.conn == Open && o.writeOk
    ensures r.1.Written? ==> r.0 == Started
    ensures r.0.conn == Crashed <==> s.conn != Open
    ensures r.1.BackedOff? <==> s.conn == Open && ConfirmedFailure(o)
    ensures r.1.BackedOff? ==> r.0.errcount == s.errcount + 1 && r.1.sleepSeconds == BackoffStepSeconds * r.0.errcount
    ensures r.1.BackedOff? ==> (r.0.conn == Open <==> o.reconnectOk)
    ensures r.0.errcount != s.errcount ==> r.1.Written? || r.1.BackedOff?
  {
    match s.conn
    case Crashed => (s, Halted)
    case Nil => (s.(conn := Crashed), Panicked)
    case Open =>
      if o.writeOk then (WorkerState(0, Open), Written)
      else if o.pingOk then (s, Dropped)
      else
        var n := s.errcount + 1;
        (WorkerState(n, if o.reconnectOk then Open else Nil), BackedOff(BackoffStepSeconds * n, o.reconnectOk))
  }

  /** The state after handling one batch per outcome, in order. */
  function Replay(s: WorkerState, os: seq<BatchOutcome>): WorkerState
  {
    if os == [] then s else Step(Replay(s, os[..|os| - 1]), os[|os| - 1]).0
  }

  /** What the worker did with each of those batches. */
  function Actions(s: WorkerState, os: seq<BatchOutcome>): (r: seq<Action>)
    ensures |r| == |os|
  {
    if os == [] then [] else Actions(s, os[..|os| - 1]) + [Step(Replay(s, os[..|os| - 1]), os[|os| - 1]).1]
  }

  /** The batches that reached the store, in the order they were taken from the queue. */
  function Delivered(items: seq<Batch>, actions: seq<Action>): seq<Batch>
    requires |items| == |actions|
  {
    if items == [] then []
    else
      var n := |items| - 1;
      Delivered(items[..n], actions[..n]) + (if actions[n].Written? then [items[n]] else [])
  }

  class Worker {
    const cfg: Config
    var errcount: nat
    var conn: Conn
    /** The batches the store has taken, oldest first. */
    var written: seq<Batch>

    /** A worker exists only for a configuration with an address. */
    predicate Valid()
      reads this
    {
      cfg.influxdbServer != ""
    }

    function State(): WorkerState
      reads this
    {
      WorkerState(errcount, conn)
    }

    constructor (cfg: Config)
      requires cfg.influxdbServer != ""
      ensures Valid() && this.cfg == cfg && State() == Started && written == []
    {
      this.cfg := cfg;
      errcount := 0;
      conn := Open;
      written := [];
    }

    /** The start of `dbWorker`: connect, or end the process when that fails. */
    static method Launch(cfg: Config, accepted: bool) returns (w: Worker?)
      ensures w == null <==> !ConnectInfluxdb(cfg, accepted).Connected?
      ensures w != null ==> fresh(w) && w.Valid() && w.cfg == cfg && w.State() == Started && w.written == []
    {
      var r := ConnectInfluxdb(cfg, accepted);
      if r.Connected? {
        w := new Worker(cfg);
      } else {
        w := null;
      }
    }

    /** One pass of the loop: write `bp`; on failure ping, and back off and reconnect when the ping fails too. */
    method HandleBatch(bp: Batch, o: BatchOutcome) returns (a: Action)
      requires Valid() && conn != Crashed
      modifies this
      ensures Valid()
      ensures (State(), a) == Step(old(State()), o)
      ensures written == old(written) + (if a.Written? then [bp] else [])
    {
      if conn == Nil {
        conn := Crashed;
        a := Panicked;
        return;
      }
      if o.writeOk {
        written := written + [bp];
        errcount := 0;
        a := Written;
      } else if !o.pingOk {
        errcount := errcount + 1;
        // The old client is closed and the worker sleeps before reconnecting.
        var sleepSeconds := BackoffStepSeconds * errcount;
        var r := ConnectInfluxdb(cfg, o.reconnectOk);
        conn := if r.Connected? then Open else Nil;
        a := BackedOff(sleepSeconds, r.Connected?);
      } else {
        a := Dropped;
      }
    }

    /**
     * The `range` loop of `dbWorker` over the batches waiting in the queue,
     * with one outcome per batch. It stops early only when the process has
     * ended; every batch taken is handled once and never put back.
     */
    method Run(queue: DbQueue, outcomes: seq<BatchOutcome>) returns (handled: nat)
      requires Valid() && queue.Valid() && |outcomes| == |queue.items|
      modifies this, queue
      ensures Valid() && queue.Valid()
      ensures handled <= |outcomes| && queue.items == old(queue.items)[handled..]
      ensures handled < |outcomes| ==> conn == Crashed
      ensures State() == Replay(old(State()), outcomes[..handled])
      ensures written == old(written) + Delivered(old(queue.items)[..handled], Actions(old(State()), outcomes[..handled]))
    {
      ghost var items := queue.items;
      ghost var s0 := State();
      handled := 0;
      while handled < |outcomes| && conn != Crashed
        invariant Valid() && queue.Valid()
        invariant handled <= |outcomes| && queue.items == items[handled..]
        invariant State() == Replay(s0, outcomes[..handled])
        invariant written == old(written) + Delivered(items[..handled], Actions(s0, outcomes[..handled]))
        decreases |outcomes| - handled
      {
        var b := queue.Receive();
        var a := HandleBatch(b.value, outcomes[handled]);
        RunStep(s0, items, outcomes, handled);
        handled := handled + 1;
      }
    }
  }

  /** What one more pass of the loop adds to the replayed state, the actions and the delivered batches. */
  lemma RunStep(s: WorkerState, items: seq<Batch>, os: seq<BatchOutcome>, i: nat)
    requires i < |os| == |items|
    ensures Replay(s, os[..i + 1]) == Step(Replay(s, os[..i]), os[i]).0
    ensures Actions(s, os[..i + 1]) == Actions(s, os[..i]) + [Step(Replay(s, os[..i]), os[i]).1]
    ensures Delivered(items[..i + 1], Actions(s, os[..i + 1]))
      == Delivered(items[..i], Actions(s, os[..i]))
         + (if Step(Replay(s, os[..i]), os[i]).1.Written? then [items[i]] else [])
  {
    assert os[..i + 1][..i] == os[..i];
    assert items[..i + 1][..i] == items[..i];
    var acts := Actions(s, os[..i + 1]);
    assert acts[..i] == Actions(s, os[..i]);
  }
}
