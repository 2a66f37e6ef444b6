/**
 * The main loop (`main` in main.go): on every tick count the tick, log a
 * liveness line every 30th tick, open an ssh session and start a probe
 * cycle with it; when no session can be opened, close the client and
 * reconnect instead, and skip the probe for that tick.
 *
 * The ticker, the ssh library and the probe goroutines are outside the
 * model: each tick arrives with whether a session could be opened and,
 * if a reconnect is needed, whether it succeeds.
 */
module Scheduler {
  import opened Enumerations

  /** A liveness line is logged on every tick whose count is a multiple of this. */
  const LivenessPeriod: nat := 30

  /**
   * The ssh client: usable, nil after a failed reconnect (opening a
   * session on it panics), or gone because that panic ended the process.
   */
  datatype SshClient = Live | Nil | Gone

  datatype LoopState = LoopState(active: nat, client: SshClient)

  /** What the ssh library answers on one tick. */
  datatype TickInput = TickInput(sessionOk: bool, reconnectOk: bool)

  datatype TickOutcome =
    | Launched              // a probe cycle was started with a fresh session
    | Reconnected(ok: bool) // no session: the client was replaced, or is nil when `ok` is false
    | Panicked              // a session was asked of a nil client
    | Halted                // the process has already ended

  /** One tick's outcome and whether it logged the liveness line. */
  datatype TickReport = TickReport(outcome: TickOutcome, logged: bool)

  /** The ticks whose count is a multiple of 30 log the liveness line. */
  predicate IsLivenessTick(active: nat)
  {
    active % LivenessPeriod == 0
  }

  /** One pass of the `for range ticker.C` loop. */
  function Tick(s: LoopState, t: TickInput): (r: (LoopState, TickReport))
    ensures r.0.client.Gone? <==> !s.client.Live?
    ensures s.client != Gone ==> r.0.active == s.active + 1 && r.1.logged == IsLivenessTick(r.0.active)
    ensures s.client == Gone ==> r.0 == s && r.1.outcome == Halted && !r.1.logged
    ensures r.1.outcome.Launched? <==> s.client == Live && t.sessionOk
    ensures r.1.outcome.Panicked? <==> s.client == Nil
    ensures s.client.Live? && !t.sessionOk ==> r.1.outcome == Reconnected(t.reconnectOk) && (r.0.client.Live? <==> t.reconnectOk)
  {
    if s.client == Gone then (s, TickReport(Halted, false))
    else
      var active := s.active + 1;
      var logged := IsLivenessTick(active);
      if s.client == Nil then (LoopState(active, Gone), TickReport(Panicked, logged))
      else if t.sessionOk then (LoopState(active, Live), TickReport(Launched, logged))
      else (LoopState(active, if t.reconnectOk then Live else Nil), TickReport(Reconnected(t.reconnectOk), logged))
  }

  /** The state after one tick per input, in order. */
  function RunTicks(s: LoopState, ts: seq<TickInput>): LoopState
  {
    if ts == [] then s else Tick(RunTicks(s, ts[..|ts| - 1]), ts[|ts| - 1]).0
  }

  /** The report of each of those ticks. */
  function Reports(s: LoopState, ts: seq<TickInput>): (r: seq<TickReport>)
    ensures |r| == |ts|
  {
    if ts == [] then [] else Reports(s, ts[..|ts| - 1]) + [Tick(RunTicks(s, ts[..|ts| - 1]), ts[|ts| - 1]).1]
  }

  predicate IsLaunch(r: TickReport)
  {
    r.outcome.Launched?
  }

  predicate IsLogged(r: TickReport)
  {
    r.logged
  }

  predicate SessionOk(t: TickInput)
  {
    t.sessionOk
  }

  class MainLoop {
    var active: nat
    var client: SshClient

    function State(): LoopState
      reads this
    {
      LoopState(active, client)
    }

    constructor ()
      ensures State() == LoopState(0, Live)
    {
      active := 0;
      client := Live;
    }

    /** The start of `main`: the first ssh connection, or the end of the process when it fails. */
    static method Start(connected: bool) returns (m: MainLoop?)
      ensures m == null <==> !connected
      ensures m != null ==> fresh(m) && m.State() == LoopState(0, Live)
    {
      if connected {
        m := new MainLoop();
      } else {
        m := null;
      }
    }

    /** One tick: count it, maybe log, then start a probe or reconnect. */
    method OnTick(t: TickInput) returns (report: TickReport)
      requires client != Gone
      modifies this
      ensures (State(), report) == Tick(old(State()), t)
    {
      active := active + 1;
      var mark := active % LivenessPeriod;
      var logged := mark == 0;
      if client == Nil {
        client := Gone;
        report := TickReport(Panicked, logged);
        return;
      }
      if t.sessionOk {
        report := TickReport(Launched, logged);
      } else {
        // The client is closed before the new connection is tried.
        client := if t.reconnectOk then Live else Nil;
        report := TickReport(Reconnected(t.reconnectOk), logged);
      }
    }

    /**
     * The loop over the given ticks. It stops early only when the process
     * has ended, and returns how many ticks it took, how many probe
     * cycles it started and how many liveness lines it logged.
     */
    method Run(ticks: seq<TickInput>) returns (n: nat, launched: nat, logged: nat)
      modifies this
      ensures n <= |ticks| && (n < |ticks| ==> client == Gone)
      ensures State() == RunTicks(old(State()), ticks[..n])
      ensures launched == Count(Reports(old(State()), ticks[..n]), IsLaunch)
      ensures logged == Count(Reports(old(State()), ticks[..n]), IsLogged)
    {
      ghost var s0 := State();
      n, launched, logged := 0, 0, 0;
      while n < |ticks| && client != Gone
        invariant n <= |ticks|
        invariant State() == RunTicks(s0, ticks[..n])
        invariant launched == Count(Reports(s0, ticks[..n]), IsLaunch)
        invariant logged == Count(Reports(s0, ticks[..n]), IsLogged)
        decreases |ticks| - n
      {
        var report := OnTick(ticks[n]);
        TickStep(s0, ticks, n);
        if report.outcome.Launched? {
          launched := launched + 1;
        }
        if report.logged {
          logged := logged + 1;
        }
        n := n + 1;
      }
    }
  }

  /** What one more tick adds to the state and to the two counts. */
  lemma TickStep(s: LoopState, ts: seq<TickInput>, i: nat)
    requires i < |ts|
    ensures RunTicks(s, ts[..i + 1]) == Tick(RunTicks(s, ts[..i]), ts[i]).0
    ensures Count(Reports(s, ts[..i + 1]), IsLaunch)
      == Count(Reports(s, ts[..i]), IsLaunch) + (if IsLaunch(Tick(RunTicks(s, ts[..i]), ts[i]).1) then 1 else 0)
    ensures Count(Reports(s, ts[..i + 1]), IsLogged)
      == Count(Reports(s, ts[..i]), IsLogged) + (if IsLogged(Tick(RunTicks(s, ts[..i]), ts[i]).1) then 1 else 0)
  {
    assert ts[..i + 1][..i] == ts[..i];
    var rs := Reports(s, ts[..i + 1]);
    assert rs[..i] == Reports(s, ts[..i]);
  }
}
