/**
 * What the main loop promises over a run of ticks: the tick count, one
 * liveness line per 30 ticks, one probe cycle per tick that got a
 * session, and the end of the process on the tick after a failed
 * reconnect.
 */
module SchedulerLemmas {
  import opened Enumerations
  import opened Scheduler

  /** Once the process has ended, no tick changes anything. */
  lemma {:induction false} GoneAbsorbs(s: LoopState, ts: seq<TickInput>)
    requires s.client == Gone
    ensures RunTicks(s, ts) == s
    decreases |ts|
  {
    if ts != [] {
      GoneAbsorbs(s, ts[..|ts| - 1]);
    }
  }

  /** A run that has not ended had a usable client before its last tick. */
  lemma LiveBeforeLastTick(s: LoopState, ts: seq<TickInput>)
    requires ts != [] && RunTicks(s, ts).client != Gone
    ensures RunTicks(s, ts[..|ts| - 1]).client == Live
  {
  }

  /** A live client stays live over any run in which every tick opens a session or reconnects. */
  lemma {:induction false} ReconnectsKeepRunning(s: LoopState, ts: seq<TickInput>)
    requires s.client == Live
    requires forall i :: 0 <= i < |ts| ==> ts[i].sessionOk || ts[i].reconnectOk
    ensures RunTicks(s, ts).client == Live
    decreases |ts|
  {
    if ts != [] {
      var p := ts[..|ts| - 1];
      assert forall i :: 0 <= i < |p| ==> p[i] == ts[i];
      ReconnectsKeepRunning(s, p);
      assert ts[|ts| - 1].sessionOk || ts[|ts| - 1].reconnectOk;
    }
  }

  /** While the process runs, every tick is counted. */
  lemma {:induction false} ActiveCountsTicks(s: LoopState, ts: seq<TickInput>)
    requires s.client == Live && RunTicks(s, ts).client != Gone
    ensures RunTicks(s, ts).active == s.active + |ts|
    decreases |ts|
  {
    if ts != [] {
      LiveBeforeLastTick(s, ts);
      ActiveCountsTicks(s, ts[..|ts| - 1]);
    }
  }

  /** How many of the tick counts a + 1, ..., a + n are multiples of 30. */
  function MultiplesPassed(a: nat, n: nat): nat
  {
    if n == 0 then 0 else MultiplesPassed(a, n - 1) + (if IsLivenessTick(a + n) then 1 else 0)
  }

  /** Moving the tick count on by one adds one multiple exactly when the new count is a multiple of 30. */
  lemma NextMultiple(a: nat, m: nat, lines: int, logged: bool)
    requires lines == m / LivenessPeriod - a / LivenessPeriod && logged == IsLivenessTick(m + 1)
    ensures lines + (if logged then 1 else 0) == (m + 1) / LivenessPeriod - a / LivenessPeriod
  {
  }

  lemma {:induction false} MultiplesPassedQuotient(a: nat, n: nat)
    ensures MultiplesPassed(a, n) == (a + n) / LivenessPeriod - a / LivenessPeriod
    decreases n
  {
    if n > 0 {
      MultiplesPassedQuotient(a, n - 1);
      NextMultiple(a, a + n - 1, MultiplesPassed(a, n - 1), IsLivenessTick(a + n));
    }
  }

  /** What the last tick of a run adds to the count of liveness lines. */
  lemma LastTickLogs(s: LoopState, ts: seq<TickInput>)
    requires ts != [] && RunTicks(s, ts[..|ts| - 1]).client == Live
    ensures Count(Reports(s, ts), IsLogged) == Count(Reports(s, ts[..|ts| - 1]), IsLogged)
      + (if IsLivenessTick(RunTicks(s, ts[..|ts| - 1]).active + 1) then 1 else 0)
  {
    var p := ts[..|ts| - 1];
    var r := Tick(RunTicks(s, p), ts[|ts| - 1]).1;
    assert r.logged == IsLivenessTick(RunTicks(s, p).active + 1);
    assert Reports(s, ts) == Reports(s, p) + [r];
    CountSnoc(Reports(s, p), r, IsLogged);
  }

  /**
   * While the process runs, each tick logs a liveness line exactly when its
   * count is a multiple of 30, and starts a probe cycle exactly when its
   * session opened.
   */
  lemma {:induction false} ReportsPerTick(s: LoopState, ts: seq<TickInput>)
    requires s.client == Live && RunTicks(s, ts).client != Gone
    ensures forall i :: 0 <= i < |ts| ==> Reports(s, ts)[i].logged == IsLivenessTick(s.active + i + 1)
    ensures forall i :: 0 <= i < |ts| ==> (Reports(s, ts)[i].outcome.Launched? <==> ts[i].sessionOk)
    decreases |ts|
  {
    if ts != [] {
      var p := ts[..|ts| - 1];
      LiveBeforeLastTick(s, ts);
      ReportsPerTick(s, p);
      ActiveCountsTicks(s, p);
      var rs := Reports(s, ts);
      assert rs == Reports(s, p) + [Tick(RunTicks(s, p), ts[|p|]).1];
      forall i | 0 <= i < |ts|
        ensures rs[i].logged == IsLivenessTick(s.active + i + 1)
        ensures rs[i].outcome.Launched? <==> ts[i].sessionOk
      {
        if i < |p| {
          assert rs[i] == Reports(s, p)[i] && ts[i] == p[i];
        }
      }
    }
  }

  lemma {:induction false} LoggedCount(s: LoopState, ts: seq<TickInput>)
    requires s.client == Live && RunTicks(s, ts).client != Gone
    ensures Count(Reports(s, ts), IsLogged) == MultiplesPassed(s.active, |ts|)
    decreases |ts|
  {
    if ts != [] {
      var p := ts[..|ts| - 1];
      LiveBeforeLastTick(s, ts);
      LoggedCount(s, p);
      ActiveCountsTicks(s, p);
      LastTickLogs(s, ts);
    }
  }

  /**
   * While the process runs, a liveness line is logged on exactly the ticks
   * whose count is a multiple of 30, so there are as many lines as such ticks.
   */
  lemma LoggedTicksArePassedMultiples(s: LoopState, ts: seq<TickInput>)
    requires s.client == Live && RunTicks(s, ts).client != Gone
    ensures forall i :: 0 <= i < |ts| ==> Reports(s, ts)[i].logged == IsLivenessTick(s.active + i + 1)
    ensures Count(Reports(s, ts), IsLogged) == MultiplesPassed(s.active, |ts|)
  {
    ReportsPerTick(s, ts);
    LoggedCount(s, ts);
  }

  /** While the process runs, the liveness lines are the multiples of 30 the tick count passed. */
  lemma LivenessLogCount(s: LoopState, ts: seq<TickInput>)
    requires s.client == Live && RunTicks(s, ts).client != Gone
    ensures Count(Reports(s, ts), IsLogged) == (s.active + |ts|) / LivenessPeriod - s.active / LivenessPeriod
  {
    LoggedCount(s, ts);
    MultiplesPassedQuotient(s.active, |ts|);
  }

  /** While the process runs, one probe cycle is started per tick that got a session. */
  lemma {:induction false} LaunchesCountSessions(s: LoopState, ts: seq<TickInput>)
    requires s.client == Live && RunTicks(s, ts).client != Gone
    ensures forall i :: 0 <= i < |ts| ==> (Reports(s, ts)[i].outcome.Launched? <==> ts[i].sessionOk)
    ensures Count(Reports(s, ts), IsLaunch) == Count(ts, SessionOk)
    decreases |ts|
  {
    ReportsPerTick(s, ts);
    if ts != [] {
      var p := ts[..|ts| - 1];
      LiveBeforeLastTick(s, ts);
      LaunchesCountSessions(s, p);
      assert Reports(s, ts)[..|p|] == Reports(s, p);
    }
  }

  /** A failed reconnect leaves a nil client: the next tick panics and the process ends. */
  lemma FailedReconnectEndsProcess(s: LoopState, t: TickInput, next: TickInput)
    requires s.client == Live && !t.sessionOk && !t.reconnectOk
    ensures Tick(s, t).1.outcome == Reconnected(false)
    ensures Tick(Tick(s, t).0, next).1.outcome == Panicked
    ensures Tick(Tick(s, t).0, next).0.client == Gone
  {
  }
}
