/**
 * What the store worker promises over a run of batches: the error count
 * is the number of confirmed failures since the last successful write,
 * the n-th of them sleeps 30n seconds, a failure the ping does not
 * confirm changes nothing, a panic ends everything, and every batch
 * reaches the store at most once, in queue order.
 */
module StoreLemmas {
  import opened Points
  import opened Enumerations
  import opened Store

  /** The outcomes after the last successful write (all of them when there was none). */
  function SinceLastWrite(os: seq<BatchOutcome>): seq<BatchOutcome>
  {
    if os == [] then []
    else if os[|os| - 1].writeOk then []
    else SinceLastWrite(os[..|os| - 1]) + [os[|os| - 1]]
  }

  /**
   * `SinceLastWrite` is the tail of the run that holds no successful
   * write and is preceded by one (or is the whole run).
   */
  lemma {:induction false} SinceLastWriteIsTail(os: seq<BatchOutcome>)
    ensures |SinceLastWrite(os)| <= |os|
    ensures forall i :: 0 <= i < |SinceLastWrite(os)| ==> SinceLastWrite(os)[i] == os[|os| - |SinceLastWrite(os)| + i]
    ensures forall i :: 0 <= i < |SinceLastWrite(os)| ==> !SinceLastWrite(os)[i].writeOk
    ensures |SinceLastWrite(os)| < |os| ==> os[|os| - |SinceLastWrite(os)| - 1].writeOk
    decreases |os|
  {
    if os != [] && !os[|os| - 1].writeOk {
      var p := os[..|os| - 1];
      SinceLastWriteIsTail(p);
      var q := SinceLastWrite(p);
      assert SinceLastWrite(os) == q + [os[|os| - 1]];
      forall i | 0 <= i < |q| ensures q[i] == os[|os| - |q| - 1 + i] {
        assert q[i] == p[|p| - |q| + i];
      }
    }
  }

  lemma {:induction false} ReplayAppend(s: WorkerState, a: seq<BatchOutcome>, b: seq<BatchOutcome>)
    ensures Replay(s, a + b) == Replay(Replay(s, a), b)
    decreases |b|
  {
    if b == [] {
      assert a + b == a;
    } else {
      var c := b[..|b| - 1];
      ReplayAppend(s, a, c);
      assert (a + b)[..|a + b| - 1] == a + c;
    }
  }

  /** Once the process has ended, nothing changes and nothing more is done. */
  lemma {:induction false} CrashedAbsorbs(s: WorkerState, os: seq<BatchOutcome>)
    requires s.conn == Crashed
    ensures Replay(s, os) == s
    ensures forall i :: 0 <= i < |os| ==> Actions(s, os)[i] == Halted
    decreases |os|
  {
    if os != [] {
      CrashedAbsorbs(s, os[..|os| - 1]);
    }
  }

  /** A run that has not ended had an open client before its last batch. */
  lemma AliveBefore(s: WorkerState, os: seq<BatchOutcome>)
    requires os != [] && Replay(s, os).conn != Crashed
    ensures Replay(s, os[..|os| - 1]).conn == Open
  {
  }

  /**
   * While the process runs, `errcount` is the number of failures the
   * ping confirmed since the last successful write.
   */
  lemma {:induction false} ErrcountCountsFailures(os: seq<BatchOutcome>)
    requires Replay(Started, os).conn != Crashed
    ensures Replay(Started, os).errcount == Count(SinceLastWrite(os), ConfirmedFailure)
    decreases |os|
  {
    if os != [] {
      var p, o := os[..|os| - 1], os[|os| - 1];
      var before := Replay(Started, p);
      assert Replay(Started, os) == Step(before, o).0;
      AliveBefore(Started, os);
      ErrcountCountsFailures(p);
      if o.writeOk {
        assert SinceLastWrite(os) == [];
      } else {
        assert SinceLastWrite(os) == SinceLastWrite(p) + [o];
        CountSnoc(SinceLastWrite(p), o, ConfirmedFailure);
      }
    }
  }

  /** The n-th confirmed failure in a row sleeps n times 30 seconds before reconnecting. */
  lemma BackoffGrows(os: seq<BatchOutcome>, o: BatchOutcome)
    requires Replay(Started, os).conn == Open && ConfirmedFailure(o)
    ensures Step(Replay(Started, os), o).1
      == BackedOff(BackoffStepSeconds * Count(SinceLastWrite(os + [o]), ConfirmedFailure), o.reconnectOk)
  {
    ErrcountCountsFailures(os);
    var run := os + [o];
    assert run[..|os|] == os && run[|os|] == o;
    assert SinceLastWrite(run) == SinceLastWrite(os) + [o];
    CountSnoc(SinceLastWrite(os), o, ConfirmedFailure);
  }

  /** A successful write clears the count, whatever came before. */
  lemma WriteClearsCount(os: seq<BatchOutcome>, o: BatchOutcome)
    requires Replay(Started, os).conn == Open && o.writeOk
    ensures Replay(Started, os + [o]) == Started
    ensures Count(SinceLastWrite(os + [o]), ConfirmedFailure) == 0
  {
    assert (os + [o])[..|os|] == os;
  }

  /** A failed write that the ping does not confirm leaves no trace, unless it hits a nil client. */
  lemma UnconfirmedFailureIsNeutral(s: WorkerState, a: seq<BatchOutcome>, o: BatchOutcome, b: seq<BatchOutcome>)
    requires !o.writeOk && o.pingOk && Replay(s, a).conn != Nil
    ensures Replay(s, a + [o] + b) == Replay(s, a + b)
  {
    ReplayAppend(s, a + [o], b);
    ReplayAppend(s, a, [o]);
    ReplayAppend(s, a, b);
    assert [o][..0] == [];
    if Replay(s, a).conn == Crashed {
      CrashedAbsorbs(Replay(s, a), [o]);
    }
  }

  /** After a refused reconnect the client is nil, the next batch panics, and the process ends. */
  lemma RefusedReconnectPanics(os: seq<BatchOutcome>, o: BatchOutcome, next: BatchOutcome)
    requires Replay(Started, os).conn == Open && ConfirmedFailure(o) && !o.reconnectOk
    ensures Replay(Started, os + [o]).conn == Nil
    ensures Step(Replay(Started, os + [o]), next).1 == Panicked
    ensures Replay(Started, os + [o, next]).conn == Crashed
  {
    var run := os + [o, next];
    assert run[..|run| - 1] == os + [o];
    assert (os + [o])[..|os|] == os;
  }

  /** No batch reaches the store twice, and only batches from the queue reach it. */
  lemma {:induction false} DeliveredAtMostOnce(items: seq<Batch>, actions: seq<Action>)
    requires |items| == |actions|
    ensures multiset(Delivered(items, actions)) <= multiset(items)
    decreases |items|
  {
    if items != [] {
      var n := |items| - 1;
      DeliveredAtMostOnce(items[..n], actions[..n]);
      assert items == items[..n] + [items[n]];
    }
  }

  /** When every write succeeds, every batch reaches the store, in queue order, and the count stays 0. */
  lemma {:induction false} HealthyStoreDeliversAll(items: seq<Batch>, os: seq<BatchOutcome>)
    requires |items| == |os| && forall i :: 0 <= i < |os| ==> os[i].writeOk
    ensures Replay(Started, os) == Started
    ensures Delivered(items, Actions(Started, os)) == items
    decreases |os|
  {
    if os != [] {
      var n := |os| - 1;
      HealthyStoreDeliversAll(items[..n], os[..n]);
      assert Actions(Started, os)[..n] == Actions(Started, os[..n]);
      assert items == items[..n] + [items[n]];
    }
  }

  /** A worker that has ended leaves the rest of the queue untouched: the run's state is that of all outcomes. */
  lemma StoppedRunIsWholeRun(s: WorkerState, os: seq<BatchOutcome>, handled: nat)
    requires handled <= |os| && (handled < |os| ==> Replay(s, os[..handled]).conn == Crashed)
    ensures Replay(s, os) == Replay(s, os[..handled])
  {
    assert os == os[..handled] + os[handled..];
    ReplayAppend(s, os[..handled], os[handled..]);
    if handled < |os| {
      CrashedAbsorbs(Replay(s, os[..handled]), os[handled..]);
    }
  }
}
