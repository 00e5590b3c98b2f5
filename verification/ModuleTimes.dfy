/** When the modules of process threads are processed: over a whole run, each one exactly at its time. */
module ModuleTimes {
  import opened Timestamps
  import opened Scripts
  import opened RunnerStates
  import opened RunnerLaws
  import opened Worlds
  import opened WorldLaws
  import opened TimerLaws

  /** Module `m` was taken to be processed at time `k`, or a client's call had moved it by then. */
  ghost predicate Handled(log: seq<Gone>, m: Module, k: int) {
    Taken(m, k) in log || MovedBy(m, log, k)
  }

  /** The thread had been deleted by the time `k`. */
  predicate GoneBy(s: RunnerState, k: int) {
    s.deleted && s.deletedAt <= k
  }

  lemma HandledMore(log: seq<Gone>, more: seq<Gone>, m: Module, k: int)
    requires Handled(log, m, k) || Handled(more, m, k)
    ensures Handled(log + more, m, k)
  {
    if MovedBy(m, log, k) {
      var at :| at <= k && Moved(m, at) in log;
      assert Moved(m, at) in log + more;
    } else if MovedBy(m, more, k) {
      var at :| at <= k && Moved(m, at) in more;
      assert Moved(m, at) in log + more;
    }
  }

  /** What has left the module map of runner `i` since the start. */
  function Since(start: World, w: World, i: nat): (log: seq<Gone>)
    requires i < |start.rs| && i < |w.rs| && start.rs[i].gone <= w.rs[i].gone
  {
    w.rs[i].gone[|start.rs[i].gone|..]
  }

  /** The module that waited until `k` at the start has been handled, or its thread was deleted by then, or
      it still waits, and neither the clock nor the timer has passed `k`. */
  ghost predicate Kept(start: World, w: World, i: nat, m: Module, k: int) {
    && i < |start.rs| && i < |w.rs| && start.rs[i].gone <= w.rs[i].gone
    && (GoneBy(w.rs[i], k) || Handled(Since(start, w, i), m, k)
        || (!w.rs[i].deleted && Waits(w.rs[i].modules, m, k)
            && w.now <= k && w.timer.Some? && w.timer.value <= k))
  }

  /** A module that waits at the start for a time up to the stop time that the timer does not skip. */
  ghost predicate Booked(start: World, i: nat, m: Module, k: int, stop: int) {
    i < |start.rs| && Waits(start.rs[i].modules, m, k) && k <= stop && start.timer.Some? && start.timer.value <= k
  }

  ghost predicate AllKept(start: World, w: World, stop: int) {
    forall i: nat, m: Module, k: int | Booked(start, i, m, k, stop) :: Kept(start, w, i, m, k)
  }

  lemma WaitsAlive(w: World, i: nat, m: Module, k: int)
    requires Inv(w, {}) && i < |w.rs| && Waits(w.rs[i].modules, m, k)
    ensures !w.rs[i].deleted
  {
    hide History, Ordered, Accounted, BucketsSorted;
  }

  lemma KeptAtStart(w: World, stop: int)
    requires Inv(w, {}) && (w.timer.Some? ==> w.now <= w.timer.value)
    ensures AllKept(w, w, stop)
  {
    hide Inv, Waits;
    forall i: nat, m: Module, k: int | Booked(w, i, m, k, stop)
      ensures Kept(w, w, i, m, k)
    {
      WaitsAlive(w, i, m, k);
    }
  }

  lemma LeftHandled(t: RunnerState, m: Module, k: int, log: seq<Gone>, now: int)
    requires LeftRightly(t, m, k, log, now) && !Waits(t.modules, m, k) && now <= k
    ensures Handled(log, m, k)
  {
    hide Waits;
  }

  /** A stretch of execution at a time up to `k` handles the module or leaves it where it is. */
  lemma KeptMeanwhile(start: World, u: World, x: World, i: nat, m: Module, k: int)
    requires Kept(start, u, i, m, k) && Forward(u, x)
    requires u.timer.Some? ==> x.now <= u.timer.value
    ensures i < |x.rs| && start.rs[i].gone <= x.rs[i].gone
    ensures GoneBy(x.rs[i], k) || Handled(Since(start, x, i), m, k)
            || (!x.rs[i].deleted && Waits(x.rs[i].modules, m, k)
                && x.now <= k && u.timer.Some? && u.timer.value <= k)
  {
    hide Evolves, Waits, Handled;
    var s, t := u.rs[i], x.rs[i];
    assert Stays(s, t, x.now);
    var log, more := Since(start, u, i), t.gone[|s.gone|..];
    assert Since(start, x, i) == log + more;
    if Handled(log, m, k) {
      HandledMore(log, more, m, k);
    } else if !t.deleted {
      assert LeftRightly(t, m, k, more, x.now);
      if !Waits(t.modules, m, k) {
        LeftHandled(t, m, k, more, x.now);
        HandledMore(log, more, m, k);
      }
    } else {
      assert DiesNow(s, t, x.now);
    }
  }

  /** What still waits after a firing waits at least until the new timer. */
  lemma NotBeforeTimer(w: World, i: nat, m: Module, k: int, stop: int)
    requires Inv(w, {}) && Armed(w, stop) && i < |w.rs| && Waits(w.rs[i].modules, m, k) && k <= stop
    ensures w.timer.Some? && w.timer.value <= k
  {
    hide Accounted, History, Ordered;
    var s := w.rs[i];
    var j :| 0 <= j < |s.modules| && s.modules[j].at == k && m in s.modules[j].members;
    assert i in w.runners;
    assert s.next.AtMost(Micros(s.modules[0].at)) && s.modules[0].at <= s.modules[j].at;
  }

  lemma FiredKept(start: World, u: World, x: World, stop: int)
    requires AllKept(start, u, stop) && u.timer == Some(x.now)
    requires Forward(u, x) && Inv(x, {}) && Armed(x, stop)
    ensures AllKept(start, x, stop)
  {
    hide Forward, Inv, Armed, Waits;
    forall i: nat, m: Module, k: int | Booked(start, i, m, k, stop)
      ensures Kept(start, x, i, m, k)
    {
      KeptMeanwhile(start, u, x, i, m, k);
      if Waits(x.rs[i].modules, m, k) {
        NotBeforeTimer(x, i, m, k, stop);
      }
    }
  }

  lemma HappenedKept(start: World, u: World, x: World, stop: int)
    requires AllKept(start, u, stop) && x.timer == u.timer && (u.timer.Some? ==> x.now <= u.timer.value)
    requires Forward(u, x)
    ensures AllKept(start, x, stop)
  {
    hide Forward, Waits;
    forall i: nat, m: Module, k: int | Booked(start, i, m, k, stop)
      ensures Kept(start, x, i, m, k)
    {
      KeptMeanwhile(start, u, x, i, m, k);
    }
  }

  /** After a firing every module that waits for a time up to the stop time is one of them. */
  lemma WaitingAreBooked(w: World, i: nat, m: Module, k: int, stop: int)
    requires Inv(w, {}) && Armed(w, stop) && i < |w.rs| && Waits(w.rs[i].modules, m, k) && k <= stop
    ensures Booked(w, i, m, k, stop)
  {
    NotBeforeTimer(w, i, m, k, stop);
  }

  /** At the end of a run, every module that the timer did not skip has been processed exactly at its
      time, unless a call had moved it or its thread had been deleted by then. */
  ghost predicate Processed(start: World, w: World, i: nat, m: Module, k: int) {
    && i < |start.rs| && i < |w.rs| && start.rs[i].gone <= w.rs[i].gone
    && (GoneBy(w.rs[i], k) || Handled(Since(start, w, i), m, k))
  }

  lemma AllProcessed(start: World, w: World, stop: int)
    requires Inv(start, {}) && AllKept(start, w, stop) && w.timer == None
    ensures forall i: nat, m: Module, k: int | Booked(start, i, m, k, stop) :: Processed(start, w, i, m, k)
    ensures Armed(start, stop) ==> forall i: nat, m: Module, k: int |
              i < |start.rs| && Waits(start.rs[i].modules, m, k) && k <= stop :: Processed(start, w, i, m, k)
  {
    hide Inv, Armed, Waits;
    if Armed(start, stop) {
      forall i: nat, m: Module, k: int | i < |start.rs| && Waits(start.rs[i].modules, m, k) && k <= stop
        ensures Processed(start, w, i, m, k)
      {
        WaitingAreBooked(start, i, m, k, stop);
        assert Kept(start, w, i, m, k);
      }
    }
  }

  // ---------------------------------------------------------------- times that the timer skips

  /** A module that waits for a time before the timer, or without one. */
  ghost predicate Missed(start: World, i: nat, m: Module, k: int) {
    && i < |start.rs| && Waits(start.rs[i].modules, m, k)
    && (start.timer.None? || k < start.timer.value)
  }

  /** It is processed exactly at that firing, late, unless a call had moved it or its thread had been
      deleted by then; without a timer it waits for ever, unless that happens. */
  ghost predicate ProcessedLate(start: World, w: World, i: nat, m: Module, k: int) {
    && i < |start.rs| && i < |w.rs| && start.rs[i].gone <= w.rs[i].gone
    && match start.timer
       case Some(firing) => GoneBy(w.rs[i], firing) || Handled(Since(start, w, i), m, firing)
       case None => w.rs[i].deleted || MovedBy(m, Since(start, w, i), w.now) || Waits(w.rs[i].modules, m, k)
  }

  ghost predicate AllProcessedLate(start: World, w: World) {
    forall i: nat, m: Module, k: int | Missed(start, i, m, k) :: ProcessedLate(start, w, i, m, k)
  }

  /** The first firing takes it. */
  lemma MissedTaken(start: World, u: World, x: World, i: nat, m: Module, k: int)
    requires Inv(start, {}) && Quiet(start, u) && Missed(start, i, m, k) && start.timer == Some(x.now)
    requires Forward(u, x) && Inv(x, {}) && x.yielded == {} && NothingDue(x)
    ensures ProcessedLate(start, x, i, m, k)
  {
    hide Evolves, Rests, NothingDue, Inv, Waits;
    var s, t := u.rs[i], x.rs[i];
    assert Untaken(start.rs[i], s, u.now) && Stays(s, t, x.now);
    var log, more := Since(start, u, i), t.gone[|s.gone|..];
    assert Since(start, x, i) == log + more;
    if MovedBy(m, log, u.now) {
      HandledMore(log, more, m, x.now);
    } else if !t.deleted {
      assert LeftRightly(t, m, k, more, x.now);
      NoLongerWaits(x, i, m, k);
      HandledMore(log, more, m, x.now);
    } else {
      assert DiesNow(s, t, x.now);
      WaitsAlive(start, i, m, k);
    }
  }

  /** Nothing overdue is left waiting after a firing. */
  lemma NoLongerWaits(x: World, i: nat, m: Module, k: int)
    requires Inv(x, {}) && x.yielded == {} && NothingDue(x) && i < |x.rs| && k < x.now
    ensures !Waits(x.rs[i].modules, m, k)
  {
    hide History, Ordered, Accounted, BucketsSorted;
  }

  lemma ProcessedLateStays(start: World, u: World, x: World, i: nat, m: Module, k: int)
    requires ProcessedLate(start, u, i, m, k) && start.timer.Some? && Forward(u, x)
    ensures ProcessedLate(start, x, i, m, k)
  {
    hide Evolves, Waits, Handled;
    var s, t := u.rs[i], x.rs[i];
    assert Stays(s, t, x.now);
    assert Since(start, x, i) == Since(start, u, i) + t.gone[|s.gone|..];
    if Handled(Since(start, u, i), m, start.timer.value) {
      HandledMore(Since(start, u, i), t.gone[|s.gone|..], m, start.timer.value);
    }
  }

  /** After a firing every missed module has been processed, if what happened outside before was calm. */
  ghost predicate Caught(start: World, w: World, fired: bool, calm: bool) {
    fired && calm ==> AllProcessedLate(start, w)
  }

  lemma NothingCaught(start: World, calm: bool)
    ensures Caught(start, start, false, calm)
  {
  }

  lemma FiredCaught(start: World, u: World, x: World, fired: bool, calm: bool)
    requires Bookkept(start, u, fired, calm) && Caught(start, u, fired, calm) && u.timer == Some(x.now)
    requires Inv(start, {})
    requires Forward(u, x) && Inv(x, {}) && x.yielded == {} && NothingDue(x)
    ensures Caught(start, x, true, calm)
  {
    hide Quiet, Missed, ProcessedLate, Forward, Inv, NothingDue, Late, Skipped;
    if calm {
      forall i: nat, m: Module, k: int | Missed(start, i, m, k)
        ensures ProcessedLate(start, x, i, m, k)
      {
        if fired {
          ProcessedLateStays(start, u, x, i, m, k);
        } else {
          MissedTaken(start, u, x, i, m, k);
        }
      }
    }
  }

  lemma HappenedCaught(start: World, u: World, x: World, fired: bool, calm: bool)
    requires Bookkept(start, u, fired, calm) && Caught(start, u, fired, calm) && Forward(u, x)
    ensures Caught(start, x, fired, calm)
  {
    hide Quiet, Missed, ProcessedLate, Forward, Late, Skipped;
    if fired && calm {
      forall i: nat, m: Module, k: int | Missed(start, i, m, k)
        ensures ProcessedLate(start, x, i, m, k)
      {
        ProcessedLateStays(start, u, x, i, m, k);
      }
    }
  }

  lemma AllProcessedLateAtEnd(start: World, w: World, fired: bool, calm: bool)
    requires Bookkept(start, w, fired, calm) && Caught(start, w, fired, calm) && w.timer == None
    ensures calm ==> AllProcessedLate(start, w)
  {
    hide Missed, Rests, Waits, Late, Skipped;
    if calm && !fired {
      forall i: nat, m: Module, k: int | Missed(start, i, m, k)
        ensures ProcessedLate(start, w, i, m, k)
      {
        StillWaits(start, w, i, m, k);
      }
    }
  }

  lemma StillWaits(start: World, w: World, i: nat, m: Module, k: int)
    requires Quiet(start, w) && Missed(start, i, m, k) && start.timer == None
    ensures ProcessedLate(start, w, i, m, k)
  {
    hide Rests, Waits;
    assert Untaken(start.rs[i], w.rs[i], w.now);
  }
}
