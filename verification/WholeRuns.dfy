/** What a whole run of the simulation promises about the tasks and modules that are pending at its start,
    and what has to hold meanwhile. */
module WholeRuns {
  import opened Timestamps
  import opened Scripts
  import opened RunnerStates
  import opened RunnerLaws
  import opened Worlds
  import opened WorldLaws
  import opened TimerLaws
  import opened ModuleTimes

  // ---------------------------------------------------------------- at the end

  /** Every pending task with a target up to `stop` that the timer does not skip has run exactly at its
      target; after a firing that is every one, except what Start has lost sight of already. */
  ghost predicate TasksOnTime(start: World, w: World, stop: int) {
    && (forall i: nat, e: Posted | Tracked(start, i, e, stop) ::
          i < |w.rs| && (Excused(w.rs[i], e, e.due) || Ran(w.rs[i], e, e.due)))
    && (Armed(start, stop) ==>
          forall i: nat, e: Posted | Pending(start, i, e) && e.due <= stop && e !in start.rs[i].lost ::
            i < |w.rs| && (Excused(w.rs[i], e, e.due) || Ran(w.rs[i], e, e.due)))
  }

  /** The same for the modules that wait. */
  ghost predicate ModulesOnTime(start: World, w: World, stop: int) {
    && (forall i: nat, m: Module, k: int | Booked(start, i, m, k, stop) :: Processed(start, w, i, m, k))
    && (Armed(start, stop) ==>
          forall i: nat, m: Module, k: int | i < |start.rs| && Waits(start.rs[i].modules, m, k) && k <= stop ::
            Processed(start, w, i, m, k))
  }

  /** What the timer skips runs, or is processed, exactly at the first firing. */
  ghost predicate SkippedLate(start: World, w: World) {
    && (forall i: nat, e: Posted | Skipped(start, i, e) :: Late(start, w, i, e))
    && (forall i: nat, m: Module, k: int | Missed(start, i, m, k) :: ProcessedLate(start, w, i, m, k))
  }

  /** A pending task with a target up to `stop` that is not excused at its target ran on time if and only
      if there was a timer no later than the target. */
  ghost predicate OnTimeIff(start: World, w: World, stop: int) {
    forall i: nat, e: Posted |
      Pending(start, i, e) && e.due <= stop && i < |w.rs| && !Excused(w.rs[i], e, e.due) ::
      Ran(w.rs[i], e, e.due) <==> start.timer.Some? && start.timer.value <= e.due
  }

  // ---------------------------------------------------------------- meanwhile

  /** The run so far: whether the timer has gone off yet, and whether all that happened outside before its
      first firing was calm. */
  ghost predicate SoFar(start: World, w: World, stop: int, fired: bool, calm: bool) {
    && AllAwaited(start, w, stop) && AllKept(start, w, stop)
    && Bookkept(start, w, fired, calm) && Caught(start, w, fired, calm)
  }

  lemma SoFarNothing(start: World, stop: int, calm: bool)
    requires Inv(start, {}) && (start.timer.Some? ==> start.now <= start.timer.value)
    ensures SoFar(start, start, stop, false, calm)
  {
    hide Inv, AllAwaited, AllKept, Bookkept, Caught;
    AwaitedAtStart(start, stop);
    NothingHappened(start, calm);
    KeptAtStart(start, stop);
    NothingCaught(start, calm);
  }

  lemma AwaitedSoFar(start: World, w: World, stop: int, fired: bool, calm: bool, i: nat, e: Posted)
    requires SoFar(start, w, stop, fired, calm) && Tracked(start, i, e, stop)
    ensures Awaited(w, i, e)
  {
    hide AllKept, Caught, Bookkept, Awaited, Tracked;
  }

  lemma SoFarHappened(start: World, u: World, x: World, stop: int, fired: bool, calm: bool)
    requires SoFar(start, u, stop, fired, calm) && AllAwaited(start, x, stop) && Forward(u, x)
    requires x.timer == u.timer && (u.timer.Some? ==> x.now <= u.timer.value)
    requires !fired && calm ==> Quiet(u, x)
    ensures SoFar(start, x, stop, fired, calm)
  {
    hide AllAwaited, AllKept, Bookkept, Caught, Forward, Quiet;
    HappenedCaught(start, u, x, fired, calm);
    HappenedKeeps(start, u, x, fired, calm);
    HappenedKept(start, u, x, stop);
  }

  lemma SoFarFired(start: World, u: World, x: World, stop: int, fired: bool, calm: bool)
    requires Inv(start, {}) && SoFar(start, u, stop, fired, calm) && u.timer == Some(x.now)
    requires AllAwaited(start, x, stop) && Forward(u, x) && Inv(x, {}) && x.yielded == {}
    requires NothingDue(x) && Armed(x, stop)
    ensures SoFar(start, x, stop, true, calm)
  {
    hide Inv, AllAwaited, AllKept, Bookkept, Caught, Forward, NothingDue, Armed;
    FiredCaught(start, u, x, fired, calm);
    FiredKeeps(start, u, x, fired, calm);
    FiredKept(start, u, x, stop);
  }

  /** When neither timer nor event is left. */
  lemma SoFarOver(start: World, w: World, stop: int, fired: bool, calm: bool)
    requires Inv(start, {}) && SoFar(start, w, stop, fired, calm) && w.timer == None
    ensures TasksOnTime(start, w, stop) && ModulesOnTime(start, w, stop)
    ensures calm ==> SkippedLate(start, w) && OnTimeIff(start, w, stop)
  {
    hide Inv, AllAwaited, AllKept, Bookkept, Caught, Armed, Tracked, Booked, Processed, Late, ProcessedLate;
    hide Skipped, Missed, NobodyBefore, Waits, Excused;
    AllRan(start, w, stop);
    PendingRan(start, w, stop);
    AllProcessed(start, w, stop);
    AllProcessedLateAtEnd(start, w, fired, calm);
    AllLateAtEnd(start, w, fired, calm);
    if calm {
      forall i: nat, e: Posted |
        Pending(start, i, e) && e.due <= stop && i < |w.rs| && !Excused(w.rs[i], e, e.due)
        ensures Ran(w.rs[i], e, e.due) <==> start.timer.Some? && start.timer.value <= e.due
      {
        OnTimeExactly(start, w, stop, i, e);
      }
    }
  }
}
