/** The timer: what a firing leaves behind, how the clock may advance, and why no delayed task of
    a task queue is ever early or late. */
module TimerLaws {
  import opened Timestamps
  import opened Scripts
  import opened RunnerStates
  import opened RunnerLaws
  import opened Worlds
  import opened WorldLaws

  /** The next run time of every registered runner lies after `t`. */
  ghost predicate AllAfter(w: World, t: int) {
    forall r | r in w.runners && r < |w.rs| :: !w.rs[r].next.AtMost(Micros(t))
  }

  /** A firing leaves the timer set to a later time that no runner's next run time precedes; or
      it leaves no timer, and then nobody has anything to run up to `stop`. */
  ghost predicate Armed(w: World, stop: int) {
    match w.timer
    case Some(f) =>
      w.now < f && forall r | r in w.runners && r < |w.rs| :: Micros(f).AtMost(w.rs[r].next)
    case None => AllAfter(w, stop)
  }

  ghost predicate Ran(s: RunnerState, e: Posted, at: int) {
    exists i :: 0 <= i < |s.ran| && i < |s.ranAt| && s.ran[i] == e && s.ranAt[i] == at
  }

  /** Why the task `e` need not have run by the time `at`: its runner had been deleted by then, or it is a
      thread whose Start lost sight of this task while it was waiting. */
  predicate Excused(s: RunnerState, e: Posted, at: int) {
    (s.deleted && s.deletedAt <= at) || e in s.lost
  }

  /** The delayed task `e` of runner `i` was gone with its queue by its target, ran exactly then, or still
      waits and its target has not passed. */
  ghost predicate OnTime(w: World, i: nat, e: Posted) {
    && i < |w.rs|
    && (Excused(w.rs[i], e, e.due) || Ran(w.rs[i], e, e.due) || (e in w.rs[i].delayed && w.now <= e.due))
  }

  /** The same, and while it waits the timer will not skip its target. */
  ghost predicate Awaited(w: World, i: nat, e: Posted) {
    && OnTime(w, i, e)
    && (Excused(w.rs[i], e, e.due) || Ran(w.rs[i], e, e.due) || (w.timer.Some? && w.timer.value <= e.due))
  }

  lemma AdvanceKeeps(s: RunnerState, now: int, later: int)
    requires Coherent(s, now) && now <= later
    ensures Coherent(s, later)
  {
    hide InOrder, Accounted;
  }

  function Advanced(w: World, later: int): World {
    w.(now := later)
  }

  lemma AdvanceInv(w: World, later: int)
    requires Inv(w, {}) && w.now <= later
    ensures Inv(Advanced(w, later), {})
  {
    hide Coherent;
    forall i | 0 <= i < |w.rs|
      ensures Coherent(w.rs[i], later)
    {
      AdvanceKeeps(w.rs[i], w.now, later);
    }
  }

  /** What is pending on a registered runner is no earlier than its next run time. */
  lemma DelayedNotBefore(w: World, i: nat, e: Posted)
    requires Inv(w, {}) && i < |w.rs| && e in w.rs[i].delayed && e !in w.rs[i].lost
    ensures i in w.runners && w.rs[i].next.AtMost(Micros(e.due))
  {
    hide Accounted;
    DelayedSorted(w.rs[i]);
  }

  /** Between firings: whatever runs at a time up to the target leaves the task on time. */
  lemma OnTimeMoves(w: World, v: World, i: nat, e: Posted)
    requires OnTime(w, i, e) && Moves(w, v) && Inv(v, {}) && e.delayed
    ensures OnTime(v, i, e)
  {
    hide Accounted, Ordered, Agrees, BucketsSorted;
    var s, t := w.rs[i], v.rs[i];
    assert Evolves(s, t, w.now);
    if !t.deleted {
      if Ran(s, e, e.due) {
        RanLater(s, t, e, e.due, w.now);
      } else if e in Line(t)[|Line(s)|..] {
        JoinedMeansRan(s, t, e, v.now);
        HistoryNotEarly(t, e, v.now);
      }
    }
  }

  lemma RanLater(s: RunnerState, t: RunnerState, e: Posted, at: int, now: int)
    requires Ran(s, e, at) && Evolves(s, t, now)
    ensures Ran(t, e, at)
  {
    var j :| 0 <= j < |s.ran| && j < |s.ranAt| && s.ran[j] == e && s.ranAt[j] == at;
    assert t.ran[j] == e && t.ranAt[j] == at;
  }

  /** A delayed task that has joined the line of an inactive runner has run, just now. */
  lemma JoinedMeansRan(s: RunnerState, t: RunnerState, e: Posted, now: int)
    requires Evolves(s, t, now) && NoneMoved(t) && !t.deleted
    requires e in Line(t)[|Line(s)|..] && e.delayed
    ensures Ran(t, e, now)
  {
    var k :| 0 <= k < |Line(t)[|Line(s)|..]| && Line(t)[|Line(s)|..][k] == e;
    var j := |Line(s)| + k;
    assert Line(t)[j] == e;
    assert forall m | |t.ran| <= m < |Line(t)| :: Line(t)[m] == t.queue[m - |t.ran|];
    assert t.ran[j] == e && t.ranAt[j] == now;
  }

  /** What has run at some time was due then. */
  lemma HistoryNotEarly(s: RunnerState, e: Posted, now: int)
    requires History(s, now)
    ensures forall at | Ran(s, e, at) :: e.due <= at <= now
  {
  }

  /** After a firing, a task that still waits is awaited by the new timer. */
  lemma AwaitedAfterFiring(w: World, i: nat, e: Posted, stop: int)
    requires OnTime(w, i, e) && Inv(w, {}) && Armed(w, stop) && e.due <= stop
    ensures Awaited(w, i, e)
  {
    hide Coherent;
    if e in w.rs[i].delayed && e !in w.rs[i].lost {
      DelayedNotBefore(w, i, e);
    }
  }

  lemma AwaitedBetween(w: World, v: World, i: nat, e: Posted)
    requires Awaited(w, i, e) && OnTime(v, i, e) && Moves(w, v)
    ensures Awaited(v, i, e)
  {
    var s, t := w.rs[i], v.rs[i];
    assert Evolves(s, t, w.now);
    if Ran(s, e, e.due) {
      RanLater(s, t, e, e.due, w.now);
    }
  }

  lemma NobodyActive(w: World, cur: Context)
    ensures Covered(w, cur, {})
  {
  }

  lemma ReachYielded(w: World, v: World, frames: set<nat>)
    requires Reach(w, v, frames, 0)
    ensures v.yielded == w.yielded && v.now == w.now && v.timer == w.timer
  {
  }

  lemma SettledMeansAfter(w: World)
    requires Settled(w) && w.ready == [] && w.yielded == {}
    ensures AllAfter(w, w.now)
  {
    assert forall r | r in w.runners && r < |w.rs| :: !IsDue(w, r);
  }

  lemma TimerDoesNotMatter(w: World, v: World)
    requires Inv(w, {}) && v == w.(timer := v.timer)
    ensures Inv(v, {})
  {
    hide Coherent;
  }

  /** One firing keeps every awaited task on time: `w` is the world when the timer goes off. */
  lemma FiringLaw(u: World, w: World, x: World, i: nat, e: Posted, stop: int)
    requires u.timer.Some? && w == u.(now := u.timer.value, timer := None)
    requires Moves(w, x.(timer := w.timer)) && Inv(x, {}) && Armed(x, stop) && AllAfter(x, x.now)
    requires Awaited(u, i, e) && e.delayed && e.due <= stop
    ensures Awaited(x, i, e)
  {
    hide Evolves, Armed, Inv, AllAfter;
    var y := x.(timer := w.timer);
    TimerDoesNotMatter(x, y);
    assert OnTime(w, i, e) by {
      if !(Excused(u.rs[i], e, e.due) || Ran(u.rs[i], e, e.due)) {
        assert w.now <= e.due;
      }
    }
    OnTimeMoves(w, y, i, e);
    AwaitedAfterFiring(x, i, e, stop);
  }

  /** A delayed task that is pending at the start. */
  ghost predicate Pending(start: World, i: nat, e: Posted) {
    i < |start.rs| && e in start.rs[i].delayed && e.delayed
  }

  /** Pending tasks with a target up to the stop time that the timer did not skip: they run on time. */
  ghost predicate Tracked(start: World, i: nat, e: Posted, stop: int) {
    Pending(start, i, e) && e.due <= stop && start.timer.Some? && start.timer.value <= e.due
  }

  ghost predicate AllAwaited(start: World, w: World, stop: int) {
    forall i: nat, e: Posted | Tracked(start, i, e, stop) :: Awaited(w, i, e)
  }

  /** After a firing, every pending delayed task with a target up to the stop time is one of them,
      unless Start has lost sight of it. Only what is posted between firings may not be. */
  lemma PendingAreTracked(w: World, i: nat, e: Posted, stop: int)
    requires Inv(w, {}) && Armed(w, stop)
    requires Pending(w, i, e) && e.due <= stop && e !in w.rs[i].lost
    ensures Tracked(w, i, e, stop)
  {
    hide Ordered, Agrees, Accounted;
    DelayedNotBefore(w, i, e);
  }

  lemma AwaitedAtStart(w: World, stop: int)
    requires w.timer.Some? ==> w.now <= w.timer.value
    ensures AllAwaited(w, w, stop)
  {
  }

  lemma MovesTimer(w: World, v: World)
    requires Moves(w, v)
    ensures v.timer == w.timer && v.now == w.now
  {
  }

  /** Outside code that runs no later than the next firing keeps every awaited task on time. */
  lemma HappeningLaw(u: World, w: World, x: World, i: nat, e: Posted)
    requires w == Advanced(u, w.now) && (u.timer.Some? ==> w.now <= u.timer.value)
    requires Moves(w, x) && Inv(x, {}) && Awaited(u, i, e) && e.delayed
    ensures Awaited(x, i, e)
  {
    hide Evolves, Inv;
    OnTimeMoves(w, x, i, e);
    AwaitedBetween(w, x, i, e);
  }

  // ---------------------------------------------------------------- targets that the timer skips

  /** Pending tasks whose target comes before the timer, or for which there is no timer. */
  ghost predicate Skipped(start: World, i: nat, e: Posted) {
    Pending(start, i, e) && (start.timer.None? || e.due < start.timer.value)
  }

  /** Such a task runs exactly at that firing, late; without a timer it waits as long as its runner lives. */
  ghost predicate Late(start: World, w: World, i: nat, e: Posted) {
    && i < |w.rs|
    && match start.timer
       case Some(firing) => Excused(w.rs[i], e, firing) || Ran(w.rs[i], e, firing)
       case None => w.rs[i].deleted || e in w.rs[i].delayed
  }

  /** Nobody has run since the start before the time for which the timer was set then. */
  ghost predicate NobodyBefore(start: World, w: World) {
    && |w.rs| == |start.rs|
    && forall i | 0 <= i < |w.rs| ::
         && start.rs[i].ran <= w.rs[i].ran && |w.rs[i].ranAt| == |w.rs[i].ran|
         && forall j | |start.rs[i].ran| <= j < |w.rs[i].ran| ::
              start.timer.Some? && start.timer.value <= w.rs[i].ranAt[j]
  }

  ghost predicate AllLate(start: World, w: World) {
    NobodyBefore(start, w) && forall i: nat, e: Posted | Skipped(start, i, e) :: Late(start, w, i, e)
  }

  /** Every runner has gone on from `u` to `x`, with what ran since running at the time of `x`. */
  ghost predicate Forward(u: World, x: World) {
    && |x.rs| == |u.rs| && u.now <= x.now
    && (forall i | 0 <= i < |u.rs| :: Evolves(u.rs[i], x.rs[i], x.now))
    && (forall i | 0 <= i < |u.rs| :: Stays(u.rs[i], x.rs[i], x.now))
  }

  lemma MovesForward(u: World, w: World, x: World)
    requires w.rs == u.rs && u.now <= w.now && Moves(w, x.(timer := w.timer))
    ensures Forward(u, x)
  {
  }

  /** Before the firing a skipped task still waits, as nobody runs. */
  lemma SkippedWaits(start: World, u: World, i: nat, e: Posted)
    requires Quiet(start, u) && Skipped(start, i, e)
    ensures i < |u.rs| && (u.rs[i].deleted || e in u.rs[i].delayed)
  {
    assert Rests(start.rs[i], u.rs[i]);
  }

  /** The firing runs it. */
  lemma SkippedRuns(start: World, u: World, x: World, i: nat, e: Posted)
    requires Quiet(start, u) && Skipped(start, i, e) && start.timer == Some(x.now)
    requires Forward(u, x) && Inv(x, {}) && x.yielded == {} && NothingDue(x)
    ensures Late(start, x, i, e)
  {
    hide Quiet, Skipped, NothingDue, Evolves, Inv;
    SkippedWaits(start, u, i, e);
    var s, t := u.rs[i], x.rs[i];
    SkippedFacts(start, x, i, e);
    assert Evolves(s, t, x.now);
    if !Excused(t, e, x.now) {
      DeadByNow(x, i);
      NoLongerDelayed(x, i, e);
      StillAlive(s, t, x.now);
      JoinedLine(s, t, e, x.now);
      InactiveAt(x, i);
      JoinedMeansRan(s, t, e, x.now);
    }
  }

  lemma SkippedFacts(start: World, x: World, i: nat, e: Posted)
    requires Skipped(start, i, e) && start.timer == Some(x.now)
    ensures e.delayed && e.due < x.now
  {
  }

  lemma StillAlive(s: RunnerState, t: RunnerState, now: int)
    requires Evolves(s, t, now) && !t.deleted
    ensures !s.deleted
  {
  }

  lemma JoinedLine(s: RunnerState, t: RunnerState, e: Posted, now: int)
    requires Evolves(s, t, now) && !t.deleted && e in s.delayed && e !in t.delayed
    ensures e in Line(t)[|Line(s)|..]
  {
  }

  lemma DeadByNow(x: World, i: nat)
    requires Inv(x, {}) && i < |x.rs|
    ensures x.rs[i].deleted ==> x.rs[i].deletedAt <= x.now
  {
  }

  lemma InactiveAt(x: World, i: nat)
    requires Inv(x, {}) && i < |x.rs|
    ensures NoneMoved(x.rs[i])
  {
  }

  /** Nothing overdue is left waiting after a firing. */
  lemma NoLongerDelayed(x: World, i: nat, e: Posted)
    requires Inv(x, {}) && x.yielded == {} && NothingDue(x) && i < |x.rs|
    requires !x.rs[i].deleted && e !in x.rs[i].lost && e.due < x.now
    ensures e !in x.rs[i].delayed
  {
    hide History, Ordered, Accounted, BucketsSorted;
  }

  /** What has run late stays so. */
  lemma LateStays(start: World, u: World, x: World, i: nat, e: Posted)
    requires Late(start, u, i, e) && start.timer.Some? && Forward(u, x)
    ensures Late(start, x, i, e)
  {
    var s, t := u.rs[i], x.rs[i];
    assert Evolves(s, t, x.now);
    if !Excused(s, e, start.timer.value) {
      RanLater(s, t, e, start.timer.value, x.now);
    }
  }

  /** Outside events that come before the next firing. */
  predicate Precedes(at: int, first: bool, timer: Option<int>) {
    timer.None? || at < timer.value || (at == timer.value && first)
  }

  /** The run so far: before the first firing, if what happened outside was calm, nobody has run; after
      it, every skipped task has run at that firing. */
  ghost predicate Bookkept(start: World, w: World, fired: bool, calm: bool) {
    if fired then start.timer.Some? && start.timer.value <= w.now && (calm ==> AllLate(start, w))
    else w.timer == start.timer && (calm ==> Quiet(start, w))
  }

  lemma ForwardTime(u: World, x: World)
    requires Forward(u, x)
    ensures u.now <= x.now
  {
  }

  lemma QuietNobody(start: World, u: World)
    requires Inv(start, {}) && Quiet(start, u)
    ensures NobodyBefore(start, u)
  {
    hide Untaken, Ordered, Agrees, Accounted, NoneMoved, BucketsSorted;
  }

  lemma NobodyForward(start: World, u: World, x: World)
    requires NobodyBefore(start, u) && Forward(u, x)
    requires start.timer.Some? && (start.timer.value <= u.now || start.timer.value <= x.now)
    ensures NobodyBefore(start, x)
  {
    hide Stays;
  }

  lemma NothingHappened(start: World, calm: bool)
    ensures Bookkept(start, start, false, calm)
  {
    QuietLists(start, start);
  }

  lemma QueuesForgetNothing(w: World)
    requires Inv(w, {})
    ensures forall i | 0 <= i < |w.rs| && i !in w.threads :: w.rs[i].lost == {}
  {
  }

  lemma FiredKeeps(start: World, u: World, x: World, fired: bool, calm: bool)
    requires Bookkept(start, u, fired, calm) && u.timer == Some(x.now)
    requires Inv(start, {})
    requires Forward(u, x) && Inv(x, {}) && x.yielded == {} && NothingDue(x)
    ensures Bookkept(start, x, true, calm)
  {
    hide NobodyBefore, Quiet, Skipped, Late, Forward, Inv, NothingDue;
    ForwardTime(u, x);
    if calm {
      forall i: nat, e: Posted | Skipped(start, i, e)
        ensures Late(start, x, i, e)
      {
        if fired {
          LateStays(start, u, x, i, e);
        } else {
          SkippedRuns(start, u, x, i, e);
        }
      }
      if !fired {
        QuietNobody(start, u);
      }
      NobodyForward(start, u, x);
    }
  }

  lemma HappenedKeeps(start: World, u: World, x: World, fired: bool, calm: bool)
    requires Bookkept(start, u, fired, calm) && x.timer == u.timer && Forward(u, x)
    requires !fired && calm ==> Quiet(u, x)
    ensures Bookkept(start, x, fired, calm)
  {
    hide NobodyBefore, Quiet, Skipped, Late, Forward;
    ForwardTime(u, x);
    if calm && fired {
      forall i: nat, e: Posted | Skipped(start, i, e)
        ensures Late(start, x, i, e)
      {
        LateStays(start, u, x, i, e);
      }
      NobodyForward(start, u, x);
    } else if calm {
      QuietTrans(start, u, x);
    }
  }

  lemma AllLateAtEnd(start: World, w: World, fired: bool, calm: bool)
    requires Inv(start, {}) && Bookkept(start, w, fired, calm) && w.timer == None
    ensures calm ==> AllLate(start, w)
  {
    hide Quiet, NobodyBefore, Inv;
    if calm && !fired {
      QuietNobody(start, w);
      forall i: nat, e: Posted | Skipped(start, i, e)
        ensures Late(start, w, i, e)
      {
        SkippedWaits(start, w, i, e);
      }
    }
  }

  /** A task that still waits has not run. */
  lemma WaitingNotRan(s: RunnerState, e: Posted)
    requires InOrder(Lane(s)) && e in s.delayed
    ensures e !in s.ran
  {
    var k :| 0 <= k < |s.delayed| && s.delayed[k] == e;
    assert Lane(s)[|Line(s)| + k] == e;
    assert forall j | 0 <= j < |s.ran| :: Lane(s)[j] == s.ran[j];
  }

  // ---------------------------------------------------------------- at the end of a run

  /** At the end every task that the timer did not skip has run exactly at its target. */
  lemma AllRan(start: World, w: World, stop: int)
    requires AllAwaited(start, w, stop) && w.timer == None
    ensures forall i: nat, e: Posted | Tracked(start, i, e, stop) ::
              i < |w.rs| && (Excused(w.rs[i], e, e.due) || Ran(w.rs[i], e, e.due))
  {
  }

  lemma PendingRan(start: World, w: World, stop: int)
    requires Inv(start, {}) && AllAwaited(start, w, stop) && w.timer == None
    ensures Armed(start, stop) ==>
              forall i: nat, e: Posted | Pending(start, i, e) && e.due <= stop && e !in start.rs[i].lost ::
                i < |w.rs| && (Excused(w.rs[i], e, e.due) || Ran(w.rs[i], e, e.due))
  {
    hide Inv, Armed, Tracked;
    AllRan(start, w, stop);
    if Armed(start, stop) {
      forall i: nat, e: Posted | Pending(start, i, e) && e.due <= stop && e !in start.rs[i].lost
        ensures i < |w.rs| && (Excused(w.rs[i], e, e.due) || Ran(w.rs[i], e, e.due))
      {
        PendingAreTracked(start, i, e, stop);
      }
    }
  }

  /** If nothing outside runs the scheduler before the next firing, a pending task that is not excused at
      its target runs on time if and only if the timer does not skip it. */
  lemma OnTimeExactly(start: World, w: World, stop: int, i: nat, e: Posted)
    requires Inv(start, {}) && w.timer == None && AllAwaited(start, w, stop) && AllLate(start, w)
    requires Pending(start, i, e) && e.due <= stop && i < |w.rs| && !Excused(w.rs[i], e, e.due)
    ensures Ran(w.rs[i], e, e.due) <==> start.timer.Some? && start.timer.value <= e.due
  {
    hide Awaited, Late, Inv, NobodyBefore;
    if start.timer.Some? && start.timer.value <= e.due {
      AllRan(start, w, stop);
    } else {
      NeverOnTime(start, w, i, e);
    }
  }

  /** A task whose target the timer skips does not run at its target, whatever becomes of its runner. */
  lemma NeverOnTime(start: World, w: World, i: nat, e: Posted)
    requires Inv(start, {}) && Skipped(start, i, e) && NobodyBefore(start, w)
    ensures i < |w.rs| && !Ran(w.rs[i], e, e.due)
  {
    hide Agrees, Accounted, BucketsSorted, InOrder, History;
    WaitingNotRan(start.rs[i], e);
    var s, t := start.rs[i], w.rs[i];
    assert forall j | 0 <= j < |s.ran| :: t.ran[j] == s.ran[j];
  }

  /** Such a task: with the timer at 10 ms, something outside posts at 1 ms with a delay of 2 ms. */
  lemma SkipsOutsidePost()
    ensures var empty := World([CREATED], {}, [0], [], {}, 0, Some(10_000));
            var w := With(Advanced(empty, 1000), 0, RunnerStates.PostDelayedTask(CREATED, Return, 2, 1000));
            && Inv(empty, {}) && Armed(empty, 10_000) && Inv(w, {})
            && Skipped(w, 0, Posted(Return, 0, true, 3000)) && w.rs[0].lost == {}
  {
    hide Inv, Armed, Reach, Skipped, RunnerStates.PostDelayedTask;
    var empty := World([CREATED], {}, [0], [], {}, 0, Some(10_000));
    EmptyWorld(empty);
    AdvanceInv(empty, 1000);
    PostDelayedLaw(Advanced(empty, 1000), 0, Return, 2, {});
    FirstDelayed(Advanced(empty, 1000));
  }

  lemma EmptyWorld(w: World)
    requires w == World([CREATED], {}, [0], [], {}, 0, Some(10_000))
    ensures Inv(w, {}) && Armed(w, 10_000)
  {
    hide Inv;
    FreshWorld(w);
  }

  lemma FirstDelayed(w: World)
    requires |w.rs| > 0 && w.rs[0] == CREATED && w.now == 1000 && w.timer == Some(10_000)
    ensures var s := RunnerStates.PostDelayedTask(CREATED, Return, 2, 1000);
            Skipped(With(w, 0, s), 0, Posted(Return, 0, true, 3000)) && s.lost == {}
  {
    var e := Posted(Return, 0, true, 3000);
    assert Insert([], e) == [e];
  }

  lemma NothingDueAnyTimer(w: World, v: World)
    requires NothingDue(w) && v == w.(timer := v.timer)
    ensures NothingDue(v)
  {
  }

  lemma AllAfterAnyTimer(w: World, v: World)
    requires AllAfter(w, w.now) && v == w.(timer := v.timer)
    ensures AllAfter(v, v.now)
  {
  }
}
