/** One law for each thing that running code can do to the scheduler, and the two readings of
    "nothing left to run" that the controller's loops are about. */
module WorldLaws {
  import opened Timestamps
  import opened Scripts
  import opened RunnerStates
  import opened RunnerLaws
  import opened ModuleLaws
  import opened Worlds

  // ---------------------------------------------------------------- the start

  lemma CreatedIsCoherent(now: int)
    ensures Coherent(CREATED, now)
  {
  }

  /** Before anybody has done anything. */
  lemma FreshWorld(w: World)
    requires (forall i | 0 <= i < |w.rs| :: w.rs[i] == CREATED) && w.ready == []
    requires NoDuplicates(w.runners) && forall r | r in w.runners :: r < |w.rs|
    ensures Inv(w, {})
  {
    CreatedIsCoherent(w.now);
    hide Coherent;
  }

  // ---------------------------------------------------------------- posts and calls

  lemma PostLaw(w: World, r: nat, task: Script, frames: set<nat>)
    requires Inv(w, frames) && r in w.runners && r < |w.rs|
    ensures var v := With(w, r, PostTask(w.rs[r], task, w.now));
            Inv(v, frames) && Reach(w, v, frames, 1 + Size(task))
  {
    hide Coherent, Evolves, Stays, Reach, Load, DueCount;
    PostTaskKeeps(w.rs[r], task, w.now);
    SameModulesDue(w.rs[r], PostTask(w.rs[r], task, w.now), w.now);
    StaysSame(w.rs[r], PostTask(w.rs[r], task, w.now), w.now);
    Update(w, r, PostTask(w.rs[r], task, w.now), frames, 1 + Size(task));
  }

  lemma PostDelayedLaw(w: World, r: nat, task: Script, ms: nat, frames: set<nat>)
    requires Inv(w, frames) && r in w.runners && r < |w.rs|
    ensures var v := With(w, r, PostDelayedTask(w.rs[r], task, ms, w.now));
            Inv(v, frames) && Reach(w, v, frames, 1 + Size(task))
  {
    hide Coherent, Evolves, Stays, Reach, Load, DueCount, Insert;
    PostDelayedTaskKeeps(w.rs[r], task, ms, w.now);
    SameModulesDue(w.rs[r], PostDelayedTask(w.rs[r], task, ms, w.now), w.now);
    StaysSame(w.rs[r], PostDelayedTask(w.rs[r], task, ms, w.now), w.now);
    Update(w, r, PostDelayedTask(w.rs[r], task, ms, w.now), frames, 1 + Size(task));
  }

  lemma SameModulesDue(s: RunnerState, t: RunnerState, now: int)
    requires s.modules == t.modules
    ensures DueCount(s, now) == DueCount(t, now)
  {
  }

  /** How many of the module's waiting times an operation asks for. */
  function Asks(s: RunnerState, op: ThreadOp): nat {
    match op
    case Start => |s.stopped|
    case Stop => 0
    case WakeUp(_) => 1
    case RegisterModule(_) => 1
    case DeRegisterModule(_) => 0
  }

  function Apply(s: RunnerState, op: ThreadOp, now: int, waits: seq<nat>): RunnerState
    requires |waits| == Asks(s, op)
  {
    match op
    case Start => StartThread(s, now, waits)
    case Stop => StopThread(s, now)
    case WakeUp(m) => WakeUpModule(s, m, now + 1000 * waits[0], now)
    case RegisterModule(m) => RegisterModuleAt(s, m, now + 1000 * waits[0])
    case DeRegisterModule(m) => DeRegister(s, m, now)
  }

  lemma ApplyKeeps(s: RunnerState, op: ThreadOp, now: int, waits: seq<nat>)
    requires Coherent(s, now) && !s.deleted && |waits| == Asks(s, op)
    requires forall i | 0 <= i < |waits| :: waits[i] >= 1
    ensures Coherent(Apply(s, op, now, waits), now)
    ensures DueCount(Apply(s, op, now, waits), now) <= DueCount(s, now)
    ensures SameTasks(s, Apply(s, op, now, waits))
  {
    hide Coherent, DueCount, SameTasks, StartThread, StopThread, WakeUpModule, RegisterModuleAt, DeRegister;
    match op
    case Start => StartKeeps(s, now, waits);
    case Stop => StopKeeps(s, now);
    case WakeUp(m) => WakeUpKeeps(s, m, now + 1000 * waits[0], now);
    case RegisterModule(m) => RegisterKeeps(s, m, now + 1000 * waits[0], now);
    case DeRegisterModule(m) => DeRegisterKeeps(s, m, now);
  }

  lemma ApplyStays(s: RunnerState, op: ThreadOp, now: int, waits: seq<nat>)
    requires |waits| == Asks(s, op)
    ensures Stays(s, Apply(s, op, now, waits), now)
  {
    hide Stays, StartThread, StopThread, WakeUpModule, RegisterModuleAt, DeRegister;
    match op
    case Start => StartStays(s, now, waits);
    case Stop => StopStays(s, now);
    case WakeUp(m) => WakeUpStays(s, m, now + 1000 * waits[0], now);
    case RegisterModule(m) => RegisterStays(s, m, now + 1000 * waits[0], now);
    case DeRegisterModule(m) => DeRegisterStays(s, m, now);
  }

  lemma ControlLaw(w: World, r: nat, op: ThreadOp, waits: seq<nat>, frames: set<nat>)
    requires Inv(w, frames) && r in w.runners && r in w.threads && r < |w.rs|
    requires |waits| == Asks(w.rs[r], op) && forall i | 0 <= i < |waits| :: waits[i] >= 1
    ensures var v := With(w, r, Apply(w.rs[r], op, w.now, waits));
            Inv(v, frames) && Reach(w, v, frames, 0)
  {
    hide Agrees, Ordered, Accounted, Evolves, Stays, Reach, Load, DueCount, Apply;
    ApplyKeeps(w.rs[r], op, w.now, waits);
    ApplyStays(w.rs[r], op, w.now, waits);
    SameTasksEvolves(w.rs[r], Apply(w.rs[r], op, w.now, waits), w.now);
    Update(w, r, Apply(w.rs[r], op, w.now, waits), frames, 0);
  }

  // ---------------------------------------------------------------- registration

  /** RemoveByValue: erases the first occurrence. */
  function Remove(xs: seq<nat>, x: nat): seq<nat> {
    if xs == [] then []
    else if xs[0] == x then xs[1..]
    else [xs[0]] + Remove(xs[1..], x)
  }

  lemma {:induction false} RemoveKeeps(xs: seq<nat>, x: nat)
    requires NoDuplicates(xs)
    ensures NoDuplicates(Remove(xs, x))
    ensures forall y :: y in Remove(xs, x) <==> y in xs && y != x
  {
    if xs != [] {
      assert xs == [xs[0]] + xs[1..];
      if xs[0] != x {
        RemoveKeeps(xs[1..], x);
        var rest := Remove(xs[1..], x);
        forall i | 0 <= i < |rest|
          ensures rest[i] != xs[0]
        {
          assert rest[i] in rest;
          var j :| 0 <= j < |xs[1..]| && xs[1..][j] == rest[i];
          assert xs[j + 1] == rest[i];
        }
      }
    }
  }

  /** The first occurrence goes; the others stay in order. */
  lemma {:induction false} RemoveSplits(xs: seq<nat>, x: nat) returns (i: nat)
    requires x in xs
    ensures i < |xs| && xs[i] == x && x !in xs[..i] && Remove(xs, x) == xs[..i] + xs[i + 1..]
  {
    if xs[0] == x {
      i := 0;
    } else {
      var j := RemoveSplits(xs[1..], x);
      i := j + 1;
      assert xs[..i] == [xs[0]] + xs[1..][..j];
    }
  }

  function Created(w: World, r: nat): World {
    w.(runners := w.runners + [r])
  }

  lemma CreateLaw(w: World, r: nat, frames: set<nat>)
    requires Inv(w, frames) && r < |w.rs| && r !in w.runners && !w.rs[r].deleted
    ensures Inv(Created(w, r), frames) && Reach(w, Created(w, r), frames, 0)
  {
    hide Coherent, Reach;
    ReachRefl(w, frames);
    assert Reach(w, Created(w, r), frames, 0) by {
      RunnersReach(w, Created(w, r), frames);
    }
  }

  /** Registration is not what execution is measured by. */
  lemma RunnersReach(w: World, v: World, frames: set<nat>)
    requires Reach(w, w, frames, 0) && v == w.(runners := v.runners)
    ensures Reach(w, v, frames, 0)
  {
    assert Dues(v) == Dues(w) && Loads(v) == Loads(w);
  }

  function Deleted(w: World, r: nat): World
    requires r < |w.rs|
  {
    With(w, r, Destroy(w.rs[r], w.now)).(runners := Remove(w.runners, r), ready := Remove(w.ready, r))
  }

  lemma DeleteInv(w: World, r: nat, frames: set<nat>)
    requires Inv(w, frames) && r < |w.rs| && r in w.runners && r !in frames
    ensures Inv(Deleted(w, r), frames)
  {
    hide Coherent, Remove;
    DestroyKeeps(w.rs[r], w.now);
    RemoveKeeps(w.runners, r);
    RemoveKeeps(w.ready, r);
  }

  lemma DeleteLaw(w: World, r: nat, frames: set<nat>)
    requires Inv(w, frames) && r < |w.rs| && r in w.runners && r !in frames
    ensures Inv(Deleted(w, r), frames) && Reach(w, Deleted(w, r), frames, 0)
  {
    hide Coherent, Evolves, Stays, Remove, Load, DueCount;
    DeleteInv(w, r, frames);
    DestroyStays(w.rs[r], w.now);
    DestroyKeeps(w.rs[r], w.now);
    WithMoves(w, r, Destroy(w.rs[r], w.now), frames);
    WithTotals(w, r, Destroy(w.rs[r], w.now));
    RemoveKeeps(w.ready, r);
    var v := With(w, r, Destroy(w.rs[r], w.now));
    assert Dues(Deleted(w, r)) == Dues(v) && Loads(Deleted(w, r)) == Loads(v);
  }

  // ---------------------------------------------------------------- the steps of RunReady

  lemma EnterLaw(w: World, r: nat, frames: set<nat>)
    requires Inv(w, frames) && r < |w.rs| && r in w.runners && r !in frames
    ensures var v := With(w, r, TakeModules(Enter(w.rs[r]), w.now));
            && Inv(v, frames + {r}) && Moves(w, v) && Held(w, v, frames)
            && TotalDue(v) == TotalDue(w) - DueCount(w.rs[r], w.now) && TotalLoad(v) == TotalLoad(w)
  {
    hide Agrees, Ordered, Accounted, Evolves, Stays, Moves, Held;
    var s := TakeModules(Enter(w.rs[r]), w.now);
    EnterStays(w.rs[r], w.now);
    EnterKeeps(w.rs[r], w.now);
    TakeModulesKeeps(Enter(w.rs[r]), w.now);
    EnterEvolves(w.rs[r], w.now);
    WithMoves(w, r, s, frames);
    WithTotals(w, r, s);
  }

  lemma EnterStays(s: RunnerState, now: int)
    ensures Stays(s, TakeModules(Enter(s), now), now)
  {
    hide Stays;
    TakeStays(Enter(s), now);
    SameModulesStay(s, Enter(s), TakeModules(Enter(s), now), now);
  }

  lemma SameModulesStay(s: RunnerState, m: RunnerState, t: RunnerState, now: int)
    requires Stays(m, t, now) && m.modules == s.modules && m.gone == s.gone
    requires m.deleted == s.deleted && m.deletedAt == s.deletedAt
    ensures Stays(s, t, now)
  {
  }

  lemma EnterEvolves(s: RunnerState, now: int)
    requires |s.ran| == |s.ranAt|
    ensures Evolves(s, TakeModules(Enter(s), now), now)
  {
  }

  lemma RequeueLaw(w: World, r: nat, t: int, frames: set<nat>)
    requires Inv(w, frames) && r < |w.rs| && r in frames && w.rs[r].inFlight != [] && t > w.now
    ensures var v := With(w, r, Requeue(w.rs[r], t));
            && Inv(v, frames) && Moves(w, v) && Held(w, v, frames - {r})
            && TotalDue(v) == TotalDue(w) && TotalLoad(v) == TotalLoad(w)
  {
    hide Ordered, Accounted, Agrees, Evolves, Stays, Moves, Held, AddTo;
    var s := Requeue(w.rs[r], t);
    RequeueStays(w.rs[r], t, w.now);
    RequeueKeeps(w.rs[r], t, w.now);
    assert Evolves(w.rs[r], s, w.now) by {
      RequeueEvolves(w.rs[r], t, w.now);
    }
    WithInv(w, r, s, frames);
    WithMovesExcept(w, r, s, frames);
    WithTotals(w, r, s);
  }

  lemma RequeueEvolves(s: RunnerState, t: int, now: int)
    requires |s.ran| == |s.ranAt| && s.inFlight != []
    ensures Evolves(s, Requeue(s, t), now)
  {
  }

  lemma WithMovesExcept(w: World, r: nat, s: RunnerState, frames: set<nat>)
    requires Inv(w, frames) && r < |w.rs| && Evolves(w.rs[r], s, w.now) && Stays(w.rs[r], s, w.now)
    ensures Moves(w, With(w, r, s)) && Held(w, With(w, r, s), frames - {r})
  {
    hide Coherent, Evolves, Stays, Inv, Moves;
    WithMoves(w, r, s, frames);
  }

  lemma MoveDueLaw(w: World, r: nat, frames: set<nat>)
    requires Inv(w, frames) && r < |w.rs| && r in frames
    ensures var v := With(w, r, MoveDue(w.rs[r], w.now));
            && Inv(v, frames) && Moves(w, v) && Held(w, v, frames - {r})
            && TotalDue(v) == TotalDue(w) && TotalLoad(v) == TotalLoad(w)
  {
    hide Agrees, Ordered, Accounted, Evolves, Stays, Moves, Held, Load;
    var s := MoveDue(w.rs[r], w.now);
    StaysSame(w.rs[r], s, w.now);
    MoveDueKeeps(w.rs[r], w.now);
    MoveDueEvolves(w.rs[r], w.now);
    MoveDueLine(w.rs[r], w.now);
    WithInv(w, r, s, frames);
    WithMovesExcept(w, r, s, frames);
    WithTotals(w, r, s);
  }

  lemma PopLaw(w: World, r: nat, frames: set<nat>)
    requires Inv(w, frames) && r < |w.rs| && r in frames && w.rs[r].queue != []
    ensures var v := With(w, r, PopFront(w.rs[r], w.now));
            && Inv(v, frames) && Moves(w, v) && Held(w, v, frames)
            && TotalDue(v) == TotalDue(w)
            && TotalLoad(v) + 1 + Size(w.rs[r].queue[0].script) == TotalLoad(w)
  {
    hide Agrees, Ordered, Accounted, Evolves, Stays, Moves, Held, Load;
    var s := PopFront(w.rs[r], w.now);
    StaysSame(w.rs[r], s, w.now);
    PopFrontKeeps(w.rs[r], w.now);
    WithInv(w, r, s, frames);
    WithMoves(w, r, s, frames);
    WithTotals(w, r, s);
  }

  lemma FinishLaw(w: World, r: nat, frames: set<nat>)
    requires Inv(w, frames + {r}) && r !in frames && r < |w.rs| && r in w.runners
    requires w.rs[r].activations > 0 && w.rs[r].queue == [] && w.rs[r].inFlight == []
    ensures var v := With(w, r, Finish(w.rs[r]));
            && Inv(v, frames) && Moves(w, v) && Held(w, v, frames)
            && TotalDue(v) == TotalDue(w) && TotalLoad(v) == TotalLoad(w)
  {
    hide Agrees, Ordered, Accounted, Evolves, Stays, Moves, Held, Load;
    var s := Finish(w.rs[r]);
    StaysSame(w.rs[r], s, w.now);
    FinishKeeps(w.rs[r], w.now);
    FinishEvolves(w.rs[r], w.now);
    WithMoves(w, r, s, frames + {r});
    HeldFewer(w, With(w, r, s), frames + {r}, frames);
    WithTotals(w, r, s);
  }

  lemma FinishEvolves(s: RunnerState, now: int)
    requires |s.ran| == |s.ranAt| && s.activations > 0
    ensures Evolves(s, Finish(s), now) && Load(Finish(s)) == Load(s) && DueCount(Finish(s), now) == DueCount(s, now)
  {
  }

  // ---------------------------------------------------------------- nothing left to run

  /** The runners that the scan of RunReadyRunners picks up. */
  predicate IsDue(w: World, r: nat) {
    r < |w.rs| && On(r) !in w.yielded && w.rs[r].next.AtMost(Micros(w.now))
  }

  function DueRunners(w: World, rs: seq<nat>): seq<nat> {
    if rs == [] then []
    else (if IsDue(w, rs[0]) then [rs[0]] else []) + DueRunners(w, rs[1..])
  }

  /** Every registered runner that is due is on the ready list. */
  ghost predicate Settled(w: World) {
    forall r | r in w.runners && IsDue(w, r) :: r in w.ready
  }

  lemma {:induction false} DueRunnersKeeps(w: World, rs: seq<nat>)
    requires NoDuplicates(rs)
    ensures NoDuplicates(DueRunners(w, rs))
    ensures forall r :: r in DueRunners(w, rs) <==> r in rs && IsDue(w, r)
  {
    hide IsDue;
    if rs != [] {
      assert rs == [rs[0]] + rs[1..];
      DueRunnersKeeps(w, rs[1..]);
      var rest := DueRunners(w, rs[1..]);
      forall i | 0 <= i < |rest|
        ensures rest[i] != rs[0]
      {
        assert rest[i] in rest;
        var j :| 0 <= j < |rs[1..]| && rs[1..][j] == rest[i];
        assert rs[j + 1] == rest[i];
      }
    }
  }

  /** RunReady of a runner with nothing to run only refreshed that runner's next run time. */
  ghost predicate Idle(w: World, v: World, r: nat) {
    && r < |w.rs| && r < |v.rs| && v == With(w, r, v.rs[r]) && !IsDue(v, r)
  }

  /** Nothing is left behind at the current time: no registered runner that could have run holds
      a ready task, a due module or (unless Start lost sight of it) a due delayed task. */
  ghost predicate NothingDue(w: World) {
    forall r | r in w.runners && r < |w.rs| && On(r) !in w.yielded ::
      && w.rs[r].queue == []
      && (forall i | 0 <= i < |w.rs[r].modules| :: w.rs[r].modules[i].at > w.now)
      && (forall i | 0 <= i < |w.rs[r].delayed| && w.rs[r].delayed[i] !in w.rs[r].lost ::
            w.rs[r].delayed[i].due > w.now)
  }

  lemma NothingDueOn(w: World, frames: set<nat>, r: nat)
    requires Inv(w, frames) && Settled(w) && w.ready == []
    requires r in w.runners && On(r) !in w.yielded && r !in frames
    ensures r < |w.rs| && w.rs[r].queue == []
    ensures forall i | 0 <= i < |w.rs[r].modules| :: w.rs[r].modules[i].at > w.now
    ensures forall i | 0 <= i < |w.rs[r].delayed| && w.rs[r].delayed[i] !in w.rs[r].lost ::
              w.rs[r].delayed[i].due > w.now
  {
    hide Accounted;
    assert !IsDue(w, r);
    var s := w.rs[r];
    DelayedSorted(s);
    assert BucketsSorted(s.modules);
  }

  /** What is left when the scheduler has settled: the cached times are right about it. */
  lemma SettledMeansNothingDue(w: World, frames: set<nat>)
    requires Inv(w, frames) && Covered(w, Nobody, frames) && Settled(w) && w.ready == []
    ensures NothingDue(w)
  {
    hide Inv, Settled;
    forall r | r in w.runners && r < |w.rs| && On(r) !in w.yielded
      ensures w.rs[r].queue == []
      ensures forall i | 0 <= i < |w.rs[r].modules| :: w.rs[r].modules[i].at > w.now
      ensures forall i | 0 <= i < |w.rs[r].delayed| && w.rs[r].delayed[i] !in w.rs[r].lost ::
              w.rs[r].delayed[i].due > w.now
    {
      NothingDueOn(w, frames, r);
    }
  }

  /** RunReady of a runner with no due module and no ready or due task is idle. */
  lemma IdleLaw(w: World, r: nat, frames: set<nat>)
    requires Inv(w, frames) && r < |w.rs| && r in w.runners && r !in frames
    requires DueCount(w.rs[r], w.now) == 0
    requires MoveDue(TakeModules(Enter(w.rs[r]), w.now), w.now).queue == []
    ensures Idle(w, With(w, r, Finish(MoveDue(TakeModules(Enter(w.rs[r]), w.now), w.now))), r)
  {
    hide Agrees, Ordered, Accounted;
    var s := MoveDue(TakeModules(Enter(w.rs[r]), w.now), w.now);
    EnterKeeps(w.rs[r], w.now);
    TakeModulesKeeps(Enter(w.rs[r]), w.now);
    MoveDueKeeps(TakeModules(Enter(w.rs[r]), w.now), w.now);
    FinishKeeps(s, w.now);
  }

  /** A runner that leaves the ready list and turns out idle leaves the scheduler settled. */
  lemma SettledPop(w: World, v: World, r: nat)
    requires Settled(w) && w.ready != [] && r == w.ready[0]
    requires Idle(w.(ready := w.ready[1..]), v, r)
    ensures Settled(v)
  {
    assert w.ready == [r] + w.ready[1..];
  }

  /** Nobody on the ready list is suspended. */
  ghost predicate Eligible(w: World) {
    forall r | r in w.ready :: On(r) !in w.yielded
  }

  lemma ScanLaw(w: World, frames: set<nat>)
    requires Inv(w, frames) && w.ready == []
    ensures var v := w.(ready := DueRunners(w, w.runners));
            && Inv(v, frames) && Settled(v) && Eligible(v) && Reach(w, w, frames, 0)
            && TotalDue(v) == TotalDue(w) && TotalLoad(v) == TotalLoad(w)
  {
    hide Coherent, DueRunners;
    var v := w.(ready := DueRunners(w, w.runners));
    DueRunnersKeeps(w, w.runners);
    ReachRefl(w, frames);
    assert Dues(v) == Dues(w) && Loads(v) == Loads(w);
  }

  /** A pass that starts from a scanned ready list and empties it, seen without the list. */
  lemma ForgetReady(u: World, p: World, v: World, frames: set<nat>)
    requires p == u.(ready := p.ready) && Reach(p, v, frames, 0) && v.ready == []
    ensures Reach(u, v, frames, 0) && TotalDue(u) == TotalDue(p) && TotalLoad(u) == TotalLoad(p)
  {
    hide Evolves;
    assert Dues(u) == Dues(p) && Loads(u) == Loads(p);
  }

  /** One pass of the loop of RunReadyRunners, from the scan (u, p) to an empty ready list (v). */
  lemma PassOver(a: World, u: World, p: World, v: World, frames: set<nat>)
    requires Reach(a, u, frames, 0) && p == u.(ready := p.ready) && Reach(p, v, frames, 0) && v.ready == []
    requires Inv(u, frames) && u.ready == [] && p.ready == DueRunners(u, u.runners) && p.ready != []
    requires Covered(u, Nobody, frames) && (Progress(p, v) || Settled(v))
    ensures Reach(a, v, frames, 0) && Covered(v, Nobody, frames) && !Settled(u)
    ensures Progress(u, v) || (Settled(v) && TotalDue(u) == TotalDue(v) && TotalLoad(u) == TotalLoad(v))
  {
    hide Inv, Moves, Held, TotalDue, TotalLoad, Settled, DueRunners, Covered;
    ForgetReady(u, p, v, frames);
    ReachTrans(a, u, v, frames, 0, 0);
    CoveredLater(u, v, Nobody, frames);
    ScanOfSettled(u, frames);
  }

  lemma {:induction false} DueRunnersSnoc(w: World, rs: seq<nat>, r: nat)
    ensures DueRunners(w, rs + [r]) == DueRunners(w, rs) + if IsDue(w, r) then [r] else []
  {
    hide IsDue;
    if rs == [] {
      assert rs + [r] == [r];
    } else {
      assert (rs + [r])[1..] == rs[1..] + [r];
      DueRunnersSnoc(w, rs[1..], r);
    }
  }

  lemma CoveredAnyhow(w: World, cur: Context, frames: set<nat>)
    requires Covered(w, Nobody, frames)
    ensures Covered(w, cur, frames)
  {
  }

  lemma CoveredSame(w: World, v: World, frames: set<nat>)
    requires Covered(w, Nobody, frames) && v.yielded == w.yielded
    ensures Covered(v, Nobody, frames)
  {
  }

  lemma RunnersExist(w: World, frames: set<nat>)
    requires Inv(w, frames)
    ensures forall r | r in w.runners :: r < |w.rs|
  {
  }

  lemma ClearLaw(w: World, frames: set<nat>)
    requires Inv(w, frames)
    ensures var v := w.(ready := []);
            && Inv(v, frames) && Reach(w, v, frames, 0)
            && (Covered(w, Nobody, frames) ==> Covered(v, Nobody, frames))
            && TotalDue(v) == TotalDue(w) && TotalLoad(v) == TotalLoad(w)
  {
    hide Coherent, Evolves;
    var v := w.(ready := []);
    ListsDoNotMatter(w, v, frames);
    ReachRefl(w, frames);
  }

  /** A settled scheduler has nothing to scan. */
  lemma ScanOfSettled(w: World, frames: set<nat>)
    requires Inv(w, frames) && w.ready == []
    ensures Settled(w) ==> DueRunners(w, w.runners) == []
  {
    DueRunnersKeeps(w, w.runners);
    if DueRunners(w, w.runners) != [] {
      var r := DueRunners(w, w.runners)[0];
      assert r in w.runners && IsDue(w, r);
    }
  }

  lemma PopReadyLaw(w: World, r: nat, frames: set<nat>)
    requires Inv(w, frames) && Covered(w, Nobody, frames) && Eligible(w)
    requires w.ready != [] && r == w.ready[0]
    ensures var v := w.(ready := w.ready[1..]);
            && Inv(v, frames) && Reach(w, v, frames, 0) && Covered(v, Nobody, frames)
            && r in v.runners && r < |v.rs| && r !in frames && On(r) !in v.yielded
            && TotalDue(v) == TotalDue(w) && TotalLoad(v) == TotalLoad(w)
  {
    hide Coherent, Evolves;
    var v := w.(ready := w.ready[1..]);
    ListsDoNotMatter(w, v, frames);
    ReachRefl(w, frames);
  }

  lemma EligibleLater(w: World, v: World)
    requires Eligible(w) && Moves(w, v)
    ensures Eligible(v)
  {
  }

  lemma IdleReady(w: World, v: World, r: nat)
    ensures Idle(w, v, r) ==> v.ready == w.ready
  {
  }

  // ---------------------------------------------------------------- RunReady as a whole

  /** RunReady up to its modules: entered (v1), modules processed (v2). */
  ghost predicate ModuleSteps(u: World, v1: World, v2: World, r: nat, frames: set<nat>)
    requires r < |u.rs|
  {
    && v1 == With(u, r, TakeModules(Enter(u.rs[r]), u.now)) && Moves(u, v1) && Held(u, v1, frames)
    && TotalDue(v1) == TotalDue(u) - DueCount(u.rs[r], u.now) && TotalLoad(v1) == TotalLoad(u)
    && Moves(v1, v2) && Held(v1, v2, frames) && TotalDue(v2) <= TotalDue(v1)
    && (v1.rs[r].inFlight == [] ==> v2 == v1)
  }

  /** RunReady over its tasks: due tasks moved (v3), tasks run (v4). */
  ghost predicate TaskSteps(v2: World, v3: World, v4: World, r: nat, frames: set<nat>)
    requires r < |v2.rs|
  {
    && v3 == With(v2, r, MoveDue(v2.rs[r], v2.now)) && Moves(v2, v3) && Held(v2, v3, frames)
    && TotalDue(v3) == TotalDue(v2) && TotalLoad(v3) == TotalLoad(v2)
    && Reach(v3, v4, frames, 0) && OnlyPosts(v3.rs[r], v4.rs[r])
    && (if v3.rs[r].queue == [] then v4 == v3 else Progress(v3, v4))
  }

  /** The end of RunReady. */
  ghost predicate FinishStep(v4: World, v5: World, r: nat, frames: set<nat>)
    requires r < |v4.rs|
  {
    && v4.rs[r].activations > 0 && v5 == With(v4, r, Finish(v4.rs[r]))
    && Moves(v4, v5) && Held(v4, v5, frames)
    && TotalDue(v5) == TotalDue(v4) && TotalLoad(v5) == TotalLoad(v4)
  }

  lemma RunReadyMoves(u: World, v1: World, v2: World, v3: World, v4: World, v5: World, r: nat, frames: set<nat>)
    requires r < |u.rs| && ModuleSteps(u, v1, v2, r, frames)
    requires r < |v2.rs| && TaskSteps(v2, v3, v4, r, frames)
    requires r < |v4.rs| && FinishStep(v4, v5, r, frames)
    ensures Moves(u, v5) && Held(u, v5, frames)
  {
    hide Moves, TotalDue, TotalLoad, With, MoveDue, TakeModules, Finish, Enter;
    MovesTrans(u, v1, v2);
    MovesTrans(u, v2, v3);
    MovesTrans(u, v3, v4);
    MovesTrans(u, v4, v5);
  }

  /** RunReady either uses up work or finds nothing to do. */
  lemma RunReadyLaw(u: World, v1: World, v2: World, v3: World, v4: World, v5: World, r: nat, frames: set<nat>)
    requires Inv(u, frames) && r < |u.rs| && r in u.runners && r !in frames
    requires ModuleSteps(u, v1, v2, r, frames)
    requires r < |v2.rs| && TaskSteps(v2, v3, v4, r, frames)
    requires r < |v4.rs| && FinishStep(v4, v5, r, frames)
    ensures Reach(u, v5, frames, 0) && (Progress(u, v5) || Idle(u, v5, r))
  {
    hide Inv, Moves, Held, TotalDue, TotalLoad, MoveDue, Finish, Enter, Idle;
    RunReadyMoves(u, v1, v2, v3, v4, v5, r, frames);
    if DueCount(u.rs[r], u.now) == 0 {
      EnterSameModules(u.rs[r]);
      assert v1.rs[r].inFlight == [];
      if v3.rs[r].queue == [] {
        assert v5 == With(u, r, Finish(MoveDue(TakeModules(Enter(u.rs[r]), u.now), u.now)));
        IdleLaw(u, r, frames);
      }
    }
  }

  lemma EnterSameModules(s: RunnerState)
    ensures Enter(s).modules == s.modules
  {
  }

  /** An active runner is registered, alive and entered once. */
  lemma ActiveRunner(w: World, r: nat, frames: set<nat>)
    requires Inv(w, frames) && r in frames
    ensures r < |w.rs| && r in w.runners && w.rs[r].activations == 1 && !w.rs[r].deleted
  {
  }

  lemma CoherentAt(w: World, frames: set<nat>, r: nat)
    requires Inv(w, frames) && r < |w.rs|
    ensures Coherent(w.rs[r], w.now)
  {
  }

  lemma HeldAt(w: World, v: World, frames: set<nat>, r: nat)
    requires Held(w, v, frames) && r in frames && r < |w.rs|
    ensures v.rs[r].inFlight == w.rs[r].inFlight && OnlyPosts(w.rs[r], v.rs[r])
  {
  }

  lemma CoveredEntered(w: World, v: World, r: nat, frames: set<nat>)
    requires Covered(w, Nobody, frames) && Moves(w, v)
    ensures Covered(v, On(r), frames + {r}) && v.yielded == w.yielded
  {
  }

  lemma TakenOnlyIfDue(s: RunnerState, now: int)
    ensures TakeModules(Enter(s), now).inFlight != [] ==> DueCount(s, now) > 0
  {
  }

  lemma MoveDueBatch(s: RunnerState, now: int)
    ensures MoveDue(s, now).inFlight == s.inFlight
  {
  }

  lemma RequeueBatch(s: RunnerState, t: int)
    requires s.inFlight != []
    ensures Requeue(s, t).inFlight == s.inFlight[1..] && Waits(Requeue(s, t).modules, s.inFlight[0], t)
  {
    AddToWaits(s.modules, t, s.inFlight[0]);
  }

  /** One task taken from the queue and run: work was used up. */
  lemma TaskRan(a: World, b: World, c: World, d: World, frames: set<nat>, size: nat)
    requires Reach(a, b, frames, 0) && Moves(b, c) && Held(b, c, frames)
    requires TotalDue(c) == TotalDue(b) && TotalLoad(c) + 1 + size == TotalLoad(b)
    requires Reach(c, d, frames, size)
    ensures Reach(a, d, frames, 0) && Progress(a, d)
  {
    hide Moves, TotalDue, TotalLoad;
    MovesTrans(a, b, c);
    MovesTrans(a, c, d);
  }

  /** One module processed and put back: what that does to the batch loop. */
  lemma ModuleRan(a: World, b: World, c: World, frames: set<nat>, r: nat, size: nat)
    requires Reach(a, b, frames, size) && Moves(b, c) && Held(b, c, frames - {r})
    requires TotalDue(c) == TotalDue(b)
    ensures Moves(a, c) && Held(a, c, frames - {r}) && TotalDue(c) <= TotalDue(a)
  {
    hide Moves, TotalDue, TotalLoad;
    MovesTrans(a, b, c);
  }

  /** The loop over a batch: these modules have been processed and wait again. */
  ghost predicate BatchSoFar(a: World, u: World, frames: set<nat>, r: nat, done: seq<Module>) {
    && Moves(a, u) && Held(a, u, frames - {r}) && TotalDue(u) <= TotalDue(a)
    && r < |a.rs| && forall x | x in done :: WaitsAgain(a.rs[r], u.rs[r], x, a.now)
  }

  lemma BatchStart(w: World, frames: set<nat>, r: nat)
    requires Inv(w, frames) && r < |w.rs|
    ensures BatchSoFar(w, w, frames, r, [])
  {
    hide TotalDue, TotalLoad, Inv, Evolves, Stays;
    ReachRefl(w, frames);
  }

  lemma BatchMore(a: World, u: World, v: World, frames: set<nat>, r: nat, done: seq<Module>, m: Module, k: int)
    requires BatchSoFar(a, u, frames, r, done) && Inv(v, frames) && r in frames
    requires Moves(u, v) && Held(u, v, frames - {r}) && TotalDue(v) <= TotalDue(u)
    requires k > v.now && Waits(v.rs[r].modules, m, k)
    ensures BatchSoFar(a, v, frames, r, done + [m])
  {
    hide TotalDue, Inv, Evolves, Stays, WaitsAgain, Waits;
    MovesTrans(a, u, v);
    BatchWaits(a, u, v, frames, r, done, m, k);
  }

  lemma BatchOver(a: World, u: World, frames: set<nat>, r: nat, done: seq<Module>)
    requires BatchSoFar(a, u, frames, r, done)
    ensures Moves(a, u) && Held(a, u, frames - {r}) && TotalDue(u) <= TotalDue(a) && u.now == a.now
    ensures r < |a.rs| && r < |u.rs| && forall x | x in done :: WaitsAgain(a.rs[r], u.rs[r], x, a.now)
  {
    hide TotalDue, Held, Evolves, Stays, WaitsAgain;
  }

  /** RunReady of a runner without due modules runs its ready tasks, then its delayed tasks that
      are due in the order of target time and posting, before anything posted meanwhile. */
  lemma RunReadyOrder(u: World, v1: World, v2: World, v3: World, v4: World, r: nat, frames: set<nat>)
    requires r < |u.rs| && ModuleSteps(u, v1, v2, r, frames)
    requires r < |v2.rs| && TaskSteps(v2, v3, v4, r, frames)
    requires r < |v4.rs| && v4.rs[r].queue == [] && Coherent(v4.rs[r], v4.now)
    requires Coherent(u.rs[r], u.now) && DueCount(u.rs[r], u.now) == 0
    ensures RanInTurn(u.rs[r], v4.rs[r], u.now)
  {
    hide TotalDue, TotalLoad, Held, Moves, Progress, DueCount, MoveDue, RanInTurn, Coherent;
    EnterSameModules(u.rs[r]);
    TakenNothing(u.rs[r], u.now);
    SameNow(u, v1, v2);
    MoveDueLine(v2.rs[r], v2.now);
    TurnOver(u.rs[r], v3.rs[r], v4.rs[r], u.now, v4.now);
  }

  lemma SameNow(u: World, v: World, w: World)
    requires Moves(u, v) && Moves(v, w)
    ensures w.now == u.now
  {
  }

  /** Once the line has been run to its end, what came after the turn is new and in posting order. */
  lemma TurnOver(s: RunnerState, m: RunnerState, t: RunnerState, now: int, later: int)
    requires Coherent(s, now) && Coherent(t, later) && t.queue == [] && OnlyPosts(m, t)
    requires Line(m) == Line(s) + s.delayed[..UpperBound(s.delayed, now)]
    ensures RanInTurn(s, t, now)
  {
    hide Agrees, Accounted, BucketsSorted, NoneMoved, Before;
    var turn := Line(m);
    assert Line(t) == t.ran;
    assert forall i | 0 <= i < |t.ran| :: Lane(t)[i] == t.ran[i];
    forall i | |turn| <= i < |t.ran|
      ensures t.ran[i] !in Lane(s)
    {
      forall k | 0 <= k < |Lane(s)|
        ensures Lane(s)[k] != t.ran[i]
      {
        if k < |Line(s)| {
          assert Lane(s)[k] == turn[k] == t.ran[k];
        } else {
          assert Lane(s)[k] == s.delayed[k - |Line(s)|];
        }
      }
    }
  }

  lemma TakenNothing(s: RunnerState, now: int)
    requires DueCount(s, now) == 0
    ensures var t := TakeModules(Enter(s), now);
            t.inFlight == [] && Line(t) == Line(s) && t.delayed == s.delayed
  {
  }

  lemma FinishRan(s: RunnerState, t: RunnerState, now: int)
    requires t.activations > 0 && RanInTurn(s, t, now)
    ensures RanInTurn(s, Finish(t), now)
  {
  }

  /** An empty scan means that the scheduler has settled. */
  lemma ScanOfUnsettled(w: World, frames: set<nat>)
    requires Inv(w, frames) && DueRunners(w, w.runners) == []
    ensures Settled(w)
  {
    DueRunnersKeeps(w, w.runners);
    assert forall r | r in w.runners && IsDue(w, r) :: r in DueRunners(w, w.runners);
  }

  lemma YieldedStays(w: World, v: World, frames: set<nat>)
    requires Reach(w, v, frames, 0)
    ensures v.yielded == w.yielded
  {
  }
}
