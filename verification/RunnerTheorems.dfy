/** What the scheduler's invariant says about a single runner in any reachable state, and exactly
    when a call from a client keeps it. */
module RunnerTheorems {
  import opened Timestamps
  import opened Scripts
  import opened RunnerStates
  import opened RunnerLaws
  import opened Worlds
  import opened Numbers

  // ---------------------------------------------------------------- tasks

  /** No task is lost: each of the posting numbers handed out so far belongs to a task that has
      run, is ready, or is delayed. */
  lemma NothingLost(s: RunnerState, now: int, k: nat)
    requires Coherent(s, now) && !s.deleted && k < s.posted
    ensures exists i :: 0 <= i < |Lane(s)| && Lane(s)[i].order == k
  {
    hide InOrder, History, Agrees, Accounted, BucketsSorted;
    var l := Lane(s);
    var orders := seq(|l|, i requires 0 <= i < |l| => l[i].order);
    LaneDistinct(s, now);
    Pigeonhole(orders, k);
    var i :| 0 <= i < |orders| && orders[i] == k;
    assert l[i].order == k;
  }

  lemma LaneDistinct(s: RunnerState, now: int)
    requires Coherent(s, now)
    ensures forall i, j | 0 <= i < j < |Lane(s)| :: Lane(s)[i].order != Lane(s)[j].order
  {
  }

  /** Over the whole history of a runner: delayed tasks ran in order of target time, then posting
      order; tasks posted to run at once ran first in, first out; no task ran twice; none ran before it
      was due. */
  lemma ExecutionOrder(w: World, frames: set<nat>, i: nat)
    requires Inv(w, frames) && i < |w.rs|
    ensures var s := w.rs[i];
            && (forall a, b | 0 <= a < b < |s.ran| && s.ran[a].delayed && s.ran[b].delayed ::
                  Before(s.ran[a], s.ran[b]))
            && (forall a, b | 0 <= a < b < |s.ran| && !s.ran[a].delayed && !s.ran[b].delayed ::
                  s.ran[a].order < s.ran[b].order)
            && (forall a, b | 0 <= a < b < |s.ran| :: s.ran[a].order != s.ran[b].order)
            && |s.ranAt| == |s.ran| && (forall a | 0 <= a < |s.ran| :: s.ran[a].due <= s.ranAt[a] <= w.now)
  {
    hide Agrees, Accounted, Before;
    var s := w.rs[i];
    assert forall a | 0 <= a < |s.ran| :: Lane(s)[a] == s.ran[a];
    assert InOrder(Lane(s));
  }

  // ---------------------------------------------------------------- modules

  /** Between calls every registered module waits (thread started) or is stopped (thread not
      started), exactly as often as it was registered, unless a call has broken the books. */
  lemma ModulesInPlace(w: World, i: nat, m: Module)
    requires Inv(w, {}) && i < |w.rs| && !w.rs[i].deleted && w.rs[i].orderly
    ensures var s := w.rs[i];
            && Copies(if s.started then Members(s.modules) else s.stopped, m) == s.registered[m]
            && Copies(if s.started then s.stopped else Members(s.modules), m) == 0
  {
    hide Agrees, History, Ordered;
    var s := w.rs[i];
    assert Accounted(s);
  }

  /** WakeUp keeps the books exactly when the thread is started and the module waits. */
  lemma WakeUpExactly(s: RunnerState, m: Module, t: int, now: int)
    requires Accounted(s)
    ensures Accounted(WakeUpModule(s, m, t, now)) <==> s.started && m in Members(s.modules)
  {
    hide RemoveModule, AddTo;
    var u := WakeUpModule(s, m, t, now);
    RemoveModuleCounts(s.modules, m, m);
    AddToCounts(RemoveModule(s.modules, m), t, m, m);
    CopiesPositive(Members(u.modules), m);
    CopiesPositive(Members(s.modules), m);
    if s.started && m in Members(s.modules) {
      forall x
        ensures Copies(Members(u.modules), x) + Copies(u.stopped, x) + Copies(u.inFlight, x) == u.registered[x]
      {
        RemoveModuleCounts(s.modules, m, x);
        AddToCounts(RemoveModule(s.modules, m), t, m, x);
      }
    } else if s.started {
      assert Copies(Members(u.modules), m) + Copies(u.stopped, m) + Copies(u.inFlight, m) == u.registered[m] + 1;
    }
  }

  /** DeRegisterModule keeps them unless the module is being processed and is not found. */
  lemma DeRegisterExactly(s: RunnerState, m: Module, now: int)
    requires Accounted(s)
    ensures Accounted(DeRegister(s, m, now))
       <==> (m in s.inFlight ==> m in if s.started then Members(s.modules) else s.stopped)
  {
    hide RemoveModule, RemoveValue;
    var u := DeRegister(s, m, now);
    if m in s.inFlight && m !in (if s.started then Members(s.modules) else s.stopped) {
      RemoveModuleCounts(s.modules, m, m);
      RemoveValueCounts(s.stopped, m, m);
      CopiesPositive(s.inFlight, m);
      assert Copies(Members(u.modules), m) + Copies(u.stopped, m) + Copies(u.inFlight, m) > u.registered[m];
    } else {
      var v := s.(orderly := true);
      DeRegisterAccounts(v, m, now);
      assert Accounted(DeRegister(v, m, now));
    }
  }

  /** A module put back after Process() keeps them exactly when the thread was not stopped. */
  lemma RequeueExactly(s: RunnerState, t: int)
    requires Accounted(s) && s.inFlight != []
    ensures Accounted(Requeue(s, t)) <==> s.started
  {
    hide AddTo;
    var u := Requeue(s, t);
    AddToCounts(s.modules, t, s.inFlight[0], s.inFlight[0]);
    CopiesPositive(Members(u.modules), s.inFlight[0]);
    if s.started {
      forall x
        ensures Copies(Members(u.modules), x) + Copies(u.stopped, x) + Copies(u.inFlight, x) == u.registered[x]
      {
        AddToCounts(s.modules, t, s.inFlight[0], x);
      }
    }
  }

  /** A thread with one module, not started; the same thread started at 0 with a wait of 1 ms; and the
      same inside RunReady at 1 ms, the module in its batch. */
  const STOPPED := RegisterModuleAt(CREATED, 0, 0)

  function Started(): RunnerState {
    StartThread(STOPPED, 0, [1])
  }

  function Processing(): RunnerState {
    TakeModules(Enter(Started()), 1000)
  }

  lemma OneModule()
    ensures STOPPED.stopped == [0] && STOPPED.modules == [] && STOPPED.inFlight == []
    ensures Started().modules == [Bucket(1000, [0])] && Started().started && Started().stopped == []
    ensures Processing().inFlight == [0] && Processing().modules == [] && Processing().stopped == []
    ensures Processing().started && Processing().registered == STOPPED.registered == multiset{0}
  {
    hide AddAll, DueBuckets, Members;
    assert STOPPED.stopped == [0] && STOPPED.modules == [];
    assert Started().modules == AddAll([], [0], 0, [1]);
    FilesOne();
    TakesOne();
    var bs := [Bucket(1000, [0])];
    assert Processing().modules == bs[DueBuckets(bs, 1000)..];
    assert Processing().inFlight == Members(bs[..DueBuckets(bs, 1000)]);
  }

  lemma FilesOne()
    ensures AddAll([], [0], 0, [1]) == [Bucket(1000, [0])]
  {
    hide AddTo;
    assert [0][..0] == [] && [1][..0] == [];
    assert AddAll([], [], 0, []) == [];
    assert AddTo([], 1000, 0) == [Bucket(1000, [0])] by {
      AddToEmpty(1000, 0);
    }
  }

  lemma AddToEmpty(t: int, m: Module)
    ensures AddTo([], t, m) == [Bucket(t, [m])]
  {
  }

  lemma TakesOne()
    ensures var bs := [Bucket(1000, [0])];
            DueBuckets(bs, 1000) == 1 && bs[1..] == [] && Members(bs[..1]) == [0]
  {
    var bs := [Bucket(1000, [0])];
    assert bs[..1] == bs && bs[1..] == [] && [0] + [] == [0];
  }

  lemma CopiesOfOne(m: Module)
    ensures Copies([0], m) == if m == 0 then 1 else 0
    ensures Copies([], m) == 0 && Members([]) == []
  {
    assert [0][1..] == [];
  }

  /** WakeUp on a thread that is not started: the module stands in the map and among the stopped ones,
      and Start files it a second time. */
  lemma WakeUpDoubles()
    ensures Accounted(STOPPED) && !Accounted(WakeUpModule(STOPPED, 0, 1000, 0))
    ensures WakeUpModule(STOPPED, 0, 1000, 0).modules == [Bucket(1000, [0])] && 0 in STOPPED.stopped
  {
    OneModule();
    forall m ensures Copies([0], m) == if m == 0 then 1 else 0 {
      CopiesOfOne(m);
    }
    forall m ensures Copies([], m) == 0 {
      CopiesOfOne(m);
    }
    hide Copies;
    assert Accounted(STOPPED);
    WakeUpExactly(STOPPED, 0, 1000, 0);
  }

  /** DeRegisterModule from inside the module's own Process(): the module is put back afterwards, though
      nobody has it registered. */
  lemma DeRegisterInProcessKeeps()
    ensures var s := DeRegister(Processing(), 0, 1000);
            && Accounted(Processing()) && !Accounted(s)
            && s.registered[0] == 0 && s.inFlight == [0] && 0 in Members(Requeue(s, 2000).modules)
  {
    OneModule();
    ProcessingAccounted();
    DeRegisterExactly(Processing(), 0, 1000);
    assert Members([Bucket(2000, [0])]) == [0] + Members([]);
  }

  /** Stop from inside Process(): the module is put back into the map of a thread that is not started. */
  lemma StopInProcessLeaves()
    ensures var s := StopThread(Processing(), 1000);
            && s.inFlight == [0] && Accounted(s) && !Accounted(Requeue(s, 2000))
            && !s.started && Requeue(s, 2000).modules == [Bucket(2000, [0])]
  {
    OneModule();
    ProcessingAccounted();
    assert Members([]) == [] && StopThread(Processing(), 1000).stopped == [];
    RequeueExactly(StopThread(Processing(), 1000), 2000);
  }

  lemma ProcessingAccounted()
    ensures Accounted(Processing())
  {
    OneModule();
    forall m ensures Copies([0], m) == (if m == 0 then 1 else 0) && Copies([], m) == 0 {
      CopiesOfOne(m);
    }
    assert Members([]) == [];
    hide Copies;
  }

  /** A module that has been processed is due again at once if and only if it asked for no wait. With
      such a module RunReady would find work for ever; the scheduler's termination needs waits of at
      least 1 ms. */
  lemma DueAgainExactly(s: RunnerState, now: int, wait: nat)
    requires BucketsSorted(s.modules) && DueCount(s, now) == 0 && s.inFlight != []
    ensures DueCount(Requeue(s, now + 1000 * wait), now) > 0 <==> wait == 0
  {
    if wait > 0 {
      AddToDue(s.modules, now + 1000 * wait, s.inFlight[0], now);
    }
  }

  // ---------------------------------------------------------------- Start

  /** The first key after filing several modules is the earliest of their times and the first
      old key. */
  lemma {:induction false} AddAllHead(bs: seq<Bucket>, ms: seq<Module>, now: int, waits: seq<nat>, t: int)
    requires |waits| == |ms| && BucketsSorted(bs)
    ensures var r := AddAll(bs, ms, now, waits);
            (r != [] && r[0].at <= t) <==>
            (bs != [] && bs[0].at <= t) || exists i :: 0 <= i < |ms| && now + 1000 * waits[i] <= t
    decreases |ms|
  {
    hide AddTo;
    if ms != [] {
      var n := |ms| - 1;
      AddAllSorted(bs, ms[..n], now, waits[..n]);
      AddAllHead(bs, ms[..n], now, waits[..n], t);
      AddToSorted(AddAll(bs, ms[..n], now, waits[..n]), now + 1000 * waits[n], ms[n]);
    }
  }

  /** Start leaves the delayed tasks out of the next run time. It loses sight of a delayed task exactly
      if it is called outside RunReady on a thread that is not started, no task is ready, and no module
      will be due as early as the task. */
  lemma StartLosesExactly(s: RunnerState, now: int, waits: seq<nat>, e: Posted)
    requires BucketsSorted(s.modules) && |waits| == |s.stopped|
    requires e !in s.lost
    ensures e in StartThread(s, now, waits).lost <==>
            && e in s.delayed && !s.started && s.activations == 0 && s.queue == []
            && (s.modules == [] || s.modules[0].at > e.due)
            && forall i | 0 <= i < |s.stopped| :: now + 1000 * waits[i] > e.due
  {
    hide AddAll;
    AddAllHead(s.modules, s.stopped, now, waits, e.due);
  }

  /** So the cached time stays right for every delayed task exactly when none is pending, or one of these
      conditions keeps the first of them in sight. */
  lemma StartAgreesExactly(s: RunnerState, now: int, waits: seq<nat>)
    requires Coherent(s, now) && s.activations == 0 && !s.started && |waits| == |s.stopped|
    ensures Agrees(StartThread(s, now, waits).(lost := {}), now) <==>
            || s.queue != [] || s.delayed == []
            || (s.modules != [] && s.modules[0].at <= s.delayed[0].due)
            || exists i :: 0 <= i < |s.stopped| && now + 1000 * waits[i] <= s.delayed[0].due
  {
    DelayedSorted(s);
    hide AddAll, Accounted, Ordered, History;
    if s.delayed != [] {
      AddAllHead(s.modules, s.stopped, now, waits, s.delayed[0].due);
    }
  }

  /** Such an input: a delayed task is pending, no module is registered, and Start puts the next
      run time at infinity, so the task is not run when it is due. */
  lemma StartForgets()
    ensures var s := RunnerStates.PostDelayedTask(CREATED, Return, 5, 0);
            var t := StartThread(s, 0, []);
            Agrees(s, 0) && t.next == PlusInfinity && t.delayed == s.delayed && |s.delayed| == 1
            && s.delayed[0] in t.lost
  {
    var e := Posted(Return, 0, true, 5000);
    assert Insert([], e) == [e];
  }
}
