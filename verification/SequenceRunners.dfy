/** The runner objects themselves. A simulated task queue and a simulated process thread share
    everything here; a task queue simply has no modules. RunReady is cut where it calls out: its
    pieces are methods of this class and the controller strings them together. */
module SequenceRunners {
  import opened Timestamps
  import opened Scripts
  import opened RunnerStates
  import opened RunnerLaws

  class SequenceRunner {
    var queue: seq<Posted>
    var delayedTasks: seq<Posted>
    var nextRunTime: Timestamp
    var delayedModules: seq<Bucket>
    var stoppedModules: seq<Module>
    var started: bool
    var posted: nat
    var deleted: bool

    // Kept for the specification only: the history, the activations of RunReady, the batch of
    // modules being processed, and what clients have registered.
    ghost var ran: seq<Posted>
    ghost var ranAt: seq<int>
    ghost var activations: nat
    ghost var inFlight: seq<Module>
    ghost var gone: seq<Gone>
    ghost var deletedAt: int
    ghost var lost: set<Posted>
    ghost var orderly: bool
    ghost var registered: multiset<Module>

    ghost function State(): RunnerState
      reads this
    {
      RunnerState(queue, delayedTasks, nextRunTime, delayedModules, gone, inFlight, stoppedModules, started,
                  posted, ran, ranAt, activations, deleted, deletedAt, lost, orderly, registered)
    }

    constructor ()
      ensures State() == CREATED
    {
      queue, delayedTasks, nextRunTime := [], [], PlusInfinity;
      delayedModules, stoppedModules, started, posted, deleted := [], [], false, 0, false;
      ran, ranAt, activations, inFlight, gone := [], [], 0, [], [];
      deletedAt, lost, orderly, registered := 0, {}, true, multiset{};
    }

    method PostTask(task: Script, now: int)
      modifies this
      ensures State() == RunnerStates.PostTask(old(State()), task, now)
    {
      queue := queue + [Posted(task, posted, false, now)];
      posted := posted + 1;
      nextRunTime := MinusInfinity;
    }

    method PostDelayedTask(task: Script, milliseconds: nat, now: int)
      modifies this
      ensures State() == RunnerStates.PostDelayedTask(old(State()), task, milliseconds, now)
    {
      var targetTime := now + 1000 * milliseconds;
      delayedTasks := Insert(delayedTasks, Posted(task, posted, true, targetTime));
      posted := posted + 1;
      nextRunTime := Earlier(nextRunTime, Micros(targetTime));
    }

    /** Entering RunReady: the modules that are due leave the map and are handed over. */
    method TakeDueModules(at: int) returns (readyModules: seq<Module>)
      modifies this
      ensures readyModules == TakeModules(Enter(old(State())), at).inFlight
      ensures State() == TakeModules(Enter(old(State())), at)
    {
      hide DueBuckets, Members, TakenAt;
      readyModules := UnfileDue(at);
      NoteTaken(readyModules, at);
    }

    /** The loop over the modules that are due. */
    method UnfileDue(at: int) returns (readyModules: seq<Module>)
      modifies `delayedModules
      ensures var n := DueBuckets(old(delayedModules), at);
              readyModules == Members(old(delayedModules)[..n]) && delayedModules == old(delayedModules)[n..]
    {
      hide DueBuckets;
      ghost var all := delayedModules;
      ghost var k := 0;
      readyModules := [];
      while delayedModules != [] && delayedModules[0].at <= at
        invariant 0 <= k <= |all| && delayedModules == all[k..]
        invariant forall i | 0 <= i < k :: all[i].at <= at
        invariant readyModules == Members(all[..k])
        decreases |delayedModules|
      {
        assert all[..k + 1] == all[..k] + [all[k]];
        MembersConcat(all[..k], [all[k]]);
        readyModules := readyModules + delayedModules[0].members;
        delayedModules := delayedModules[1..];
        k := k + 1;
      }
    }

    /** What the specification notes when RunReady begins. */
    ghost method NoteTaken(readyModules: seq<Module>, at: int)
      modifies `inFlight, `gone, `activations
      ensures inFlight == readyModules && gone == old(gone) + TakenAt(readyModules, at)
      ensures activations == old(activations) + 1
    {
      inFlight := readyModules;
      gone := gone + TakenAt(readyModules, at);
      activations := activations + 1;
    }

    /** After Process() of the first module of the batch. */
    method Requeue(m: Module, t: int)
      requires inFlight != [] && m == inFlight[0]
      modifies this
      ensures State() == RunnerStates.Requeue(old(State()), t)
    {
      delayedModules := AddTo(delayedModules, t, m);
      inFlight := inFlight[1..];
      orderly := orderly && started;
    }

    /** Delayed tasks that are due join the ready tasks. */
    method MoveDueTasks(at: int)
      modifies this
      ensures State() == MoveDue(old(State()), at)
    {
      hide UpperBound;
      ghost var all := delayedTasks;
      ghost var k := 0;
      while delayedTasks != [] && delayedTasks[0].due <= at
        invariant 0 <= k <= |all| && delayedTasks == all[k..]
        invariant forall i | 0 <= i < k :: all[i].due <= at
        invariant queue == old(queue) + all[..k]
        decreases |delayedTasks|
        modifies `queue, `delayedTasks
      {
        assert all[..k + 1] == all[..k] + [all[k]];
        queue := queue + [delayedTasks[0]];
        delayedTasks := delayedTasks[1..];
        k := k + 1;
      }
    }

    /** The front task leaves the queue to be run. */
    method PopFront(now: int) returns (task: Script)
      requires queue != []
      modifies this
      ensures task == old(queue)[0].script
      ensures State() == RunnerStates.PopFront(old(State()), now)
    {
      task := queue[0].script;
      ran, ranAt := ran + [queue[0]], ranAt + [now];
      queue := queue[1..];
    }

    /** Leaving RunReady: the next run time is recomputed from what is left. */
    method Settle()
      requires activations > 0
      modifies this
      ensures State() == Finish(old(State()))
    {
      if delayedModules != [] {
        nextRunTime := Micros(delayedModules[0].at);
      } else {
        nextRunTime := PlusInfinity;
      }
      if delayedTasks != [] {
        nextRunTime := Earlier(nextRunTime, Micros(delayedTasks[0].due));
      }
      activations := activations - 1;
    }

    method Start(now: int, waits: seq<nat>)
      requires |waits| == |stoppedModules|
      modifies this
      ensures State() == StartThread(old(State()), now, waits)
    {
      hide AddAll, Members;
      if started {
        return;
      }
      started := true;
      FileAll(now, waits);
      Restart();
    }

    /** The next run time of a thread that starts, from its ready tasks and its modules. */
    method Restart()
      modifies `nextRunTime, `lost
      ensures nextRunTime == if queue != [] then MinusInfinity
                             else if delayedModules != [] then Micros(delayedModules[0].at) else PlusInfinity
      ensures lost == if activations == 0 then old(lost) + Overlooked(delayedTasks, nextRunTime) else old(lost)
    {
      if queue != [] {
        nextRunTime := MinusInfinity;
      } else if delayedModules != [] {
        nextRunTime := Micros(delayedModules[0].at);
      } else {
        nextRunTime := PlusInfinity;
      }
      lost := if activations == 0 then lost + Overlooked(delayedTasks, nextRunTime) else lost;
    }

    /** The loop over the modules that start: each waits from now on. */
    method FileAll(now: int, waits: seq<nat>)
      requires |waits| == |stoppedModules|
      modifies `delayedModules, `stoppedModules
      ensures delayedModules == AddAll(old(delayedModules), old(stoppedModules), now, waits)
      ensures stoppedModules == []
    {
      hide AddTo, AddAll;
      var starting := stoppedModules;
      stoppedModules := [];
      AddAllNone(delayedModules, now);
      for i := 0 to |starting|
        invariant delayedModules == AddAll(old(delayedModules), starting[..i], now, waits[..i])
        invariant stoppedModules == []
      {
        AddAllStep(old(delayedModules), starting, now, waits, i);
        delayedModules := AddTo(delayedModules, now + 1000 * waits[i], starting[i]);
      }
      assert starting[..|starting|] == starting && waits[..|starting|] == waits;
    }

    method Stop(ghost now: int)
      modifies this
      ensures State() == StopThread(old(State()), now)
    {
      started := false;
      gone := gone + MovedAll(Members(delayedModules), now);
      UnfileAll();
    }

    /** The loop over the modules that stop. */
    method UnfileAll()
      modifies `delayedModules, `stoppedModules
      ensures stoppedModules == old(stoppedModules) + Members(old(delayedModules)) && delayedModules == []
    {
      for i := 0 to |delayedModules|
        invariant delayedModules == old(delayedModules)
        invariant stoppedModules == old(stoppedModules) + Members(delayedModules[..i])
      {
        assert delayedModules[..i + 1] == delayedModules[..i] + [delayedModules[i]];
        MembersConcat(delayedModules[..i], [delayedModules[i]]);
        stoppedModules := stoppedModules + delayedModules[i].members;
      }
      assert delayedModules[..|delayedModules|] == delayedModules;
      delayedModules := [];
    }

    /** The search shared by WakeUp and DeRegisterModule. */
    method DropModule(m: Module)
      modifies `delayedModules
      ensures delayedModules == RemoveModule(old(delayedModules), m)
    {
      for i := 0 to |delayedModules|
        invariant delayedModules == old(delayedModules)
        invariant m !in Members(delayedModules[..i])
      {
        if m in delayedModules[i].members {
          RemoveModuleAt(delayedModules, i, m);
          var left := RemoveValue(delayedModules[i].members, m);
          delayedModules := delayedModules[i := Bucket(delayedModules[i].at, left)];
          return;
        }
        assert delayedModules[..i + 1] == delayedModules[..i] + [delayedModules[i]];
        MembersConcat(delayedModules[..i], [delayedModules[i]]);
      }
      RemoveModuleAt(delayedModules, |delayedModules|, m);
    }

    method WakeUp(m: Module, nextTime: int, ghost now: int)
      modifies this
      ensures State() == WakeUpModule(old(State()), m, nextTime, now)
    {
      ghost var known := m in Members(delayedModules);
      DropModule(m);
      delayedModules := AddTo(delayedModules, nextTime, m);
      nextRunTime := Earlier(nextRunTime, Micros(nextTime));
      NoteMoved(m, started && known, now);
    }

    /** What the specification notes about a module that a call moves. */
    ghost method NoteMoved(m: Module, rightly: bool, now: int)
      modifies `orderly, `gone
      ensures orderly == (old(orderly) && rightly) && gone == old(gone) + [Moved(m, now)]
    {
      orderly := orderly && rightly;
      gone := gone + [Moved(m, now)];
    }

    method RegisterModule(m: Module, nextTime: int)
      modifies this
      ensures State() == RegisterModuleAt(old(State()), m, nextTime)
    {
      if !started {
        stoppedModules := stoppedModules + [m];
      } else {
        delayedModules := AddTo(delayedModules, nextTime, m);
        nextRunTime := Earlier(nextRunTime, Micros(nextTime));
      }
      registered := registered + multiset{m};
    }

    method DeRegisterModule(m: Module, ghost now: int)
      modifies this
      ensures State() == DeRegister(old(State()), m, now)
    {
      hide RemoveModule, RemoveValue, Members;
      Unregister(m, now);
      if !started {
        stoppedModules := RemoveValue(stoppedModules, m);
      } else {
        DropModule(m);
      }
    }

    /** What the specification notes about a module that is deregistered. */
    ghost method Unregister(m: Module, now: int)
      modifies `orderly, `gone, `registered
      ensures gone == old(gone) + [Moved(m, now)] && registered == old(registered) - multiset{m}
      ensures orderly == DeRegister(old(State()), m, now).orderly
    {
      hide RemoveModule, RemoveValue, Members;
      NoteMoved(m, m in inFlight ==> m in if started then Members(delayedModules) else stoppedModules, now);
      registered := registered - multiset{m};
    }

    /** Destruction: whatever is pending goes with the object. */
    method Destroy(ghost now: int)
      modifies this
      ensures State() == RunnerStates.Destroy(old(State()), now)
    {
      DropTasks();
      DropModules();
      nextRunTime := PlusInfinity;
      deletedAt := if deleted then deletedAt else now;
      deleted := true;
    }

    method DropTasks()
      modifies this
      ensures State() == old(State()).(queue := [], delayed := [])
    {
      queue := [];
      delayedTasks := [];
    }

    method DropModules()
      modifies this
      ensures State() == old(State()).(modules := [], stopped := [])
    {
      delayedModules := [];
      stoppedModules := [];
    }
  }

  lemma AddAllNone(bs: seq<Bucket>, now: int)
    ensures AddAll(bs, [], now, []) == bs
  {
  }

  lemma AddAllStep(bs: seq<Bucket>, ms: seq<Module>, now: int, waits: seq<nat>, i: nat)
    requires |waits| == |ms| && i < |ms|
    ensures AddAll(bs, ms[..i + 1], now, waits[..i + 1])
         == AddTo(AddAll(bs, ms[..i], now, waits[..i]), now + 1000 * waits[i], ms[i])
  {
    assert ms[..i + 1][..i] == ms[..i] && waits[..i + 1][..i] == waits[..i];
  }

  /** Where the search for a module ends: at the first bucket that holds it, or nowhere. */
  lemma {:induction false} RemoveModuleAt(bs: seq<Bucket>, i: nat, m: Module)
    requires i <= |bs| && m !in Members(bs[..i])
    requires i < |bs| ==> m in bs[i].members
    ensures RemoveModule(bs, m)
         == if i < |bs| then bs[i := Bucket(bs[i].at, RemoveValue(bs[i].members, m))] else bs
  {
    hide RemoveValue, Members;
    if bs == [] {
    } else if i == 0 {
      assert [Bucket(bs[0].at, RemoveValue(bs[0].members, m))] + bs[1..]
          == bs[0 := Bucket(bs[0].at, RemoveValue(bs[0].members, m))];
    } else {
      FirstMembers(bs, i);
      RemoveModuleAt(bs[1..], i - 1, m);
      RemoveLater(bs, i, m);
    }
  }

  /** The search goes on behind the first bucket. */
  lemma RemoveLater(bs: seq<Bucket>, i: nat, m: Module)
    requires 0 < i <= |bs| && m !in bs[0].members
    requires RemoveModule(bs[1..], m)
          == if i < |bs| then bs[1..][i - 1 := Bucket(bs[i].at, RemoveValue(bs[i].members, m))] else bs[1..]
    ensures RemoveModule(bs, m)
         == if i < |bs| then bs[i := Bucket(bs[i].at, RemoveValue(bs[i].members, m))] else bs
  {
    hide RemoveValue;
    assert RemoveModule(bs, m) == [bs[0]] + RemoveModule(bs[1..], m);
    if i < |bs| {
      var b := Bucket(bs[i].at, RemoveValue(bs[i].members, m));
      assert [bs[0]] + bs[1..][i - 1 := b] == bs[i := b];
    }
  }

  /** The members of the first buckets are those of the first one and those of the others. */
  lemma FirstMembers(bs: seq<Bucket>, i: nat)
    requires 0 < i <= |bs|
    ensures Members(bs[..i]) == bs[0].members + Members(bs[1..][..i - 1])
  {
    assert bs[..i][1..] == bs[1..][..i - 1];
  }
}
