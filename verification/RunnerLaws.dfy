/** What the runner operations keep and how they move the work: every operation leaves a coherent
    state coherent, extends the history, and never makes a module due at the current time. */
module RunnerLaws {
  import opened Timestamps
  import opened Scripts
  import opened RunnerStates

  function Load(s: RunnerState): nat {
    Weight(s.queue) + Weight(s.delayed)
  }

  function DueCount(s: RunnerState, now: int): nat {
    DueBuckets(s.modules, now)
  }

  /** The tasks that have run, then those that wait in line: a task's place in it never changes. */
  function Line(s: RunnerState): seq<Posted> {
    s.ran + s.queue
  }

  /** From `s` to `t` the line grew by tasks posted to run at once, and by nothing else. */
  ghost predicate OnlyPosts(s: RunnerState, t: RunnerState) {
    && Line(s) <= Line(t)
    && forall i | |Line(s)| <= i < |Line(t)| :: !Line(t)[i].delayed
  }

  /** The ready tasks of `s`, then its due delayed tasks in order of target time and posting, have
      run in `t` before anything else; then come tasks posted meanwhile to run at once, first posted
      first run. */
  ghost predicate RanInTurn(s: RunnerState, t: RunnerState, now: int) {
    var turn := Line(s) + s.delayed[..UpperBound(s.delayed, now)];
    && turn <= t.ran
    && (forall i | |turn| <= i < |t.ran| :: !t.ran[i].delayed && t.ran[i] !in Lane(s))
    && (forall i, j | |turn| <= i < j < |t.ran| :: t.ran[i].order < t.ran[j].order)
  }

  /** Who is deleted stays so; a deletion is dated. */
  predicate DiesNow(s: RunnerState, t: RunnerState, now: int) {
    if s.deleted then t.deleted && t.deletedAt == s.deletedAt else t.deleted ==> t.deletedAt == now
  }

  /** What a stretch of execution at time `now` may do to a runner: the line only grows at its
      end, whatever has run since ran at `now`, and a delayed task stays delayed, joins the line
      or dies with its runner. */
  ghost predicate Evolves(s: RunnerState, t: RunnerState, now: int) {
    && s.ran <= t.ran
    && s.ranAt <= t.ranAt
    && |s.ranAt| == |s.ran| && |t.ranAt| == |t.ran|
    && (forall i | |s.ran| <= i < |t.ran| :: t.ranAt[i] == now)
    && DiesNow(s, t, now) && s.lost <= t.lost
    && (!t.deleted ==> Line(s) <= Line(t))
    && (!t.deleted ==> forall e | e in s.delayed :: e in t.delayed || e in Line(t)[|Line(s)|..])
  }

  /** A module that waited until k still does, or has been moved by a call, or was taken at its time or
      later: `log` is what has left since. */
  ghost predicate LeftRightly(t: RunnerState, m: Module, k: int, log: seq<Gone>, now: int) {
    Waits(t.modules, m, k) || Moved(m, now) in log || (k <= now && Taken(m, now) in log)
  }

  /** What a stretch of execution at time `now` may do to the waiting modules of a runner. */
  ghost predicate Stays(s: RunnerState, t: RunnerState, now: int) {
    && s.gone <= t.gone && DiesNow(s, t, now)
    && (!t.deleted ==> forall m, k | Waits(s.modules, m, k) :: LeftRightly(t, m, k, t.gone[|s.gone|..], now))
  }

  /** Nothing has run, and what was delayed still is, unless the runner has been deleted. */
  ghost predicate Rests(s: RunnerState, t: RunnerState) {
    && t.ran == s.ran && t.ranAt == s.ranAt && (s.deleted ==> t.deleted)
    && (!t.deleted ==> forall e | e in s.delayed :: e in t.delayed)
  }

  /** Without RunReady a waiting module stays where it is or is moved by a call. */
  ghost predicate Untaken(s: RunnerState, t: RunnerState, now: int) {
    && s.gone <= t.gone
    && (if s.deleted then t.deleted && t.deletedAt == s.deletedAt else t.deleted ==> t.deletedAt <= now)
    && (!t.deleted ==> forall m, k | Waits(s.modules, m, k) ::
          Waits(t.modules, m, k) || MovedBy(m, t.gone[|s.gone|..], now))
  }

  /** A call has moved the module, at `time` or before. */
  ghost predicate MovedBy(m: Module, log: seq<Gone>, time: int) {
    exists at :: at <= time && Moved(m, at) in log
  }

  lemma EvolvesTrans(s: RunnerState, t: RunnerState, u: RunnerState, now: int)
    requires Evolves(s, t, now) && Evolves(t, u, now)
    ensures Evolves(s, u, now)
  {
  }

  /** One more task at position `p` of a lane. */
  function Inserted(l: seq<Posted>, p: nat, e: Posted): (m: seq<Posted>)
    requires p <= |l|
    ensures |m| == |l| + 1 && m[p] == e
    ensures forall i | 0 <= i < p :: m[i] == l[i]
    ensures forall i | p < i < |m| :: m[i] == l[i - 1]
  {
    l[..p] + [e] + l[p..]
  }

  lemma {:induction false} InOrderInsert(l: seq<Posted>, p: nat, e: Posted)
    requires InOrder(l) && p <= |l|
    requires forall i | 0 <= i < |l| :: l[i].order != e.order
    requires e.delayed ==> forall i | 0 <= i < p && l[i].delayed :: Before(l[i], e)
    requires e.delayed ==> forall i | p <= i < |l| && l[i].delayed :: Before(e, l[i])
    requires !e.delayed ==> forall i | 0 <= i < p && !l[i].delayed :: l[i].order < e.order
    requires !e.delayed ==> forall i | p <= i < |l| && !l[i].delayed :: e.order < l[i].order
    ensures InOrder(Inserted(l, p, e))
  {
    hide Inserted, Before;
    var m := Inserted(l, p, e);
    forall i, j | 0 <= i < j < |m|
      ensures m[i].order != m[j].order
      ensures m[i].delayed && m[j].delayed ==> Before(m[i], m[j])
      ensures !m[i].delayed && !m[j].delayed ==> m[i].order < m[j].order
    {
      var a, b := if i < p then i else i - 1, if j < p then j else j - 1;
      if i == p {
        assert m[j] == l[b];
      } else if j == p {
        assert m[i] == l[a];
      } else {
        assert m[i] == l[a] && m[j] == l[b];
      }
    }
  }

  /** The new task of a post, in its place. */
  lemma OrderedMore(s: RunnerState, t: RunnerState, e: Posted, p: nat)
    requires Ordered(s) && p <= |Lane(s)| && Lane(t) == Inserted(Lane(s), p, e)
    requires t.posted == s.posted + 1 && e.order == s.posted && t.deleted == s.deleted
    requires InOrder(Lane(t))
    ensures Ordered(t)
  {
    hide InOrder, Inserted, Lane;
    forall i | 0 <= i < |Lane(t)|
      ensures Lane(t)[i].order < t.posted
    {
      if i < p {
        assert Lane(t)[i] == Lane(s)[i];
      } else if i > p {
        assert Lane(t)[i] == Lane(s)[i - 1];
      }
    }
  }

  lemma PostTaskOrdered(s: RunnerState, script: Script, now: int)
    requires History(s, now) && Ordered(s) && !s.deleted
    ensures Ordered(PostTask(s, script, now))
  {
    hide InOrder;
    var t := PostTask(s, script, now);
    var e := Posted(script, s.posted, false, now);
    NewFits(s, e);
    InOrderInsert(Lane(s), |Line(s)|, e);
    assert Lane(t) == Inserted(Lane(s), |Line(s)|, e);
    OrderedMore(s, t, e, |Line(s)|);
  }

  /** A task posted to run at once stands behind all others of its kind. */
  lemma NewFits(s: RunnerState, e: Posted)
    requires forall i | 0 <= i < |s.delayed| :: s.delayed[i].delayed
    requires forall i | 0 <= i < |Lane(s)| :: Lane(s)[i].order < e.order
    ensures forall i | |Line(s)| <= i < |Lane(s)| && !Lane(s)[i].delayed :: e.order < Lane(s)[i].order
  {
    assert forall i | |Line(s)| <= i < |Lane(s)| :: Lane(s)[i] == s.delayed[i - |Line(s)|];
  }

  lemma {:induction false} PostTaskKeeps(s: RunnerState, script: Script, now: int)
    requires Coherent(s, now) && !s.deleted
    ensures Coherent(PostTask(s, script, now), now)
    ensures Evolves(s, PostTask(s, script, now), now) && OnlyPosts(s, PostTask(s, script, now))
    ensures Load(PostTask(s, script, now)) == Load(s) + 1 + Size(script)
  {
    hide Ordered, Accounted, BucketsSorted, Members, Copies;
    PostTaskOrdered(s, script, now);
    PostTaskModules(s, script, now);
    WeightConcat(s.queue, [Posted(script, s.posted, false, now)]);
    assert [Posted(script, s.posted, false, now)][1..] == [];
    hide Weight;
  }

  lemma PostTaskModules(s: RunnerState, script: Script, now: int)
    ensures Accounted(PostTask(s, script, now)) == Accounted(s)
  {
  }

  /** Where the lane is cut at position `p` of the delayed tasks. */
  lemma {:induction false} LaneSplit(s: RunnerState, p: nat)
    requires p <= |s.delayed|
    ensures Lane(s)[..|Line(s)| + p] == Line(s) + s.delayed[..p]
    ensures Lane(s)[|Line(s)| + p..] == s.delayed[p..]
  {
  }

  /** Where a delayed post belongs in the lane: everything that has run or waits in line is due
      no later than now, and the delayed tasks are cut at the upper bound of its target. */
  lemma PlaceOf(s: RunnerState, e: Posted, now: int)
    requires History(s, now) && InOrder(Lane(s))
    requires forall i | 0 <= i < |Lane(s)| :: Lane(s)[i].order < e.order
    requires e.due >= now
    ensures forall i | 0 <= i < |Line(s)| + UpperBound(s.delayed, e.due) :: Before(Lane(s)[i], e)
    ensures forall i | |Line(s)| + UpperBound(s.delayed, e.due) <= i < |Lane(s)| :: Before(e, Lane(s)[i])
  {
    var p := UpperBound(s.delayed, e.due);
    DelayedSorted(s);
    forall i | |Line(s)| + p <= i < |Lane(s)|
      ensures Before(e, Lane(s)[i])
    {
      assert Lane(s)[i] == s.delayed[i - |Line(s)|];
    }
    forall i | 0 <= i < |Line(s)| + p
      ensures Before(Lane(s)[i], e)
    {
      if i >= |Line(s)| {
        assert Lane(s)[i] == s.delayed[i - |Line(s)|];
      } else if i >= |s.ran| {
        assert Lane(s)[i] == s.queue[i - |s.ran|];
      }
    }
  }

  lemma PostDelayedLane(s: RunnerState, script: Script, ms: nat, now: int)
    ensures var e := Posted(script, s.posted, true, now + 1000 * ms);
            Lane(PostDelayedTask(s, script, ms, now))
            == Inserted(Lane(s), |Line(s)| + UpperBound(s.delayed, e.due), e)
  {
    hide UpperBound;
    LaneSplit(s, UpperBound(s.delayed, now + 1000 * ms));
  }

  /** A delayed post goes into the lane where its target time puts it. */
  lemma PostDelayedTaskOrdered(s: RunnerState, script: Script, ms: nat, now: int)
    requires History(s, now) && Ordered(s) && !s.deleted
    ensures Ordered(PostDelayedTask(s, script, ms, now))
  {
    hide InOrder, Before, Inserted, Lane, Line, Insert;
    var e := Posted(script, s.posted, true, now + 1000 * ms);
    PlaceOf(s, e, now);
    PostDelayedLane(s, script, ms, now);
    LineInLane(s);
    InOrderInsert(Lane(s), |Line(s)| + UpperBound(s.delayed, e.due), e);
    OrderedMore(s, PostDelayedTask(s, script, ms, now), e, |Line(s)| + UpperBound(s.delayed, e.due));
  }

  lemma LineInLane(s: RunnerState)
    ensures |Lane(s)| == |Line(s)| + |s.delayed|
  {
  }

  lemma {:induction false} PostDelayedTaskKeeps(s: RunnerState, script: Script, ms: nat, now: int)
    requires Coherent(s, now) && !s.deleted
    ensures Coherent(PostDelayedTask(s, script, ms, now), now)
    ensures Evolves(s, PostDelayedTask(s, script, ms, now), now)
    ensures OnlyPosts(s, PostDelayedTask(s, script, ms, now))
    ensures Load(PostDelayedTask(s, script, ms, now)) == Load(s) + 1 + Size(script)
  {
    PostDelayedTaskOrdered(s, script, ms, now);
    WeightInsert(s.delayed, Posted(script, s.posted, true, now + 1000 * ms));
  }

  /** The delayed tasks of an ordered state are sorted by target time. */
  lemma {:induction false} DelayedSorted(s: RunnerState)
    requires InOrder(Lane(s))
    requires forall i | 0 <= i < |s.delayed| :: s.delayed[i].delayed
    ensures forall i, j | 0 <= i < j < |s.delayed| :: s.delayed[i].due <= s.delayed[j].due
  {
    forall i, j | 0 <= i < j < |s.delayed|
      ensures s.delayed[i].due <= s.delayed[j].due
    {
      assert Lane(s)[|Line(s)| + i] == s.delayed[i] && Lane(s)[|Line(s)| + j] == s.delayed[j];
    }
  }

  // ---------------------------------------------------------------- what does not touch the tasks

  ghost predicate TaskSide(s: RunnerState, t: RunnerState) {
    && t.queue == s.queue && t.delayed == s.delayed && t.posted == s.posted
    && t.ran == s.ran && t.ranAt == s.ranAt && t.activations == s.activations
    && t.deleted == s.deleted && t.deletedAt == s.deletedAt
  }

  /** What a call on the module side of a runner leaves alone. */
  ghost predicate SameTasks(s: RunnerState, t: RunnerState) {
    TaskSide(s, t) && t.inFlight == s.inFlight && s.lost <= t.lost
  }

  /** Where the tasks are the same, only the modules and the cached time have to be looked at. */
  lemma ModulesKeep(s: RunnerState, t: RunnerState, now: int)
    requires Coherent(s, now) && TaskSide(s, t) && !s.deleted && BucketsSorted(t.modules)
    requires s.activations == 0 ==> Agrees(t, now) && t.inFlight == []
    requires t.orderly ==> Accounted(t)
    ensures Coherent(t, now)
  {
    hide InOrder, Agrees, Accounted, BucketsSorted;
    assert Lane(t) == Lane(s);
  }

  // ---------------------------------------------------------------- the steps of RunReady

  lemma EmptyMembers()
    ensures Members([]) == []
  {
  }

  lemma TakeModulesKeeps(s: RunnerState, now: int)
    requires Coherent(s, now) && s.activations > 0 && s.inFlight == [] && !s.deleted
    ensures Coherent(TakeModules(s, now), now) && DueCount(TakeModules(s, now), now) == 0
  {
    hide Ordered, History, NoneMoved, Agrees, Accounted;
    var t := TakeModules(s, now);
    if s.orderly {
      TakeAccounts(s, now);
    }
    ModulesKeep(s, t, now);
  }

  lemma TakeAccounts(s: RunnerState, now: int)
    requires Accounted(s) && s.inFlight == []
    ensures Accounted(TakeModules(s, now))
  {
    hide DueBuckets;
    var t := TakeModules(s, now);
    var n := DueBuckets(s.modules, now);
    assert s.modules == s.modules[..n] + s.modules[n..];
    MembersConcat(s.modules[..n], s.modules[n..]);
    EmptyMembers();
    forall m
      ensures Copies(Members(t.modules), m) + Copies(t.stopped, m) + Copies(t.inFlight, m) == t.registered[m]
    {
      CopiesConcat(t.inFlight, Members(t.modules), m);
    }
  }

  lemma RequeueKeeps(s: RunnerState, t: int, now: int)
    requires Coherent(s, now) && s.activations > 0 && s.inFlight != [] && !s.deleted && t > now
    ensures Coherent(Requeue(s, t), now) && DueCount(Requeue(s, t), now) == DueCount(s, now)
  {
    hide Ordered, History, NoneMoved, Agrees;
    var u := Requeue(s, t);
    var x := s.inFlight[0];
    AddToSorted(s.modules, t, x);
    AddToDue(s.modules, t, x, now);
    if u.orderly {
      forall m
        ensures Copies(Members(u.modules), m) + Copies(u.stopped, m) + Copies(u.inFlight, m) == u.registered[m]
      {
        AddToCounts(s.modules, t, x, m);
      }
    }
    ModulesKeep(s, u, now);
  }

  lemma MoveDueLine(s: RunnerState, now: int)
    ensures Line(MoveDue(s, now)) == Line(s) + s.delayed[..UpperBound(s.delayed, now)]
    ensures Lane(MoveDue(s, now)) == Lane(s)
    ensures Load(MoveDue(s, now)) == Load(s)
  {
    hide Weight;
    var p := UpperBound(s.delayed, now);
    MoveDueLoad(s.queue, s.delayed, p);
    MoveDueTasks(s.ran, s.queue, s.delayed, p);
  }

  lemma MoveDueTasks(ran: seq<Posted>, queue: seq<Posted>, delayed: seq<Posted>, p: nat)
    requires p <= |delayed|
    ensures ran + (queue + delayed[..p]) == ran + queue + delayed[..p]
    ensures ran + (queue + delayed[..p]) + delayed[p..] == ran + queue + delayed
  {
    assert delayed == delayed[..p] + delayed[p..];
  }

  lemma MoveDueLoad(queue: seq<Posted>, delayed: seq<Posted>, p: nat)
    requires p <= |delayed|
    ensures Weight(queue + delayed[..p]) + Weight(delayed[p..]) == Weight(queue) + Weight(delayed)
  {
    WeightConcat(queue, delayed[..p]);
    WeightConcat(delayed[..p], delayed[p..]);
    assert delayed == delayed[..p] + delayed[p..];
  }

  lemma MoveDueEvolves(s: RunnerState, now: int)
    requires |s.ran| == |s.ranAt|
    ensures Evolves(s, MoveDue(s, now), now)
  {
    hide Weight, Load, Members, Lane;
    var t := MoveDue(s, now);
    var p := UpperBound(s.delayed, now);
    MoveDueLine(s, now);
    assert Line(t)[|Line(s)|..] == s.delayed[..p];
    assert s.delayed == s.delayed[..p] + s.delayed[p..];
  }

  lemma MoveDueHistory(s: RunnerState, now: int)
    requires History(s, now)
    ensures History(MoveDue(s, now), now)
  {
  }

  lemma MoveDueKeeps(s: RunnerState, now: int)
    requires Coherent(s, now) && s.activations > 0
    ensures Coherent(MoveDue(s, now), now)
  {
    hide InOrder, Members, Lane, Weight, History, Copies;
    MoveDueLine(s, now);
    MoveDueHistory(s, now);
  }

  lemma PopFrontKeeps(s: RunnerState, now: int)
    requires Coherent(s, now) && s.activations > 0 && s.queue != []
    ensures Coherent(PopFront(s, now), now) && Evolves(s, PopFront(s, now), now)
    ensures Load(PopFront(s, now)) + 1 + Size(s.queue[0].script) == Load(s)
    ensures Line(PopFront(s, now)) == Line(s)
  {
    hide InOrder, Members;
    var t := PopFront(s, now);
    assert Line(t) == Line(s);
    assert Lane(t) == Lane(s);
  }

  function Enter(s: RunnerState): RunnerState {
    s.(activations := s.activations + 1)
  }

  /** The end of RunReady. */
  function Finish(s: RunnerState): RunnerState
    requires s.activations > 0
  {
    Settle(s).(activations := s.activations - 1)
  }

  lemma EnterKeeps(s: RunnerState, now: int)
    requires Coherent(s, now)
    ensures Coherent(Enter(s), now)
  {
    hide InOrder;
    assert Lane(Enter(s)) == Lane(s);
  }

  /** Recomputing restores the agreement, whatever the cached time was. */
  lemma FinishKeeps(s: RunnerState, now: int)
    requires Coherent(s, now) && s.activations > 0 && s.queue == [] && s.inFlight == []
    ensures Coherent(Finish(s), now)
    ensures (s.modules == [] || s.modules[0].at > now) && (s.delayed == [] || s.delayed[0].due > now)
         ==> !Finish(s).next.AtMost(Micros(now))
  {
    DelayedSorted(s);
    FinishAgrees(s, now);
    hide InOrder, Agrees, BucketsSorted;
    assert Lane(Finish(s)) == Lane(s);
  }

  lemma FinishAgrees(s: RunnerState, now: int)
    requires s.activations > 0 && s.queue == []
    requires forall i, j | 0 <= i <= j < |s.delayed| :: s.delayed[i].due <= s.delayed[j].due
    ensures Agrees(Finish(s), now)
  {
  }

  /** After RunReady the next run time is that of something that waits, unless nothing does. */
  lemma FinishAttained(s: RunnerState)
    requires s.activations > 0 && InOrder(Lane(s)) && BucketsSorted(s.modules)
    requires forall i | 0 <= i < |s.delayed| :: s.delayed[i].delayed
    ensures var next := Finish(s).next;
            && (next == PlusInfinity <==> s.modules == [] && s.delayed == [])
            && (next.Micros? ==>
                  (exists i :: 0 <= i < |s.modules| && s.modules[i].at == next.us)
                  || exists i :: 0 <= i < |s.delayed| && s.delayed[i].due == next.us)
            && (next.Micros? ==> forall i | 0 <= i < |s.modules| :: next.us <= s.modules[i].at)
            && (next.Micros? ==> forall i | 0 <= i < |s.delayed| :: next.us <= s.delayed[i].due)
            && next != MinusInfinity
  {
    DelayedSorted(s);
    hide InOrder;
    var m := if s.modules != [] then Micros(s.modules[0].at) else PlusInfinity;
    assert s.modules != [] ==> s.modules[0].at == m.us;
    assert s.delayed != [] ==> Finish(s).next == Earlier(m, Micros(s.delayed[0].due));
  }

  // ---------------------------------------------------------------- process-thread calls

  lemma StartKeeps(s: RunnerState, now: int, waits: seq<nat>)
    requires Coherent(s, now) && |waits| == |s.stopped| && !s.deleted
    requires forall i | 0 <= i < |waits| :: waits[i] >= 1
    ensures Coherent(StartThread(s, now, waits), now)
    ensures DueCount(StartThread(s, now, waits), now) == DueCount(s, now)
    ensures SameTasks(s, StartThread(s, now, waits))
  {
    hide Ordered, History, NoneMoved, AddAll;
    var t := StartThread(s, now, waits);
    AddAllSorted(s.modules, s.stopped, now, waits);
    AddAllDue(s.modules, s.stopped, now, waits);
    if s.orderly && !s.started {
      forall m
        ensures Copies(Members(t.modules), m) + Copies(t.stopped, m) + Copies(t.inFlight, m) == t.registered[m]
      {
        AddAllCounts(s.modules, s.stopped, now, waits, m);
      }
    }
    ModulesKeep(s, t, now);
  }

  lemma StopKeeps(s: RunnerState, now: int)
    requires Coherent(s, now) && !s.deleted
    ensures Coherent(StopThread(s, now), now) && DueCount(StopThread(s, now), now) <= DueCount(s, now)
    ensures SameTasks(s, StopThread(s, now))
  {
    hide Ordered, History, NoneMoved;
    var t := StopThread(s, now);
    if s.orderly {
      forall m
        ensures Copies(Members(t.modules), m) + Copies(t.stopped, m) + Copies(t.inFlight, m) == t.registered[m]
      {
        CopiesConcat(s.stopped, Members(s.modules), m);
      }
    }
    ModulesKeep(s, t, now);
  }

  lemma WakeUpKeeps(s: RunnerState, x: Module, t: int, now: int)
    requires Coherent(s, now) && !s.deleted && t > now
    ensures Coherent(WakeUpModule(s, x, t, now), now)
    ensures DueCount(WakeUpModule(s, x, t, now), now) == DueCount(s, now)
    ensures SameTasks(s, WakeUpModule(s, x, t, now))
  {
    hide Ordered, History, NoneMoved, AddTo, RemoveModule;
    var u := WakeUpModule(s, x, t, now);
    var removed := RemoveModule(s.modules, x);
    RemoveModuleKeys(s.modules, x, now);
    AddToSorted(removed, t, x);
    AddToDue(removed, t, x, now);
    if u.orderly {
      forall m
        ensures Copies(Members(u.modules), m) + Copies(u.stopped, m) + Copies(u.inFlight, m) == u.registered[m]
      {
        RemoveModuleCounts(s.modules, x, m);
        AddToCounts(removed, t, x, m);
      }
    }
    ModulesKeep(s, u, now);
  }

  lemma RegisterKeeps(s: RunnerState, x: Module, t: int, now: int)
    requires Coherent(s, now) && !s.deleted && t > now
    ensures Coherent(RegisterModuleAt(s, x, t), now)
    ensures DueCount(RegisterModuleAt(s, x, t), now) == DueCount(s, now)
    ensures SameTasks(s, RegisterModuleAt(s, x, t))
  {
    hide Ordered, History, NoneMoved, AddTo;
    var u := RegisterModuleAt(s, x, t);
    AddToSorted(s.modules, t, x);
    AddToDue(s.modules, t, x, now);
    if u.orderly {
      forall m
        ensures Copies(Members(u.modules), m) + Copies(u.stopped, m) + Copies(u.inFlight, m) == u.registered[m]
      {
        AddToCounts(s.modules, t, x, m);
        CopiesConcat(s.stopped, [x], m);
        assert [x][1..] == [];
      }
    }
    ModulesKeep(s, u, now);
  }

  lemma DeRegisterKeeps(s: RunnerState, x: Module, now: int)
    requires Coherent(s, now) && !s.deleted
    ensures Coherent(DeRegister(s, x, now), now)
    ensures DueCount(DeRegister(s, x, now), now) == DueCount(s, now)
    ensures SameTasks(s, DeRegister(s, x, now))
  {
    hide Ordered, History, NoneMoved, RemoveModule, RemoveValue, Accounted;
    var u := DeRegister(s, x, now);
    RemoveModuleKeys(s.modules, x, now);
    if u.orderly {
      DeRegisterAccounts(s, x, now);
    }
    ModulesKeep(s, u, now);
  }

  lemma DeRegisterAccounts(s: RunnerState, x: Module, now: int)
    requires Accounted(s) && DeRegister(s, x, now).orderly
    ensures Accounted(DeRegister(s, x, now))
  {
    hide RemoveModule, RemoveValue;
    var u := DeRegister(s, x, now);
    forall m
      ensures Copies(Members(u.modules), m) + Copies(u.stopped, m) + Copies(u.inFlight, m) == u.registered[m]
    {
      RemoveModuleCounts(s.modules, x, m);
      RemoveValueCounts(s.stopped, x, m);
      CopiesPositive(Members(s.modules), m);
      CopiesPositive(s.stopped, m);
      CopiesPositive(s.inFlight, m);
    }
    if !s.started {
      assert u.modules == s.modules;
    }
  }

  lemma DestroyKeeps(s: RunnerState, now: int)
    requires Coherent(s, now) && s.activations == 0
    ensures Coherent(Destroy(s, now), now) && Evolves(s, Destroy(s, now), now)
    ensures DueCount(Destroy(s, now), now) == 0 && Load(Destroy(s, now)) == 0
  {
    var t := Destroy(s, now);
    assert forall i | 0 <= i < |s.ran| :: Lane(t)[i] == Lane(s)[i];
  }

  /** The calls on the module side leave the history and the work alone. */
  lemma SameTasksEvolves(s: RunnerState, t: RunnerState, now: int)
    requires SameTasks(s, t) && |s.ran| == |s.ranAt|
    ensures Evolves(s, t, now) && OnlyPosts(s, t) && Load(t) == Load(s)
  {
  }
}
