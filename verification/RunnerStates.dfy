/** The state of one sequence runner (a simulated task queue or process thread) as a value, the
    effect of each runner operation on it, and what every operation keeps. */
module RunnerStates {
  import opened Timestamps
  import opened Scripts

  /** A queued task: its script, its place in the runner's posting order, and the time from
      which it may run (the posting time, or the target time of a delayed post). */
  datatype Posted = Posted(script: Script, order: nat, delayed: bool, due: int)

  /** One entry of the map from time to modules. A bucket can be left empty. */
  datatype Bucket = Bucket(at: int, members: seq<Module>)

  /** A module that has left the map: RunReady took it to be processed at some time, or a call of WakeUp,
      DeRegisterModule or Stop moved it. */
  datatype Gone = Taken(m: Module, at: int) | Moved(m: Module, at: int)

  /** `delayed` is the map from target time to tasks laid flat in key order, `modules` the map
      from time to modules in key order. `ran` and `ranAt` are the history of executed tasks,
      `registered` counts the modules that clients have registered, `lost` holds the delayed tasks
      that Start has lost sight of, and `deletedAt` is the time of the deletion. */
  datatype RunnerState = RunnerState(
    queue: seq<Posted>, delayed: seq<Posted>, next: Timestamp,
    modules: seq<Bucket>, gone: seq<Gone>, inFlight: seq<Module>, stopped: seq<Module>, started: bool,
    posted: nat, ran: seq<Posted>, ranAt: seq<int>, activations: nat,
    deleted: bool, deletedAt: int, lost: set<Posted>, orderly: bool, registered: multiset<Module>)

  const CREATED := RunnerState([], [], PlusInfinity, [], [], [], [], false, 0, [], [], 0,
                               false, 0, {}, true, multiset{})

  // ---------------------------------------------------------------- buckets of modules

  function Members(bs: seq<Bucket>): seq<Module> {
    if bs == [] then [] else bs[0].members + Members(bs[1..])
  }

  ghost predicate BucketsSorted(bs: seq<Bucket>) {
    forall i, j | 0 <= i < j < |bs| :: bs[i].at < bs[j].at
  }

  /** delayed_modules_[t].push_back(m) */
  function AddTo(bs: seq<Bucket>, t: int, m: Module): seq<Bucket> {
    if bs == [] || t < bs[0].at then [Bucket(t, [m])] + bs
    else if bs[0].at == t then [Bucket(t, bs[0].members + [m])] + bs[1..]
    else [bs[0]] + AddTo(bs[1..], t, m)
  }

  /** Module `m` waits until time `t`. */
  ghost predicate Waits(bs: seq<Bucket>, m: Module, t: int) {
    exists k :: 0 <= k < |bs| && bs[k].at == t && m in bs[k].members
  }

  /** How often `m` occurs in `ms`. */
  function Copies(ms: seq<Module>, m: Module): nat {
    if ms == [] then 0 else (if ms[0] == m then 1 else 0) + Copies(ms[1..], m)
  }

  function RemoveValue(ms: seq<Module>, m: Module): seq<Module> {
    if ms == [] then []
    else if ms[0] == m then ms[1..]
    else [ms[0]] + RemoveValue(ms[1..], m)
  }

  /** Removes `m` from the first bucket that holds it; the bucket stays even when it empties. */
  function RemoveModule(bs: seq<Bucket>, m: Module): seq<Bucket> {
    if bs == [] then []
    else if m in bs[0].members then [Bucket(bs[0].at, RemoveValue(bs[0].members, m))] + bs[1..]
    else [bs[0]] + RemoveModule(bs[1..], m)
  }

  /** The number of leading buckets that are due. */
  function DueBuckets(bs: seq<Bucket>, at: int): (n: nat)
    ensures n <= |bs|
    ensures forall i | 0 <= i < n :: bs[i].at <= at
    ensures n < |bs| ==> bs[n].at > at
  {
    if bs == [] || bs[0].at > at then 0 else 1 + DueBuckets(bs[1..], at)
  }

  function AddAll(bs: seq<Bucket>, ms: seq<Module>, now: int, waits: seq<nat>): seq<Bucket>
    requires |waits| == |ms|
    decreases |ms|
  {
    if ms == [] then bs
    else
      var n := |ms| - 1;
      AddTo(AddAll(bs, ms[..n], now, waits[..n]), now + 1000 * waits[n], ms[n])
  }

  lemma {:induction false} MembersConcat(a: seq<Bucket>, b: seq<Bucket>)
    ensures Members(a + b) == Members(a) + Members(b)
  {
    if a == [] {
      assert a + b == b;
    } else {
      assert (a + b)[1..] == a[1..] + b;
      MembersConcat(a[1..], b);
    }
  }

  lemma {:induction false} CopiesConcat(a: seq<Module>, b: seq<Module>, m: Module)
    ensures Copies(a + b, m) == Copies(a, m) + Copies(b, m)
  {
    if a == [] {
      assert a + b == b;
    } else {
      assert (a + b)[1..] == a[1..] + b;
      CopiesConcat(a[1..], b, m);
    }
  }

  lemma {:induction false} CopiesPositive(ms: seq<Module>, m: Module)
    ensures Copies(ms, m) > 0 <==> m in ms
  {
    if ms != [] {
      CopiesPositive(ms[1..], m);
    }
  }

  /** Adding keeps the keys sorted; the first key can only move forward to the new one. */
  lemma {:induction false} AddToSorted(bs: seq<Bucket>, t: int, m: Module)
    requires BucketsSorted(bs)
    ensures BucketsSorted(AddTo(bs, t, m))
    ensures AddTo(bs, t, m) != []
    ensures AddTo(bs, t, m)[0].at == if bs == [] || t < bs[0].at then t else bs[0].at
  {
    if bs != [] && t > bs[0].at {
      AddToSorted(bs[1..], t, m);
      var rest := AddTo(bs[1..], t, m);
      assert forall i | 0 <= i < |rest| :: rest[i].at > bs[0].at;
    }
  }

  /** Adding adds one occurrence of the module. */
  lemma {:induction false} AddToWaits(bs: seq<Bucket>, t: int, m: Module)
    ensures Waits(AddTo(bs, t, m), m, t)
  {
    var r := AddTo(bs, t, m);
    if bs == [] || t <= bs[0].at {
      assert r[0].at == t && m in r[0].members;
    } else {
      AddToWaits(bs[1..], t, m);
      var k :| 0 <= k < |r[1..]| && r[1..][k].at == t && m in r[1..][k].members;
      assert r[k + 1] == r[1..][k];
    }
  }

  lemma {:induction false} AddToCounts(bs: seq<Bucket>, t: int, x: Module, m: Module)
    ensures Copies(Members(AddTo(bs, t, x)), m) == Copies(Members(bs), m) + if m == x then 1 else 0
  {
    var r := AddTo(bs, t, x);
    if bs == [] || t < bs[0].at {
      assert r[1..] == bs;
      CopiesConcat([x], Members(bs), m);
    } else if bs[0].at == t {
      assert r[1..] == bs[1..];
      CopiesConcat(bs[0].members + [x], Members(bs[1..]), m);
      CopiesConcat(bs[0].members, [x], m);
      CopiesConcat(bs[0].members, Members(bs[1..]), m);
    } else {
      AddToCounts(bs[1..], t, x, m);
      assert r[1..] == AddTo(bs[1..], t, x);
      CopiesConcat(bs[0].members, Members(bs[1..]), m);
      CopiesConcat(bs[0].members, Members(r[1..]), m);
    }
  }

  /** A key that is not due makes no bucket due. */
  lemma {:induction false} AddToDue(bs: seq<Bucket>, t: int, m: Module, now: int)
    requires t > now
    ensures DueBuckets(AddTo(bs, t, m), now) == DueBuckets(bs, now)
  {
    if bs != [] && t > bs[0].at {
      AddToDue(bs[1..], t, m, now);
      assert AddTo(bs, t, m)[1..] == AddTo(bs[1..], t, m);
    } else if bs != [] && bs[0].at == t {
      assert AddTo(bs, t, m)[0].at == t;
    }
  }

  lemma {:induction false} RemoveValueCounts(ms: seq<Module>, x: Module, m: Module)
    ensures Copies(RemoveValue(ms, x), m) == Copies(ms, m) - if m == x && x in ms then 1 else 0
  {
    if ms != [] && ms[0] != x {
      RemoveValueCounts(ms[1..], x, m);
    }
  }

  lemma {:induction false} RemoveModuleCounts(bs: seq<Bucket>, x: Module, m: Module)
    ensures Copies(Members(RemoveModule(bs, x)), m)
         == Copies(Members(bs), m) - if m == x && x in Members(bs) then 1 else 0
  {
    if bs != [] {
      var r := RemoveModule(bs, x);
      CopiesConcat(bs[0].members, Members(bs[1..]), m);
      CopiesConcat(r[0].members, Members(r[1..]), m);
      if x in bs[0].members {
        RemoveValueCounts(bs[0].members, x, m);
        assert r[1..] == bs[1..];
      } else {
        RemoveModuleCounts(bs[1..], x, m);
        assert r[1..] == RemoveModule(bs[1..], x);
      }
    }
  }

  /** Removing leaves every bucket in its place. */
  lemma {:induction false} RemoveModuleKeys(bs: seq<Bucket>, x: Module, now: int)
    ensures |RemoveModule(bs, x)| == |bs|
    ensures forall i | 0 <= i < |bs| :: RemoveModule(bs, x)[i].at == bs[i].at
    ensures DueBuckets(RemoveModule(bs, x), now) == DueBuckets(bs, now)
  {
    if bs != [] {
      var r := RemoveModule(bs, x);
      if x in bs[0].members {
        assert r[1..] == bs[1..];
      } else {
        RemoveModuleKeys(bs[1..], x, now);
        assert r[1..] == RemoveModule(bs[1..], x);
      }
    }
  }

  lemma {:induction false} AddAllSorted(bs: seq<Bucket>, ms: seq<Module>, now: int, waits: seq<nat>)
    requires |waits| == |ms| && BucketsSorted(bs)
    ensures BucketsSorted(AddAll(bs, ms, now, waits))
    decreases |ms|
  {
    if ms != [] {
      var n := |ms| - 1;
      AddAllSorted(bs, ms[..n], now, waits[..n]);
      AddToSorted(AddAll(bs, ms[..n], now, waits[..n]), now + 1000 * waits[n], ms[n]);
    }
  }

  lemma {:induction false} AddAllCounts(bs: seq<Bucket>, ms: seq<Module>, now: int, waits: seq<nat>, m: Module)
    requires |waits| == |ms|
    ensures Copies(Members(AddAll(bs, ms, now, waits)), m) == Copies(Members(bs), m) + Copies(ms, m)
    decreases |ms|
  {
    if ms != [] {
      var n := |ms| - 1;
      AddAllCounts(bs, ms[..n], now, waits[..n], m);
      AddToCounts(AddAll(bs, ms[..n], now, waits[..n]), now + 1000 * waits[n], ms[n], m);
      CopiesConcat(ms[..n], [ms[n]], m);
      assert ms == ms[..n] + [ms[n]];
    }
  }

  lemma {:induction false} AddAllDue(bs: seq<Bucket>, ms: seq<Module>, now: int, waits: seq<nat>)
    requires |waits| == |ms|
    requires forall i | 0 <= i < |waits| :: waits[i] >= 1
    ensures DueBuckets(AddAll(bs, ms, now, waits), now) == DueBuckets(bs, now)
    decreases |ms|
  {
    if ms != [] {
      var n := |ms| - 1;
      AddAllDue(bs, ms[..n], now, waits[..n]);
      AddToDue(AddAll(bs, ms[..n], now, waits[..n]), now + 1000 * waits[n], ms[n], now);
    }
  }

  // ---------------------------------------------------------------- task lists

  /** The first position whose task is due later than `t`. */
  function UpperBound(d: seq<Posted>, t: int): (p: nat)
    ensures p <= |d|
    ensures forall i | 0 <= i < p :: d[i].due <= t
    ensures p < |d| ==> d[p].due > t
  {
    if d == [] || t < d[0].due then 0 else 1 + UpperBound(d[1..], t)
  }

  /** delayed_tasks_[e.due].push_back(e) */
  function Insert(d: seq<Posted>, e: Posted): seq<Posted> {
    var p := UpperBound(d, e.due);
    d[..p] + [e] + d[p..]
  }

  /** Pending work: every queued task counts one plus the size of its script. */
  function Weight(l: seq<Posted>): nat {
    if l == [] then 0 else 1 + Size(l[0].script) + Weight(l[1..])
  }

  lemma {:induction false} WeightConcat(a: seq<Posted>, b: seq<Posted>)
    ensures Weight(a + b) == Weight(a) + Weight(b)
  {
    if a == [] {
      assert a + b == b;
    } else {
      assert (a + b)[1..] == a[1..] + b;
      WeightConcat(a[1..], b);
    }
  }

  lemma {:induction false} WeightInsert(d: seq<Posted>, e: Posted)
    ensures Weight(Insert(d, e)) == Weight(d) + 1 + Size(e.script)
  {
    var p := UpperBound(d, e.due);
    assert d == d[..p] + d[p..];
    WeightConcat(d[..p], d[p..]);
    WeightConcat(d[..p] + [e], d[p..]);
    WeightConcat(d[..p], [e]);
    assert [e][1..] == [];
  }

  // ---------------------------------------------------------------- operations

  function PostTask(s: RunnerState, script: Script, now: int): RunnerState {
    s.(queue := s.queue + [Posted(script, s.posted, false, now)],
       posted := s.posted + 1,
       next := MinusInfinity)
  }

  function PostDelayedTask(s: RunnerState, script: Script, ms: nat, now: int): RunnerState {
    var target := now + 1000 * ms;
    s.(delayed := Insert(s.delayed, Posted(script, s.posted, true, target)),
       posted := s.posted + 1,
       next := Earlier(s.next, Micros(target)))
  }

  function TakenAt(ms: seq<Module>, at: int): (log: seq<Gone>)
    ensures |log| == |ms|
  {
    seq(|ms|, k requires 0 <= k < |ms| => Taken(ms[k], at))
  }

  function MovedAll(ms: seq<Module>, at: int): (log: seq<Gone>)
    ensures |log| == |ms|
  {
    seq(|ms|, k requires 0 <= k < |ms| => Moved(ms[k], at))
  }

  /** RunReady, first step: the due modules leave the map. */
  function TakeModules(s: RunnerState, at: int): RunnerState {
    var n := DueBuckets(s.modules, at);
    var taken := Members(s.modules[..n]);
    s.(inFlight := taken, modules := s.modules[n..], gone := s.gone + TakenAt(taken, at))
  }

  /** RunReady, after Process() of the first module of the batch. */
  function Requeue(s: RunnerState, t: int): RunnerState
    requires s.inFlight != []
  {
    s.(modules := AddTo(s.modules, t, s.inFlight[0]),
       inFlight := s.inFlight[1..],
       orderly := s.orderly && s.started)
  }

  /** RunReady: due delayed tasks join the ready tasks. */
  function MoveDue(s: RunnerState, at: int): RunnerState {
    var p := UpperBound(s.delayed, at);
    s.(queue := s.queue + s.delayed[..p], delayed := s.delayed[p..])
  }

  /** RunReady: the front task leaves the ready tasks to be run. */
  function PopFront(s: RunnerState, now: int): RunnerState
    requires s.queue != []
  {
    s.(queue := s.queue[1..], ran := s.ran + [s.queue[0]], ranAt := s.ranAt + [now])
  }

  /** RunReady, last step: the next run time is recomputed. */
  function Settle(s: RunnerState): RunnerState {
    var m := if s.modules != [] then Micros(s.modules[0].at) else PlusInfinity;
    s.(next := if s.delayed != [] then Earlier(m, Micros(s.delayed[0].due)) else m)
  }

  /** The tasks that a next run time comes too late for. */
  function Overlooked(delayed: seq<Posted>, next: Timestamp): set<Posted> {
    set e | e in delayed && !next.AtMost(Micros(e.due))
  }

  /** Start() leaves the delayed tasks out of the new next run time. Inside RunReady that does not
      matter, since RunReady recomputes it at its end. */
  function StartThread(s: RunnerState, now: int, waits: seq<nat>): RunnerState
    requires |waits| == |s.stopped|
  {
    if s.started then s else
    var bs := AddAll(s.modules, s.stopped, now, waits);
    var next := if s.queue != [] then MinusInfinity
                else if bs != [] then Micros(bs[0].at) else PlusInfinity;
    s.(started := true, stopped := [], modules := bs, next := next,
       lost := if s.activations == 0 then s.lost + Overlooked(s.delayed, next) else s.lost)
  }

  function StopThread(s: RunnerState, now: int): RunnerState {
    var ms := Members(s.modules);
    s.(started := false, stopped := s.stopped + ms, modules := [], gone := s.gone + MovedAll(ms, now))
  }

  function WakeUpModule(s: RunnerState, m: Module, t: int, now: int): RunnerState {
    s.(modules := AddTo(RemoveModule(s.modules, m), t, m), gone := s.gone + [Moved(m, now)],
       next := Earlier(s.next, Micros(t)),
       orderly := s.orderly && s.started && m in Members(s.modules))
  }

  function RegisterModuleAt(s: RunnerState, m: Module, t: int): RunnerState {
    var r := s.(registered := s.registered + multiset{m});
    if !s.started then r.(stopped := s.stopped + [m])
    else r.(modules := AddTo(s.modules, t, m), next := Earlier(s.next, Micros(t)))
  }

  function DeRegister(s: RunnerState, m: Module, now: int): RunnerState {
    var r := s.(registered := s.registered - multiset{m}, gone := s.gone + [Moved(m, now)],
                orderly := s.orderly &&
                           (m in s.inFlight ==> m in if s.started then Members(s.modules) else s.stopped));
    if !s.started then r.(stopped := RemoveValue(s.stopped, m))
    else r.(modules := RemoveModule(s.modules, m))
  }

  /** Destruction drops everything that is pending. */
  function Destroy(s: RunnerState, now: int): RunnerState {
    s.(queue := [], delayed := [], modules := [], stopped := [], next := PlusInfinity,
       deleted := true, deletedAt := if s.deleted then s.deletedAt else now)
  }

  // ---------------------------------------------------------------- invariants

  /** Tasks in the order in which they ran or will run if nothing more is posted. */
  function Lane(s: RunnerState): seq<Posted> {
    s.ran + s.queue + s.delayed
  }

  predicate Before(a: Posted, b: Posted) {
    a.due < b.due || (a.due == b.due && a.order < b.order)
  }

  /** Delayed tasks stand in order of target time, then posting order, all others in posting order;
      no task stands twice. */
  ghost predicate InOrder(l: seq<Posted>) {
    && (forall i, j | 0 <= i < j < |l| :: l[i].delayed && l[j].delayed ==> Before(l[i], l[j]))
    && (forall i, j | 0 <= i < j < |l| :: !l[i].delayed && !l[j].delayed ==> l[i].order < l[j].order)
    && (forall i, j | 0 <= i < j < |l| :: l[i].order != l[j].order)
  }

  /** Nothing ran before it was due, and nothing is queued or held back wrongly. */
  ghost predicate History(s: RunnerState, now: int) {
    && |s.ran| == |s.ranAt|
    && (forall i | 0 <= i < |s.ran| :: s.ran[i].due <= s.ranAt[i] <= now)
    && (forall i | 0 <= i < |s.queue| :: s.queue[i].due <= now)
    && (forall i | 0 <= i < |s.delayed| :: s.delayed[i].delayed)
  }

  ghost predicate Ordered(s: RunnerState) {
    && InOrder(Lane(s))
    && (forall i | 0 <= i < |Lane(s)| :: Lane(s)[i].order < s.posted)
    && (!s.deleted ==> |Lane(s)| == s.posted)
  }

  /** The cached next run time is no later than anything pending, except what Start has lost sight of. */
  ghost predicate Agrees(s: RunnerState, now: int) {
    && (s.queue != [] ==> s.next.AtMost(Micros(now)))
    && (s.modules != [] ==> s.next.AtMost(Micros(s.modules[0].at)))
    && (forall i | 0 <= i < |s.delayed| && s.delayed[i] !in s.lost :: s.next.AtMost(Micros(s.delayed[i].due)))
  }

  /** Every registered module is waiting, stopped or being processed, as often as it was
      registered, and waits only while the thread is started. */
  ghost predicate Accounted(s: RunnerState) {
    && (forall m :: Copies(Members(s.modules), m) + Copies(s.stopped, m) + Copies(s.inFlight, m)
                    == s.registered[m])
    && (s.started ==> s.stopped == [])
    && (!s.started ==> Members(s.modules) == [])
  }

  /** Delayed tasks join the ready tasks only inside RunReady, which runs them all. */
  ghost predicate NoneMoved(s: RunnerState) {
    forall i | 0 <= i < |s.queue| :: !s.queue[i].delayed
  }

  ghost predicate Coherent(s: RunnerState, now: int) {
    && BucketsSorted(s.modules)
    && History(s, now)
    && Ordered(s)
    && (s.activations == 0 ==> Agrees(s, now) && s.inFlight == [] && NoneMoved(s))
    && (s.orderly && !s.deleted ==> Accounted(s))
    && (s.deleted ==> s.queue == [] && s.delayed == [] && s.modules == [] && s.next == PlusInfinity
                      && s.deletedAt <= now)
  }
}
