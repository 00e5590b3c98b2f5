/** What a log tells: every task that joined the history of its runner was performed there and then, every
    module that was taken was processed, and code without yields had exactly its effect. */
module LogTheorems {
  import opened Timestamps
  import opened Scripts
  import opened RunnerStates
  import opened RunnerLaws
  import opened ModuleLaws
  import opened Worlds
  import opened WorldLaws
  import opened TimerLaws
  import opened WholeRuns
  import opened CalmScripts
  import opened Logs

  lemma {:induction false} ReplaySplit(c: Clients, a: Moment, log: seq<Entry>, k: nat)
    requires k <= |log| && Replay(c, a, log).Some?
    ensures Replay(c, a, log[..k]).Some?
    ensures Replay(c, Replay(c, a, log[..k]).value, log[k..]) == Replay(c, a, log)
    decreases k
  {
    hide Do;
    if k == 0 {
      assert log[..0] == [] && log[0..] == log;
    } else {
      var n := Do(c, a, log[0]).value;
      ReplaySplit(c, n, log[1..], k - 1);
      assert log[..k][1..] == log[1..][..k - 1] && log[k..] == log[1..][k - 1..];
    }
  }

  /** The moment before the i-th entry. */
  function MomentBefore(c: Clients, a: Moment, log: seq<Entry>, i: nat): Moment
    requires i <= |log| && Replay(c, a, log).Some?
  {
    ReplaySplit(c, a, log, i);
    Replay(c, a, log[..i]).value
  }

  // ---------------------------------------------------------------- code without yields

  /** A performed script that does not yield had exactly its effect. */
  lemma {:induction false} CalmPerforms(c: Clients, a: Moment, cur: Context, s: Script, log: seq<Entry>, b: Moment)
    requires Calm(s) && Performs(cur, s, log) && Replay(c, a, log) == Some(b)
    ensures Effect(a.world, a.calls, c.untilNext, cur, s) == Ended(b.world, b.calls)
    decreases s
  {
    hide First;
    EffectUnfolds(a.world, a.calls, c.untilNext, cur, s);
    if Plain(s) {
      FirstOfHead(a.world, a.calls, c.untilNext, cur, s);
      var m := Do(c, a, log[0]).value;
      CalmPerforms(c, m, cur, s.next, log[1..], b);
    } else if s.Send? {
      CalmSend(c, a, cur, s, log, b);
    }
  }

  lemma {:induction false} CalmSend(c: Clients, a: Moment, cur: Context, s: Script, log: seq<Entry>, b: Moment)
    requires Calm(s) && s.Send? && Performs(cur, s, log) && Replay(c, a, log) == Some(b)
    ensures Effect(a.world, a.calls, c.untilNext, cur, s) == Ended(b.world, b.calls)
    decreases s, 0
  {
    EffectUnfolds(a.world, a.calls, c.untilNext, cur, s);
    hide Effect, Performs, Do;
    var k := SendParts(cur, s, log);
    var m := Do(c, a, log[0]).value;
    ReplaySplit(c, m, log[1..], k - 1);
    assert log[1..][..k - 1] == log[1..k] && log[1..][k - 1..] == log[k..] && log[k..][1..] == log[k + 1..];
    var n := Replay(c, m, log[1..k]).value;
    var d := Do(c, n, log[k]).value;
    SendSteps(c, a, m, n, d, cur, s.to);
    CalmPerforms(c, m, On(s.to), s.handler, log[1..k], n);
    CalmPerforms(c, d, cur, s.next, log[k + 1..], b);
  }

  lemma SendParts(cur: Context, s: Script, log: seq<Entry>) returns (k: nat)
    requires s.Send? && Performs(cur, s, log)
    ensures 1 <= k < |log| && log[0] == SendBegins(cur, s.to) && log[k] == SendEnds(cur, s.to)
    ensures Performs(On(s.to), s.handler, log[1..k]) && Performs(cur, s.next, log[k + 1..])
  {
    k :| 1 <= k < |log| && log[0] == SendBegins(cur, s.to) && log[k] == SendEnds(cur, s.to)
      && Performs(On(s.to), s.handler, log[1..k]) && Performs(cur, s.next, log[k + 1..]);
  }

  lemma SendSteps(c: Clients, a: Moment, m: Moment, n: Moment, d: Moment, cur: Context, to: nat)
    requires Do(c, a, SendBegins(cur, to)) == Some(m) && Do(c, n, SendEnds(cur, to)) == Some(d)
    ensures Registered(a.world, to) && m.calls == a.calls && d.calls == n.calls
    ensures cur == On(to) ==> m == a && d == n
    ensures cur != On(to) ==>
              cur !in a.world.yielded && m.world == Suspended(a.world, cur) && d.world == Continued(n.world, cur)
  {
  }

  // ---------------------------------------------------------------- the ready tasks of a runner

  /** The front task of the queue is taken and has its effect, if it does not yield. */
  function TaskDone(c: Clients, m: Moment, r: nat): Option<Moment> {
    if r < |m.world.rs| && m.world.rs[r].queue != [] && Calm(m.world.rs[r].queue[0].script) then
      var s := m.world.rs[r];
      match Effect(With(m.world, r, PopFront(s, m.world.now)), m.calls, c.untilNext, On(r), s.queue[0].script)
      case Ended(w, calls) => Some(Moment(w, calls))
      case CheckFails | Breaks => None
    else None
  }

  /** The same, n times. */
  function Drained(c: Clients, m: Moment, r: nat, n: nat): Option<Moment> {
    if n == 0 then Some(m)
    else
      match Drained(c, m, r, n - 1)
      case None => None
      case Some(x) => TaskDone(c, x, r)
  }

  /** A script that never yields, nor does anything it posts. */
  predicate Still(s: Script)
    ensures Still(s) ==> Calm(s)
  {
    match s
    case Return => true
    case Post(_, task, next) => Still(task) && Still(next)
    case PostDelayed(_, _, task, next) => Still(task) && Still(next)
    case Yield(_) => false
    case Send(_, handler, next) => Still(handler) && Still(next)
    case Create(_, next) => Still(next)
    case Delete(_, next) => Still(next)
    case Control(_, _, next) => Still(next)
  }

  /** No ready task of the runner yields, and none will. */
  predicate StillQueue(w: World, r: nat) {
    r < |w.rs| && forall i | 0 <= i < |w.rs[r].queue| :: Still(w.rs[r].queue[i].script)
  }

  lemma {:induction false} StillEffect(w: World, calls: nat, untilNext: nat -> nat, cur: Context, s: Script, r: nat)
    requires Still(s) && StillQueue(w, r) && Effect(w, calls, untilNext, cur, s).Ended?
    ensures StillQueue(Effect(w, calls, untilNext, cur, s).world, r)
    decreases s, 1
  {
    hide StillQueue, First;
    if !s.Return? {
      StillFirst(w, calls, untilNext, cur, s, r);
      var e := First(w, calls, untilNext, cur, s);
      StillEffect(e.world, e.calls, untilNext, cur, s.next, r);
    }
  }

  lemma {:induction false} StillFirst(w: World, calls: nat, untilNext: nat -> nat, cur: Context, s: Script, r: nat)
    requires Still(s) && !s.Return? && StillQueue(w, r) && First(w, calls, untilNext, cur, s).Ended?
    ensures StillQueue(First(w, calls, untilNext, cur, s).world, r)
    decreases s, 0
  {
    hide Apply;
    if s.Send? {
      if cur == On(s.to) {
        StillEffect(w, calls, untilNext, cur, s.handler, r);
      } else {
        StillEffect(Suspended(w, cur), calls, untilNext, On(s.to), s.handler, r);
      }
    } else if s.Control? {
      ApplyQueue(w.rs[s.to], s.op, w.now, Answers(untilNext, calls, Asks(w.rs[s.to], s.op)));
    }
  }

  lemma ApplyQueue(s: RunnerState, op: ThreadOp, now: int, waits: seq<nat>)
    requires |waits| == Asks(s, op)
    ensures Apply(s, op, now, waits).queue == s.queue
  {
  }

  /** The running of a queue whose tasks never yield, nor what they post: the world afterwards is exactly
      that of their effects, one after the other. */
  lemma {:induction false} CalmTasks(c: Clients, a: Moment, r: nat, log: seq<Entry>, b: Moment) returns (n: nat)
    requires Tasks(r, log) && Replay(c, a, log) == Some(b) && StillQueue(a.world, r)
    ensures Drained(c, a, r, n) == Some(b) && StillQueue(b.world, r)
    decreases |log|
  {
    hide Do, StillQueue, Effect, Performs, Drained;
    n := 0;
    if log == [] {
      DrainedMore(c, a, r, 0);
    } else {
      var k := LastTask(r, log);
      ReplaySplit(c, a, log, k);
      var m := Replay(c, a, log[..k]).value;
      n := CalmTasks(c, a, r, log[..k], m);
      assert log[k..][0] == log[k] && log[k..][1..] == log[k + 1..];
      CalmTask(c, m, r, log[k].task, Do(c, m, log[k]).value, log[k + 1..], b);
      DrainedMore(c, a, r, n);
      n := n + 1;
    }
  }

  /** The second moment follows from the first when the ready tasks have been run one after the other. */
  ghost predicate IsDrained(c: Clients, a: Moment, r: nat, b: Moment) {
    exists n :: Drained(c, a, r, n) == Some(b)
  }

  lemma IfStill(c: Clients, a: Moment, r: nat, log: seq<Entry>, b: Moment, frames: set<nat>)
    requires Tasks(r, log) && Story(c, a, log, b, frames)
    ensures StillQueue(a.world, r) ==> IsDrained(c, a, r, b)
  {
    hide Tasks, Replay, Drained;
    if StillQueue(a.world, r) {
      var n := CalmTasks(c, a, r, log, b);
    }
  }

  lemma LastTask(r: nat, log: seq<Entry>) returns (k: nat)
    requires Tasks(r, log) && log != []
    ensures k < |log| && log[k].Popped? && log[k].r == r
    ensures Tasks(r, log[..k]) && Performs(On(r), log[k].task.script, log[k + 1..])
  {
    hide Performs;
    k :| 0 <= k < |log| && log[k].Popped? && log[k].r == r
      && Tasks(r, log[..k]) && Performs(On(r), log[k].task.script, log[k + 1..]);
  }

  lemma CalmTask(c: Clients, a: Moment, r: nat, task: Posted, m: Moment, log: seq<Entry>, b: Moment)
    requires Do(c, a, Popped(r, task)) == Some(m) && StillQueue(a.world, r)
    requires Performs(On(r), task.script, log) && Replay(c, m, log) == Some(b)
    ensures TaskDone(c, a, r) == Some(b) && StillQueue(b.world, r)
  {
    hide Effect, Performs, Replay;
    assert Still(task.script);
    CalmPerforms(c, m, On(r), task.script, log, b);
    StillEffect(m.world, m.calls, c.untilNext, On(r), task.script, r);
  }

  lemma DrainedMore(c: Clients, a: Moment, r: nat, n: nat)
    ensures Drained(c, a, r, 0) == Some(a)
    ensures Drained(c, a, r, n).Some? ==> Drained(c, a, r, n + 1) == TaskDone(c, Drained(c, a, r, n).value, r)
  {
    hide TaskDone;
  }

  // ---------------------------------------------------------------- one time for all that a task does

  predicate NoClock(log: seq<Entry>) {
    forall i | 0 <= i < |log| :: !log[i].Clock?
  }

  lemma NoClockParts(log: seq<Entry>, k: nat)
    requires 1 <= k < |log| && !log[0].Clock? && NoClock(log[1..k]) && !log[k].Clock? && NoClock(log[k + 1..])
    ensures NoClock(log)
  {
    assert log == [log[0]] + log[1..k] + [log[k]] + log[k + 1..];
  }

  lemma NoClockFront(log: seq<Entry>)
    requires log != [] && !log[0].Clock? && NoClock(log[1..])
    ensures NoClock(log)
  {
    assert log == [log[0]] + log[1..];
  }

  lemma NoClockAt(log: seq<Entry>, k: nat)
    requires k < |log| && NoClock(log[..k]) && !log[k].Clock? && NoClock(log[k + 1..])
    ensures NoClock(log)
  {
    assert log == log[..k] + [log[k]] + log[k + 1..];
  }

  lemma {:induction false} PerformsInstantly(cur: Context, s: Script, log: seq<Entry>)
    requires Performs(cur, s, log)
    ensures NoClock(log)
    decreases |log|, 0
  {
    hide Performs, Rounds, NoClock;
    if s.Return? {
      PerformsReturn(cur, log);
    } else if s.Send? {
      var k := SendParts(cur, s, log);
      PerformsInstantly(On(s.to), s.handler, log[1..k]);
      PerformsInstantly(cur, s.next, log[k + 1..]);
      NoClockParts(log, k);
    } else if s.Yield? {
      var k := YieldParts(cur, s, log);
      RoundsInstantly(log[1..k]);
      PerformsInstantly(cur, s.next, log[k + 1..]);
      NoClockParts(log, k);
    } else {
      PlainParts(cur, s, log);
      PerformsInstantly(cur, s.next, log[1..]);
      NoClockFront(log);
    }
  }

  lemma PerformsReturn(cur: Context, log: seq<Entry>)
    requires Performs(cur, Return, log)
    ensures log == [] && NoClock(log)
  {
  }

  lemma PlainParts(cur: Context, s: Script, log: seq<Entry>)
    requires Performs(cur, s, log) && Plain(s)
    ensures log != [] && log[0] == Did(cur, Head(s)) && Performs(cur, s.next, log[1..])
  {
  }

  lemma YieldParts(cur: Context, s: Script, log: seq<Entry>) returns (k: nat)
    requires s.Yield? && Performs(cur, s, log)
    ensures 1 <= k < |log| && log[0] == YieldBegins(cur) && log[k] == YieldEnds(cur)
    ensures Rounds(log[1..k]) && Performs(cur, s.next, log[k + 1..])
  {
    hide Rounds;
    k :| 1 <= k < |log| && log[0] == YieldBegins(cur) && log[k] == YieldEnds(cur)
      && Rounds(log[1..k]) && Performs(cur, s.next, log[k + 1..]);
  }

  lemma {:induction false} RoundsInstantly(log: seq<Entry>)
    requires Rounds(log)
    ensures NoClock(log)
    decreases |log|, 3
  {
    hide Passes;
    PassesInstantly(log[1..]);
    assert log == [log[0]] + log[1..];
  }

  lemma {:induction false} PassesInstantly(log: seq<Entry>)
    requires Passes(log)
    ensures NoClock(log)
    decreases |log|, 2
  {
    hide Turn, Passes, NoClock;
    var n := |log| - 1;
    if log == [] {
      NothingIsInstant();
    } else if log[n] == Scanned && Passes(log[..n]) {
      PassesInstantly(log[..n]);
      NothingIsInstant();
      assert log[n + 1..] == [];
      NoClockAt(log, n);
    } else {
      var k := LastTurn(log);
      PassesInstantly(log[..k]);
      TurnInstantly(log[k + 1..]);
      NoClockAt(log, k);
    }
  }

  lemma NothingIsInstant()
    ensures NoClock([])
  {
  }

  lemma LastTurn(log: seq<Entry>) returns (k: nat)
    requires Passes(log) && log != [] && !(log[|log| - 1] == Scanned && Passes(log[..|log| - 1]))
    ensures k < |log| && log[k].Picked? && Passes(log[..k]) && Turn(log[k + 1..])
  {
    hide Turn;
    k :| 0 <= k < |log| && log[k].Picked? && Passes(log[..k])
      && Turn(log[k + 1..]) && log[k + 1].r == log[k].r;
  }

  lemma {:induction false} TurnInstantly(log: seq<Entry>)
    requires Turn(log)
    ensures NoClock(log)
    decreases |log|, 1
  {
    hide Batch, Tasks;
    var r, n := log[0].r, |log| - 1;
    var k :| 1 <= k < n && log[k] == MovedDue(r) && Batch(r, log[0].batch, log[1..k]) && Tasks(r, log[k + 1..n]);
    BatchInstantly(r, log[0].batch, log[1..k]);
    TasksInstantly(r, log[k + 1..n]);
    assert log == [log[0]] + log[1..k] + [log[k]] + log[k + 1..n] + [log[n]];
  }

  lemma {:induction false} BatchInstantly(r: nat, ms: seq<Module>, log: seq<Entry>)
    requires Batch(r, ms, log)
    ensures NoClock(log)
    decreases |log|, 0
  {
    hide Performs;
    if ms != [] {
      var n := |log| - 1;
      var k := LastModule(r, ms, log);
      BatchInstantly(r, ms[..|ms| - 1], log[..k]);
      PerformsInstantly(On(r), log[k].script, log[k + 1..n]);
      assert log == log[..k] + [log[k]] + log[k + 1..n] + [log[n]];
    }
  }

  lemma LastModule(r: nat, ms: seq<Module>, log: seq<Entry>) returns (k: nat)
    requires Batch(r, ms, log) && ms != []
    ensures var n := |log| - 1;
            && n >= 0 && log[n].PutBack? && log[n].r == r && log[n].m == ms[|ms| - 1]
            && k < n && log[k].Processed? && log[k].r == r
            && Batch(r, ms[..|ms| - 1], log[..k]) && Performs(On(r), log[k].script, log[k + 1..n])
  {
    hide Performs;
    var n := |log| - 1;
    k :| 0 <= k < n && log[k].Processed? && log[k].r == r
      && Batch(r, ms[..|ms| - 1], log[..k]) && Performs(On(r), log[k].script, log[k + 1..n]);
  }

  lemma {:induction false} TasksInstantly(r: nat, log: seq<Entry>)
    requires Tasks(r, log)
    ensures NoClock(log)
    decreases |log|, 0
  {
    hide Performs, Tasks;
    if log != [] {
      var k := LastTask(r, log);
      TasksInstantly(r, log[..k]);
      PerformsInstantly(On(r), log[k].task.script, log[k + 1..]);
      assert log == log[..k] + [log[k]] + log[k + 1..];
    }
  }

  lemma {:induction false} TimeStands(now: int, log: seq<Entry>, i: nat, k: nat)
    requires i <= k <= |log| && NoClock(log[i..k])
    ensures TimeAfter(now, log[..k]) == TimeAfter(now, log[..i])
    decreases k
  {
    if i < k {
      assert log[i..k][..k - 1 - i] == log[i..k - 1] && log[i..k][k - 1 - i] == log[k - 1];
      assert log[..k][..k - 1] == log[..k - 1];
      TimeStands(now, log, i, k - 1);
    }
  }

  // ---------------------------------------------------------------- the history of a runner

  /** How many tasks of the runner the log takes. */
  function Pops(log: seq<Entry>, r: nat): nat {
    if log == [] then 0
    else Pops(log[..|log| - 1], r) + if log[|log| - 1].Popped? && log[|log| - 1].r == r then 1 else 0
  }

  /** The time after the log, if it begins at this one. */
  function TimeAfter(now: int, log: seq<Entry>): int {
    if log == [] then now
    else if log[|log| - 1].Clock? then log[|log| - 1].at
    else TimeAfter(now, log[..|log| - 1])
  }

  /** The histories grow by one task when it is taken, and by nothing else. */
  lemma DoHistory(c: Clients, m: Moment, e: Entry, n: Moment, r: nat)
    requires Do(c, m, e) == Some(n) && r < |m.world.rs|
    ensures |n.world.rs| == |m.world.rs| && n.world.now == if e.Clock? then e.at else m.world.now
    ensures if e.Popped? && e.r == r then
              && n.world.rs[r].ran == m.world.rs[r].ran + [e.task]
              && n.world.rs[r].ranAt == m.world.rs[r].ranAt + [m.world.now]
            else n.world.rs[r].ran == m.world.rs[r].ran && n.world.rs[r].ranAt == m.world.rs[r].ranAt
  {
    hide First, DueRunners, DueBuckets, UpperBound;
    if e.Did? {
      FirstIsQuiet(m.world, m.calls, c.untilNext, e.cur, e.action);
      FirstClock(m.world, m.calls, c.untilNext, e.cur, e.action);
      assert Rests(m.world.rs[r], n.world.rs[r]);
    }
  }

  lemma FirstClock(w: World, calls: nat, untilNext: nat -> nat, cur: Context, s: Script)
    requires Plain(s) && Calm(s) && First(w, calls, untilNext, cur, s).Ended?
    ensures First(w, calls, untilNext, cur, s).world.now == w.now
  {
    hide Apply;
  }

  /** The j-th task in the history of the runner was taken by the i-th entry of the log, at the time noted
      for it, and then run to its end before the k-th; meanwhile its runner did nothing else. */
  ghost predicate RunAt(a: World, w: World, log: seq<Entry>, r: nat, j: nat, i: nat, k: nat) {
    && r < |a.rs| && r < |w.rs| && j < |w.rs[r].ran| && j < |w.rs[r].ranAt| && i < k <= |log|
    && log[i] == Popped(r, w.rs[r].ran[j]) && w.rs[r].ranAt[j] == TimeAfter(a.now, log[..i])
    && j == |a.rs[r].ran| + Pops(log[..i], r)
    && Performs(On(r), w.rs[r].ran[j].script, log[i + 1..k]) && Spares(log[i + 1..k], {r})
  }

  /** That is so for every task that has joined a history between the two worlds. */
  ghost predicate AllRun(a: World, w: World, log: seq<Entry>) {
    && |w.rs| == |a.rs|
    && (forall r: nat | r < |a.rs| :: a.rs[r].ran <= w.rs[r].ran)
    && (forall r: nat, j: nat | r < |a.rs| && |a.rs[r].ran| <= j < |w.rs[r].ran| :: IsRun(a, w, log, r, j))
  }

  ghost predicate IsRun(a: World, w: World, log: seq<Entry>, r: nat, j: nat) {
    exists i: nat, k: nat :: RunAt(a, w, log, r, j, i, k)
  }

  /** The history after a log, and where its j-th entry was made. */
  lemma {:induction false} HistoryAfter(c: Clients, a: Moment, log: seq<Entry>, b: Moment, r: nat)
    requires Replay(c, a, log) == Some(b) && r < |a.world.rs| && |a.world.rs[r].ran| == |a.world.rs[r].ranAt|
    ensures |b.world.rs| == |a.world.rs| && b.world.now == TimeAfter(a.world.now, log)
    ensures var s, t := a.world.rs[r], b.world.rs[r];
            s.ran <= t.ran && |t.ran| == |t.ranAt| == |s.ran| + Pops(log, r)
    decreases |log|
  {
    hide Do;
    if log == [] {
    } else {
      var n := |log| - 1;
      var m := LastStep(c, a, log, b);
      HistoryAfter(c, a, log[..n], m, r);
      DoHistory(c, m, log[n], b, r);
    }
  }

  lemma LastStep(c: Clients, a: Moment, log: seq<Entry>, b: Moment) returns (m: Moment)
    requires log != [] && Replay(c, a, log) == Some(b)
    ensures Replay(c, a, log[..|log| - 1]) == Some(m) && Do(c, m, log[|log| - 1]) == Some(b)
  {
    hide Do;
    var n := |log| - 1;
    ReplaySplit(c, a, log, n);
    m := Replay(c, a, log[..n]).value;
    assert log[n..][0] == log[n] && log[n..][1..] == [];
  }

  lemma {:induction false} WhereTaken(c: Clients, a: Moment, log: seq<Entry>, b: Moment, r: nat, j: nat)
      returns (i: nat)
    requires Replay(c, a, log) == Some(b) && r < |a.world.rs| && |a.world.rs[r].ran| == |a.world.rs[r].ranAt|
    requires r < |b.world.rs| && |a.world.rs[r].ran| <= j < |b.world.rs[r].ran|
    ensures i < |log| && log[i] == Popped(r, b.world.rs[r].ran[j]) && j == |a.world.rs[r].ran| + Pops(log[..i], r)
    ensures j < |b.world.rs[r].ranAt| && b.world.rs[r].ranAt[j] == TimeAfter(a.world.now, log[..i])
    decreases |log|
  {
    hide Do;
    i := 0;
    if log == [] {
    } else {
      var n := |log| - 1;
      var m := LastStep(c, a, log, b);
      HistoryAfter(c, a, log[..n], m, r);
      DoHistory(c, m, log[n], b, r);
      if j < |m.world.rs[r].ran| {
        i := WhereTaken(c, a, log[..n], m, r, j);
        assert log[..n][..i] == log[..i];
      } else {
        i := n;
      }
    }
  }

  lemma HistoriesDated(w: World, frames: set<nat>)
    requires Inv(w, frames)
    ensures forall r: nat | r < |w.rs| :: |w.rs[r].ran| == |w.rs[r].ranAt|
  {
    hide Accounted, Agrees, BucketsSorted, NoneMoved, Ordered;
  }

  /** Whatever has joined a history during a story was performed. */
  lemma StoryRuns(c: Clients, a: Moment, log: seq<Entry>, b: Moment, frames: set<nat>)
    requires Story(c, a, log, b, frames)
    requires forall r: nat | r < |a.world.rs| :: |a.world.rs[r].ran| == |a.world.rs[r].ranAt|
    ensures AllRun(a.world, b.world, log)
  {
    hide Replay, Pops, TimeAfter, Performs, Spares;
    WorldSize(c, a, log, b);
    forall r: nat | r < |a.world.rs|
      ensures |b.world.rs| == |a.world.rs| && a.world.rs[r].ran <= b.world.rs[r].ran
    {
      HistoryAfter(c, a, log, b, r);
    }
    forall r: nat, j: nat | r < |a.world.rs| && |a.world.rs[r].ran| <= j < |b.world.rs[r].ran|
      ensures IsRun(a.world, b.world, log, r, j)
    {
      var i := WhereTaken(c, a, log, b, r, j);
      assert Runs(log, i);
      var k: nat :| i < k <= |log| && RunsFrom(log, i, k);
      assert RunAt(a.world, b.world, log, r, j, i, k);
    }
  }

  lemma {:induction false} WorldSize(c: Clients, a: Moment, log: seq<Entry>, b: Moment)
    requires Replay(c, a, log) == Some(b)
    ensures |b.world.rs| == |a.world.rs|
    decreases |log|
  {
    hide Do;
    if log == [] {
    } else {
      DoSize(c, a, log[0]);
      WorldSize(c, Do(c, a, log[0]).value, log[1..], b);
    }
  }

  lemma DoSize(c: Clients, a: Moment, e: Entry)
    requires Do(c, a, e).Some?
    ensures |Do(c, a, e).value.world.rs| == |a.world.rs|
  {
    hide First, DueRunners, TakeModules, Requeue, MoveDue, PopFront, Finish;
    if e.Did? {
      FirstIsQuiet(a.world, a.calls, c.untilNext, e.cur, e.action);
    }
  }

  /** The tasks of one runner never overlap: a task is over before the next one is taken. */
  lemma OneAfterTheOther(a: World, w: World, log: seq<Entry>, r: nat, j: nat, i: nat, k: nat,
        j': nat, i': nat, k': nat)
    requires RunAt(a, w, log, r, j, i, k) && RunAt(a, w, log, r, j', i', k') && j < j'
    ensures k <= i'
  {
    hide Performs, Spares;
    PopsGrow(log, i', i, r);
    SparesAll(log, i + 1, k, r);
  }

  lemma SparesAll(log: seq<Entry>, i: nat, k: nat, r: nat)
    requires i <= k <= |log| && Spares(log[i..k], {r})
    ensures forall x | i <= x < k && log[x].Popped? :: log[x].r != r
  {
    assert forall x | i <= x < k :: log[x] == log[i..k][x - i];
  }

  lemma {:induction false} PopsGrow(log: seq<Entry>, i: nat, k: nat, r: nat)
    requires i <= |log| && k <= |log|
    ensures i <= k ==> Pops(log[..i], r) <= Pops(log[..k], r)
    decreases k
  {
    if i < k {
      PopsGrow(log, i, k - 1, r);
      assert log[..k][..k - 1] == log[..k - 1];
    }
  }

  /** A delayed task that was pending and stands in the history at some time: it was taken at that time
      and run to its end. */
  lemma PendingWasRun(start: World, w: World, log: seq<Entry>, r: nat, e: Posted, at: int)
      returns (i: nat, k: nat)
    requires Inv(start, {}) && AllRun(start, w, log) && Pending(start, r, e) && Ran(w.rs[r], e, at)
    ensures i < k <= |log| && log[i] == Popped(r, e) && TimeAfter(start.now, log[..i]) == at
    ensures Performs(On(r), e.script, log[i + 1..k]) && Spares(log[i + 1..k], {r})
    ensures TimeAfter(start.now, log[..k]) == at
  {
    hide Performs, Spares, TimeAfter, Pops;
    var j :| 0 <= j < |w.rs[r].ran| && j < |w.rs[r].ranAt| && w.rs[r].ran[j] == e && w.rs[r].ranAt[j] == at;
    PendingNotRan(start, r, e);
    assert forall x | 0 <= x < |start.rs[r].ran| :: w.rs[r].ran[x] == start.rs[r].ran[x];
    assert IsRun(start, w, log, r, j);
    i, k :| RunAt(start, w, log, r, j, i, k);
    PerformsInstantly(On(r), e.script, log[i + 1..k]);
    assert log[i..k] == [log[i]] + log[i + 1..k];
    TimeStands(start.now, log, i, k);
  }

  /** Tasks on time: a pending task whose target the timer does not skip, and that is not excused, was taken exactly
      at its target and run to its end, at that time, while its runner did nothing else. */
  lemma TrackedWasRun(start: World, w: World, stop: int, log: seq<Entry>, r: nat, e: Posted) returns (i: nat, k: nat)
    requires Inv(start, {}) && AllRun(start, w, log) && TasksOnTime(start, w, stop) && Tracked(start, r, e, stop)
    requires r < |w.rs| && !Excused(w.rs[r], e, e.due)
    ensures i < k <= |log| && log[i] == Popped(r, e)
    ensures TimeAfter(start.now, log[..i]) == e.due == TimeAfter(start.now, log[..k])
    ensures Performs(On(r), e.script, log[i + 1..k]) && Spares(log[i + 1..k], {r})
  {
    hide Inv, AllRun, Performs, Spares, TimeAfter, Ran;
    i, k := PendingWasRun(start, w, log, r, e, e.due);
  }

  lemma PendingNotRan(start: World, r: nat, e: Posted)
    requires Inv(start, {}) && Pending(start, r, e)
    ensures e !in start.rs[r].ran
  {
    hide Accounted, Agrees, BucketsSorted, NoneMoved;
    var s := start.rs[r];
    assert Coherent(s, start.now) && Lane(s) == s.ran + s.queue + s.delayed;
    var y :| 0 <= y < |s.delayed| && s.delayed[y] == e;
    assert Lane(s)[|s.ran| + |s.queue| + y] == e;
    forall x | 0 <= x < |s.ran|
      ensures s.ran[x] != e
    {
      assert Lane(s)[x] == s.ran[x];
    }
  }
}
