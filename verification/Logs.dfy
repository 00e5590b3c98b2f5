/** What the scheduler does, entry by entry: each entry with its exact effect on the world, and which
    sequences of entries are the running of a script, of a task, of a module, or of a whole simulation. */
module Logs {
  import opened Timestamps
  import opened Scripts
  import opened RunnerStates
  import opened RunnerLaws
  import opened Worlds
  import opened WorldLaws
  import opened CalmScripts

  /** Something outside the scheduler that happens at a given time, such as a packet arriving: code that
      runs in the context of the main thread once there is one. `first` settles a tie with the timer. */
  datatype External = External(at: int, context: Context, script: Script, first: bool)

  /** What the n-th call of a module does, and how the n-th question to a module is answered. */
  datatype Clients = Clients(process: nat -> Script, untilNext: nat -> nat)

  /** The world, and how many calls and questions the modules have had. */
  datatype Moment = Moment(world: World, calls: nat)

  /** An action that lets nobody else run; the beginning and end of a message and of a yield; the steps of
      RunReadyRunners and RunReady; and what the simulator and the timer do. */
  datatype Entry =
    | Did(cur: Context, action: Script)
    | SendBegins(cur: Context, to: nat)
    | SendEnds(cur: Context, to: nat)
    | YieldBegins(cur: Context)
    | YieldEnds(cur: Context)
    | Cleared
    | Scanned
    | Picked(r: nat)
    | Entered(r: nat, batch: seq<Module>)
    | Processed(r: nat, script: Script)
    | PutBack(r: nat, m: Module, until: int)
    | MovedDue(r: nat)
    | Popped(r: nat, task: Posted)
    | Left(r: nat)
    | Clock(at: int)
    | Timer(t: Option<int>)

  // ---------------------------------------------------------------- the effect of an entry

  predicate Plain(s: Script) {
    s.Post? || s.PostDelayed? || s.Create? || s.Delete? || s.Control?
  }

  /** The first action of a script, alone. */
  function Head(s: Script): (h: Script)
    requires Plain(s)
    ensures Plain(h) && h.next == Return && Calm(h)
  {
    if s.Post? then Post(s.to, s.task, Return)
    else if s.PostDelayed? then PostDelayed(s.to, s.ms, s.task, Return)
    else if s.Create? then Create(s.id, Return)
    else if s.Delete? then Delete(s.id, Return)
    else Control(s.to, s.op, Return)
  }

  /** What one entry does to the world; None where it could not have happened. */
  function Do(c: Clients, m: Moment, e: Entry): Option<Moment> {
    var w := m.world;
    match e
    case Did(cur, a) => DoAction(c, m, cur, a)
    case SendBegins(cur, to) =>
      if !Registered(w, to) then None
      else if cur == On(to) then Some(m)
      else if cur in w.yielded then None
      else Some(m.(world := Suspended(w, cur)))
    case SendEnds(cur, to) => if cur == On(to) then Some(m) else Some(m.(world := Continued(w, cur)))
    case YieldBegins(cur) => if cur in w.yielded then None else Some(m.(world := Suspended(w, cur)))
    case YieldEnds(cur) => Some(m.(world := Continued(w, cur)))
    case Cleared => Some(m.(world := w.(ready := [])))
    case Scanned => if w.ready == [] then Some(m.(world := w.(ready := DueRunners(w, w.runners)))) else None
    case Picked(r) =>
      if w.ready != [] && w.ready[0] == r then Some(m.(world := w.(ready := w.ready[1..]))) else None
    case Clock(at) => if w.now <= at then Some(m.(world := w.(now := at))) else None
    case Timer(t) => Some(m.(world := w.(timer := t)))
    case Entered(_, _) | Processed(_, _) | PutBack(_, _, _) | MovedDue(_) | Popped(_, _) | Left(_) => DoTurn(c, m, e)
  }

  function Continued(w: World, cur: Context): World {
    w.(yielded := w.yielded - {cur})
  }

  function DoAction(c: Clients, m: Moment, cur: Context, a: Script): Option<Moment> {
    if Plain(a) && Calm(a) then
      match First(m.world, m.calls, c.untilNext, cur, a)
      case Ended(v, calls) => Some(Moment(v, calls))
      case CheckFails | Breaks => None
    else None
  }

  /** The steps of RunReady of one runner. */
  predicate OfTurn(e: Entry) {
    e.Entered? || e.Processed? || e.PutBack? || e.MovedDue? || e.Popped? || e.Left?
  }

  function DoTurn(c: Clients, m: Moment, e: Entry): Option<Moment>
    requires OfTurn(e)
  {
    var w, r := m.world, e.r;
    if r >= |w.rs| then None
    else
      var s := w.rs[r];
      match e
      case Entered(_, batch) =>
        var t := TakeModules(Enter(s), w.now);
        if t.inFlight == batch then Some(m.(world := With(w, r, t))) else None
      case Processed(_, script) =>
        if s.inFlight != [] && script == c.process(m.calls) then Some(m.(calls := m.calls + 1)) else None
      case PutBack(_, x, until) =>
        if s.inFlight != [] && s.inFlight[0] == x && until == w.now + 1000 * c.untilNext(m.calls)
        then Some(Moment(With(w, r, Requeue(s, until)), m.calls + 1)) else None
      case MovedDue(_) => Some(m.(world := With(w, r, MoveDue(s, w.now))))
      case Popped(_, task) =>
        if s.queue != [] && s.queue[0] == task then Some(m.(world := With(w, r, PopFront(s, w.now)))) else None
      case Left(_) => if s.activations > 0 then Some(m.(world := With(w, r, Finish(s)))) else None
  }

  function Replay(c: Clients, m: Moment, log: seq<Entry>): Option<Moment>
    decreases |log|
  {
    if log == [] then Some(m)
    else
      match Do(c, m, log[0])
      case None => None
      case Some(n) => Replay(c, n, log[1..])
  }

  lemma {:induction false} ReplayConcat(c: Clients, m: Moment, a: seq<Entry>, n: Moment, b: seq<Entry>)
    requires Replay(c, m, a) == Some(n)
    ensures Replay(c, m, a + b) == Replay(c, n, b)
    decreases |a|
  {
    hide Do;
    if a == [] {
      assert a + b == b;
    } else {
      assert (a + b)[1..] == a[1..] + b;
      ReplayConcat(c, Do(c, m, a[0]).value, a[1..], n, b);
    }
  }

  // ---------------------------------------------------------------- what a log is the running of

  /** The actions of the script, in order, each done or, for a message or a yield, begun and ended with
      the handler or the rounds of the other runners in between. */
  ghost predicate Performs(cur: Context, s: Script, log: seq<Entry>)
    decreases |log|, 0
  {
    match s
    case Return => log == []
    case Post(_, _, next) => log != [] && log[0] == Did(cur, Head(s)) && Performs(cur, next, log[1..])
    case PostDelayed(_, _, _, next) => log != [] && log[0] == Did(cur, Head(s)) && Performs(cur, next, log[1..])
    case Create(_, next) => log != [] && log[0] == Did(cur, Head(s)) && Performs(cur, next, log[1..])
    case Delete(_, next) => log != [] && log[0] == Did(cur, Head(s)) && Performs(cur, next, log[1..])
    case Control(_, _, next) => log != [] && log[0] == Did(cur, Head(s)) && Performs(cur, next, log[1..])
    case Send(to, handler, next) =>
      exists k ::
        && 1 <= k < |log| && log[0] == SendBegins(cur, to) && log[k] == SendEnds(cur, to)
        && Performs(On(to), handler, log[1..k]) && Performs(cur, next, log[k + 1..])
    case Yield(next) =>
      exists k ::
        && 1 <= k < |log| && log[0] == YieldBegins(cur) && log[k] == YieldEnds(cur)
        && Rounds(log[1..k]) && Performs(cur, next, log[k + 1..])
  }

  /** RunReadyRunners: the ready list is cleared, then scans and turns, the last a scan. */
  ghost predicate Rounds(log: seq<Entry>)
    decreases |log|, 3
  {
    |log| >= 2 && log[0] == Cleared && log[|log| - 1] == Scanned && Passes(log[1..])
  }

  ghost predicate Passes(log: seq<Entry>)
    decreases |log|, 2
  {
    || log == []
    || (log[|log| - 1] == Scanned && Passes(log[..|log| - 1]))
    || exists k ::
         && 0 <= k < |log| && log[k].Picked? && Passes(log[..k])
         && Turn(log[k + 1..]) && log[k + 1].r == log[k].r
  }

  /** RunReady of one runner: its due modules, then its due and ready tasks. */
  ghost predicate Turn(log: seq<Entry>)
    decreases |log|, 1
    ensures Turn(log) ==> |log| >= 3 && log[0].Entered?
  {
    && |log| >= 3 && log[0].Entered? && log[|log| - 1] == Left(log[0].r)
    && exists k ::
         && 1 <= k < |log| - 1 && log[k] == MovedDue(log[0].r)
         && Batch(log[0].r, log[0].batch, log[1..k]) && Tasks(log[0].r, log[k + 1..|log| - 1])
  }

  /** Process() of each module, after which it is put back. */
  ghost predicate Batch(r: nat, ms: seq<Module>, log: seq<Entry>)
    decreases |log|, 0
  {
    if ms == [] then log == []
    else
      var n := |ms| - 1;
      && log != [] && log[|log| - 1].PutBack? && log[|log| - 1].r == r && log[|log| - 1].m == ms[n]
      && exists k ::
           && 0 <= k < |log| - 1 && log[k].Processed? && log[k].r == r
           && Batch(r, ms[..n], log[..k]) && Performs(On(r), log[k].script, log[k + 1..|log| - 1])
  }

  /** Each task taken from the front of the queue and run, the next one after the end of the last. */
  ghost predicate Tasks(r: nat, log: seq<Entry>)
    decreases |log|, 0
  {
    || log == []
    || exists k ::
         && 0 <= k < |log| && log[k].Popped? && log[k].r == r
         && Tasks(r, log[..k]) && Performs(On(r), log[k].task.script, log[k + 1..])
  }

  /** One firing of the timer. */
  ghost predicate Firing(log: seq<Entry>) {
    && |log| >= 4 && log[0].Clock? && log[1] == Timer(None) && log[|log| - 1].Timer?
    && Rounds(log[2..|log| - 1])
  }

  /** A simulation in which the first n outside events have happened. */
  ghost predicate Simulates(events: seq<External>, n: nat, log: seq<Entry>)
    requires n <= |events|
    decreases |log|
  {
    || (n == 0 && log == [])
    || (n > 0 && exists k ::
          && 0 <= k < |log| && log[k] == Clock(events[n - 1].at)
          && Simulates(events, n - 1, log[..k])
          && Performs(events[n - 1].context, events[n - 1].script, log[k + 1..]))
    || exists k :: 0 <= k < |log| && log[k].Clock? && Simulates(events, n, log[..k]) && Firing(log[k..])
  }

  // ---------------------------------------------------------------- everything taken is run

  /** No step of RunReady of these runners. */
  ghost predicate Spares(log: seq<Entry>, frames: set<nat>) {
    forall i | 0 <= i < |log| && OfTurn(log[i]) :: log[i].r !in frames
  }

  /** The task, module or batch that the i-th entry takes is run right after it, to its end, and meanwhile
      its runner does nothing else. */
  ghost predicate RunsFrom(log: seq<Entry>, i: nat, k: nat)
    requires i < k <= |log|
  {
    match log[i]
    case Popped(r, task) => Performs(On(r), task.script, log[i + 1..k]) && Spares(log[i + 1..k], {r})
    case Processed(r, script) =>
      && Performs(On(r), script, log[i + 1..k]) && Spares(log[i + 1..k], {r})
      && k < |log| && log[k].PutBack? && log[k].r == r
    case Entered(r, batch) => Batch(r, batch, log[i + 1..k])
    case _ => true
  }

  ghost predicate Runs(log: seq<Entry>, i: nat)
    requires i < |log|
  {
    exists k: nat :: i < k <= |log| && RunsFrom(log, i, k)
  }

  ghost predicate Executed(log: seq<Entry>) {
    forall i: nat | i < |log| :: Runs(log, i)
  }

  lemma RunsFromLater(a: seq<Entry>, b: seq<Entry>, i: nat, k: nat)
    requires i < k <= |a| && RunsFrom(a, i, k)
    ensures RunsFrom(a + b, i, k)
  {
    hide Performs, Batch, Spares;
    assert (a + b)[i + 1..k] == a[i + 1..k] && (a + b)[i] == a[i];
  }

  lemma RunsFromShifted(a: seq<Entry>, b: seq<Entry>, i: nat, k: nat)
    requires i < k <= |b| && RunsFrom(b, i, k)
    ensures RunsFrom(a + b, |a| + i, |a| + k)
  {
    hide Performs, Batch, Spares;
    assert (a + b)[|a| + i + 1..|a| + k] == b[i + 1..k] && (a + b)[|a| + i] == b[i];
    assert k < |b| ==> (a + b)[|a| + k] == b[k];
  }

  lemma ExecutedConcat(a: seq<Entry>, b: seq<Entry>)
    requires Executed(a) && Executed(b)
    ensures Executed(a + b)
  {
    hide RunsFrom;
    forall i: nat | i < |a + b|
      ensures Runs(a + b, i)
    {
      if i < |a| {
        assert Runs(a, i);
        var k: nat :| i < k <= |a| && RunsFrom(a, i, k);
        RunsFromLater(a, b, i, k);
      } else {
        var j := i - |a|;
        assert Runs(b, j);
        var k: nat :| j < k <= |b| && RunsFrom(b, j, k);
        RunsFromShifted(a, b, j, k);
      }
    }
  }

  /** One entry more in front, run by what follows. */
  lemma ExecutedFront(e: Entry, b: seq<Entry>, k: nat)
    requires Executed(b) && 0 < k <= |b| + 1 && RunsFrom([e] + b, 0, k)
    ensures Executed([e] + b)
  {
    hide RunsFrom;
    forall i: nat | i < |[e] + b|
      ensures Runs([e] + b, i)
    {
      if i > 0 {
        var j := i - 1;
        assert Runs(b, j);
        var l: nat :| j < l <= |b| && RunsFrom(b, j, l);
        RunsFromShifted([e], b, j, l);
      }
    }
  }

  lemma ExecutedOne(e: Entry)
    requires !e.Popped? && !e.Processed? && !e.Entered?
    ensures Executed([e])
  {
    assert RunsFrom([e], 0, 1);
  }

  // ---------------------------------------------------------------- stories

  /** From one moment to another by this log, in which everything taken is run, and no step of RunReady
      of the runners in `frames` occurs. */
  ghost predicate Story(c: Clients, a: Moment, log: seq<Entry>, b: Moment, frames: set<nat>) {
    Replay(c, a, log) == Some(b) && Executed(log) && Spares(log, frames)
  }

  lemma StoryNothing(c: Clients, a: Moment, frames: set<nat>)
    ensures Story(c, a, [], a, frames)
  {
  }

  lemma StoryTrans(c: Clients, a: Moment, l: seq<Entry>, b: Moment, k: seq<Entry>, d: Moment, frames: set<nat>)
    requires Story(c, a, l, b, frames) && Story(c, b, k, d, frames)
    ensures Story(c, a, l + k, d, frames)
  {
    hide Replay, Executed;
    ReplayConcat(c, a, l, b, k);
    ExecutedConcat(l, k);
  }

  lemma StoryFewer(c: Clients, a: Moment, l: seq<Entry>, b: Moment, frames: set<nat>, fewer: set<nat>)
    requires Story(c, a, l, b, frames) && fewer <= frames
    ensures Story(c, a, l, b, fewer)
  {
    hide Replay, Executed;
  }

  lemma StoryOne(c: Clients, a: Moment, e: Entry, b: Moment, frames: set<nat>)
    requires Do(c, a, e) == Some(b) && !e.Popped? && !e.Processed? && !e.Entered?
    requires OfTurn(e) ==> e.r !in frames
    ensures Story(c, a, [e], b, frames)
  {
    hide Do, Executed;
    ExecutedOne(e);
    ReplayOne(c, a, e, b);
  }

  lemma ReplayOne(c: Clients, a: Moment, e: Entry, b: Moment)
    requires Do(c, a, e) == Some(b)
    ensures Replay(c, a, [e]) == Some(b)
  {
    hide Do;
    assert [e][1..] == [];
    assert Replay(c, b, []) == Some(b);
  }

  lemma ReplayFront(c: Clients, a: Moment, e: Entry, b: Moment, l: seq<Entry>)
    requires Do(c, a, e) == Some(b)
    ensures Replay(c, a, [e] + l) == Replay(c, b, l)
  {
    hide Do;
    assert ([e] + l)[1..] == l;
  }

  /** Before and after: an entry, something, another entry. */
  lemma StoryAround(c: Clients, a: Moment, e: Entry, b: Moment, l: seq<Entry>, d: Moment, f: Entry, x: Moment,
        frames: set<nat>)
    requires Do(c, a, e) == Some(b) && Story(c, b, l, d, frames) && Do(c, d, f) == Some(x)
    requires !OfTurn(e) && !OfTurn(f)
    ensures Story(c, a, [e] + l + [f], x, frames)
  {
    hide Do, Story;
    StoryOne(c, a, e, b, frames);
    StoryOne(c, d, f, x, frames);
    StoryTrans(c, a, [e], b, l, d, frames);
    StoryTrans(c, a, [e] + l, d, [f], x, frames);
  }

  /** A task taken and run. */
  lemma StoryTask(c: Clients, a: Moment, r: nat, task: Posted, b: Moment, l: seq<Entry>, d: Moment, frames: set<nat>)
    requires Do(c, a, Popped(r, task)) == Some(b) && Story(c, b, l, d, frames) && r in frames
    requires Performs(On(r), task.script, l)
    ensures Story(c, a, [Popped(r, task)] + l, d, frames - {r})
  {
    hide Do, Performs, Executed, Replay;
    var log := [Popped(r, task)] + l;
    assert log[1..|l| + 1] == l;
    assert Spares(l, {r});
    assert RunsFrom(log, 0, |l| + 1);
    ExecutedFront(Popped(r, task), l, |l| + 1);
    ReplayFront(c, a, Popped(r, task), b, l);
  }

  /** A module processed and put back. */
  lemma StoryModule(c: Clients, a: Moment, r: nat, script: Script, b: Moment, l: seq<Entry>, d: Moment,
        m: Module, until: int, x: Moment, frames: set<nat>)
    requires Do(c, a, Processed(r, script)) == Some(b) && Story(c, b, l, d, frames) && r in frames
    requires Do(c, d, PutBack(r, m, until)) == Some(x) && Performs(On(r), script, l)
    ensures Story(c, a, [Processed(r, script)] + (l + [PutBack(r, m, until)]), x, frames - {r})
  {
    hide Do, Performs, Executed, Replay;
    var back := PutBack(r, m, until);
    var tail := l + [back];
    var log := [Processed(r, script)] + tail;
    assert log[1..|l| + 1] == l && log[|l| + 1] == back;
    assert Spares(l, {r});
    assert RunsFrom(log, 0, |l| + 1);
    ExecutedOne(back);
    ExecutedConcat(l, [back]);
    ExecutedFront(Processed(r, script), tail, |l| + 1);
    ReplayOne(c, d, back, x);
    ReplayConcat(c, b, l, d, [back]);
    ReplayFront(c, a, Processed(r, script), b, tail);
  }

  /** A batch taken and processed. */
  lemma StoryBatch(c: Clients, a: Moment, r: nat, batch: seq<Module>, b: Moment, l: seq<Entry>, d: Moment,
        frames: set<nat>)
    requires Do(c, a, Entered(r, batch)) == Some(b) && Story(c, b, l, d, frames) && r !in frames
    requires Batch(r, batch, l)
    ensures Story(c, a, [Entered(r, batch)] + l, d, frames)
  {
    hide Do, Batch, Executed, Replay;
    var log := [Entered(r, batch)] + l;
    assert log[1..|l| + 1] == l;
    assert RunsFrom(log, 0, |l| + 1);
    ExecutedFront(Entered(r, batch), l, |l| + 1);
    ReplayFront(c, a, Entered(r, batch), b, l);
  }

  // ---------------------------------------------------------------- how logs are put together

  lemma PerformsPlain(cur: Context, s: Script, rest: seq<Entry>)
    requires Plain(s) && Performs(cur, s.next, rest)
    ensures Performs(cur, s, [Did(cur, Head(s))] + rest)
  {
    assert ([Did(cur, Head(s))] + rest)[1..] == rest;
  }

  /** The first action of a script that is not plain, alone. */
  ghost predicate PerformsFirst(cur: Context, s: Script, log: seq<Entry>)
    requires !s.Return?
  {
    if s.Send? then
      |log| >= 2 && log[0] == SendBegins(cur, s.to) && log[|log| - 1] == SendEnds(cur, s.to)
      && Performs(On(s.to), s.handler, log[1..|log| - 1])
    else if s.Yield? then
      |log| >= 2 && log[0] == YieldBegins(cur) && log[|log| - 1] == YieldEnds(cur) && Rounds(log[1..|log| - 1])
    else log == [Did(cur, Head(s))]
  }

  lemma PerformsThen(cur: Context, s: Script, first: seq<Entry>, rest: seq<Entry>)
    requires !s.Return? && PerformsFirst(cur, s, first) && Performs(cur, s.next, rest)
    ensures Performs(cur, s, first + rest)
  {
    var log, k := first + rest, |first| - 1;
    hide Rounds;
    assert log[k + 1..] == rest;
    if s.Send? || s.Yield? {
      assert log[1..k] == first[1..k] && log[k] == first[k];
    } else {
      PerformsPlain(cur, s, rest);
    }
  }

  lemma AroundIsFirst(e: Entry, l: seq<Entry>, f: Entry)
    ensures var log := [e] + l + [f];
            |log| >= 2 && log[0] == e && log[|log| - 1] == f && log[1..|log| - 1] == l
  {
  }

  lemma PassesScan(log: seq<Entry>)
    requires Passes(log)
    ensures Passes(log + [Scanned])
  {
    assert (log + [Scanned])[..|log|] == log;
  }

  lemma PassesTurn(log: seq<Entry>, turn: seq<Entry>)
    requires Passes(log) && Turn(turn)
    ensures Passes(log + ([Picked(turn[0].r)] + turn))
  {
    hide Turn;
    var all, k := log + ([Picked(turn[0].r)] + turn), |log|;
    assert all[..k] == log && all[k] == Picked(turn[0].r) && all[k + 1..] == turn;
  }

  lemma PassesNothing()
    ensures Passes([])
  {
  }

  lemma RoundsMade(passes: seq<Entry>)
    requires Passes(passes)
    ensures Rounds([Cleared] + (passes + [Scanned]))
  {
    PassesScan(passes);
    hide Passes;
    assert ([Cleared] + (passes + [Scanned]))[1..] == passes + [Scanned];
  }

  /** The two parts of RunReady. */
  ghost predicate ModulePart(r: nat, log: seq<Entry>) {
    log != [] && log[0].Entered? && log[0].r == r && Batch(r, log[0].batch, log[1..])
  }

  ghost predicate TaskPart(r: nat, log: seq<Entry>) {
    log != [] && log[0] == MovedDue(r) && Tasks(r, log[1..])
  }

  lemma TurnMade(r: nat, modules: seq<Entry>, tasks: seq<Entry>)
    requires ModulePart(r, modules) && TaskPart(r, tasks)
    ensures Turn(modules + tasks + [Left(r)]) && (modules + tasks + [Left(r)])[0].r == r
  {
    hide Batch, Tasks;
    var log := modules + tasks + [Left(r)];
    var k := |modules|;
    assert log[1..k] == modules[1..] && log[k] == MovedDue(r) && log[k + 1..|log| - 1] == tasks[1..];
  }

  /** A module's Process() and what follows it. */
  ghost predicate ModuleLog(r: nat, m: Module, script: Script, log: seq<Entry>) {
    && |log| >= 2 && log[0] == Processed(r, script)
    && log[|log| - 1].PutBack? && log[|log| - 1].r == r && log[|log| - 1].m == m
    && Performs(On(r), script, log[1..|log| - 1])
  }

  lemma ModuleLogMade(r: nat, m: Module, script: Script, l: seq<Entry>, until: int)
    requires Performs(On(r), script, l)
    ensures ModuleLog(r, m, script, [Processed(r, script)] + (l + [PutBack(r, m, until)]))
  {
    hide Performs;
    Pieces([], Processed(r, script), l, PutBack(r, m, until));
    var log := [Processed(r, script)] + (l + [PutBack(r, m, until)]);
    assert [] + log == log;
  }

  lemma StoryProcessed(c: Clients, a: Moment, r: nat, script: Script, l: seq<Entry>, d: Moment, m: Module,
        until: int, x: Moment, frames: set<nat>)
    requires Do(c, a, Processed(r, script)) == Some(Moment(a.world, a.calls + 1))
    requires Story(c, Moment(a.world, a.calls + 1), l, d, frames) && r in frames
    requires Do(c, d, PutBack(r, m, until)) == Some(x) && Performs(On(r), script, l)
    ensures var log := [Processed(r, script)] + (l + [PutBack(r, m, until)]);
            Story(c, a, log, x, frames - {r}) && ModuleLog(r, m, script, log)
  {
    hide Do, Performs, Story, ModuleLog;
    StoryModule(c, a, r, script, Moment(a.world, a.calls + 1), l, d, m, until, x, frames);
    ModuleLogMade(r, m, script, l, until);
  }

  lemma BatchGrows(r: nat, ms: seq<Module>, log: seq<Entry>, m: Module, script: Script, l: seq<Entry>)
    requires Batch(r, ms, log) && ModuleLog(r, m, script, l)
    ensures Batch(r, ms + [m], log + l)
  {
    hide Performs;
    var until, inner := l[|l| - 1].until, l[1..|l| - 1];
    assert l == [Processed(r, script)] + (inner + [PutBack(r, m, until)]);
    BatchAnother(r, ms, log, m, script, inner, until);
  }

  /** A batch, and one module more. */
  lemma BatchStory(c: Clients, a: Moment, log: seq<Entry>, b: Moment, one: seq<Entry>, d: Moment, frames: set<nat>,
        r: nat, ms: seq<Module>, m: Module, script: Script)
    requires Story(c, a, log, b, frames) && Batch(r, ms, log)
    requires Story(c, b, one, d, frames) && ModuleLog(r, m, script, one)
    ensures Story(c, a, log + one, d, frames) && Batch(r, ms + [m], log + one)
  {
    hide Story, Batch, ModuleLog;
    StoryTrans(c, a, log, b, one, d, frames);
    BatchGrows(r, ms, log, m, script, one);
  }

  lemma BatchNothing(r: nat)
    ensures Batch(r, [], []) && Tasks(r, [])
  {
  }

  lemma BatchAnother(r: nat, ms: seq<Module>, log: seq<Entry>, m: Module, script: Script, l: seq<Entry>, until: int)
    requires Batch(r, ms, log) && Performs(On(r), script, l)
    ensures Batch(r, ms + [m], log + ([Processed(r, script)] + (l + [PutBack(r, m, until)])))
  {
    hide Performs, Batch;
    var all := log + ([Processed(r, script)] + (l + [PutBack(r, m, until)]));
    Pieces(log, Processed(r, script), l, PutBack(r, m, until));
    assert (ms + [m])[..|ms|] == ms;
    BatchEnds(r, ms + [m], all, |log|);
  }

  lemma BatchEnds(r: nat, ms: seq<Module>, log: seq<Entry>, k: nat)
    requires ms != [] && k < |log| - 1
    requires log[|log| - 1].PutBack? && log[|log| - 1].r == r && log[|log| - 1].m == ms[|ms| - 1]
    requires log[k].Processed? && log[k].r == r
    requires Batch(r, ms[..|ms| - 1], log[..k]) && Performs(On(r), log[k].script, log[k + 1..|log| - 1])
    ensures Batch(r, ms, log)
  {
    hide Performs;
  }

  lemma Pieces(log: seq<Entry>, e: Entry, l: seq<Entry>, f: Entry)
    ensures var all := log + ([e] + (l + [f]));
            && |all| == |log| + |l| + 2
            && all[..|log|] == log && all[|log|] == e && all[|log| + 1..|all| - 1] == l && all[|all| - 1] == f
  {
  }

  lemma TasksAnother(r: nat, log: seq<Entry>, task: Posted, l: seq<Entry>)
    requires Tasks(r, log) && Performs(On(r), task.script, l)
    ensures Tasks(r, log + ([Popped(r, task)] + l))
  {
    hide Performs, Tasks;
    TwoPieces(log, Popped(r, task), l);
    TasksEnd(r, log + ([Popped(r, task)] + l), |log|);
  }

  lemma TasksEnd(r: nat, log: seq<Entry>, k: nat)
    requires k < |log| && log[k].Popped? && log[k].r == r
    requires Tasks(r, log[..k]) && Performs(On(r), log[k].task.script, log[k + 1..])
    ensures Tasks(r, log)
  {
    hide Performs;
  }

  lemma TwoPieces(log: seq<Entry>, e: Entry, l: seq<Entry>)
    ensures var all := log + ([e] + l);
            |all| == |log| + |l| + 1 && all[..|log|] == log && all[|log|] == e && all[|log| + 1..] == l
  {
  }

  lemma FiringMade(at: int, rounds: seq<Entry>, t: Option<int>)
    requires Rounds(rounds)
    ensures Firing([Clock(at)] + ([Timer(None)] + (rounds + [Timer(t)])))
  {
    hide Passes;
    var log := [Clock(at)] + ([Timer(None)] + (rounds + [Timer(t)]));
    assert log[2..|log| - 1] == rounds;
  }

  lemma SimulatesOutside(events: seq<External>, n: nat, log: seq<Entry>, l: seq<Entry>)
    requires n < |events| && Simulates(events, n, log)
    requires Performs(events[n].context, events[n].script, l)
    ensures Simulates(events, n + 1, log + ([Clock(events[n].at)] + l))
  {
    hide Performs, Firing;
    var all := log + ([Clock(events[n].at)] + l);
    var k := |log|;
    assert all[..k] == log && all[k] == Clock(events[n].at) && all[k + 1..] == l;
  }

  lemma SimulatesFiring(events: seq<External>, n: nat, log: seq<Entry>, firing: seq<Entry>)
    requires n <= |events| && Simulates(events, n, log) && Firing(firing)
    ensures Simulates(events, n, log + firing)
  {
    hide Performs, Rounds;
    var all := log + firing;
    var k := |log|;
    assert all[..k] == log && all[k..] == firing && all[k].Clock?;
  }

  /** For the first action it does not matter what comes after it. */
  lemma FirstOfHead(w: World, calls: nat, untilNext: nat -> nat, cur: Context, s: Script)
    requires Plain(s) && Calm(s)
    ensures First(w, calls, untilNext, cur, s) == First(w, calls, untilNext, cur, Head(s))
  {
    hide Apply;
  }

  lemma StoryDid(c: Clients, a: Moment, cur: Context, s: Script, b: Moment, frames: set<nat>)
    requires Plain(s) && First(a.world, a.calls, c.untilNext, cur, Head(s)) == Ended(b.world, b.calls)
    ensures Story(c, a, [Did(cur, Head(s))], b, frames) && PerformsFirst(cur, s, [Did(cur, Head(s))])
  {
    hide First, Story;
    StoryOne(c, a, Did(cur, Head(s)), b, frames);
  }

  /** An entry in front that is not a step of RunReady. */
  lemma StoryFront(c: Clients, a: Moment, e: Entry, b: Moment, l: seq<Entry>, d: Moment, frames: set<nat>)
    requires Do(c, a, e) == Some(b) && Story(c, b, l, d, frames) && !OfTurn(e)
    ensures Story(c, a, [e] + l, d, frames)
  {
    hide Do, Story;
    StoryOne(c, a, e, b, frames);
    StoryTrans(c, a, [e], b, l, d, frames);
  }

  lemma StoryBack(c: Clients, a: Moment, l: seq<Entry>, b: Moment, e: Entry, d: Moment, frames: set<nat>)
    requires Story(c, a, l, b, frames) && Do(c, b, e) == Some(d)
    requires !e.Popped? && !e.Processed? && !e.Entered? && (OfTurn(e) ==> e.r !in frames)
    ensures Story(c, a, l + [e], d, frames)
  {
    hide Do, Story;
    StoryOne(c, b, e, d, frames);
    StoryTrans(c, a, l, b, [e], d, frames);
  }

  // ---------------------------------------------------------------- the entries of one runner's turn

  lemma DoEntered(c: Clients, m: Moment, r: nat)
    requires r < |m.world.rs|
    ensures var t := TakeModules(Enter(m.world.rs[r]), m.world.now);
            Do(c, m, Entered(r, t.inFlight)) == Some(Moment(With(m.world, r, t), m.calls))
  {
  }

  lemma DoProcessed(c: Clients, m: Moment, r: nat)
    requires r < |m.world.rs| && m.world.rs[r].inFlight != []
    ensures Do(c, m, Processed(r, c.process(m.calls))) == Some(Moment(m.world, m.calls + 1))
  {
  }

  lemma DoPutBack(c: Clients, m: Moment, r: nat)
    requires r < |m.world.rs| && m.world.rs[r].inFlight != []
    ensures var s, until := m.world.rs[r], m.world.now + 1000 * c.untilNext(m.calls);
            Do(c, m, PutBack(r, s.inFlight[0], until))
            == Some(Moment(With(m.world, r, Requeue(s, until)), m.calls + 1))
  {
  }

  lemma DoMovedDue(c: Clients, m: Moment, r: nat)
    requires r < |m.world.rs|
    ensures Do(c, m, MovedDue(r)) == Some(Moment(With(m.world, r, MoveDue(m.world.rs[r], m.world.now)), m.calls))
  {
  }

  lemma DoPopped(c: Clients, m: Moment, r: nat)
    requires r < |m.world.rs| && m.world.rs[r].queue != []
    ensures Do(c, m, Popped(r, m.world.rs[r].queue[0]))
         == Some(Moment(With(m.world, r, PopFront(m.world.rs[r], m.world.now)), m.calls))
  {
  }

  lemma DoLeft(c: Clients, m: Moment, r: nat)
    requires r < |m.world.rs| && m.world.rs[r].activations > 0
    ensures Do(c, m, Left(r)) == Some(Moment(With(m.world, r, Finish(m.world.rs[r])), m.calls))
  {
  }

  // ---------------------------------------------------------------- yields, messages, lists and the timer

  lemma DoYield(c: Clients, m: Moment, n: Moment, cur: Context)
    requires cur !in m.world.yielded
    ensures Do(c, m, YieldBegins(cur)) == Some(Moment(Suspended(m.world, cur), m.calls))
    ensures Do(c, n, YieldEnds(cur)) == Some(Moment(Continued(n.world, cur), n.calls))
  {
  }

  lemma DoSend(c: Clients, m: Moment, n: Moment, cur: Context, to: nat)
    requires Registered(m.world, to) && (cur == On(to) || cur !in m.world.yielded)
    ensures Do(c, m, SendBegins(cur, to))
         == Some(if cur == On(to) then m else Moment(Suspended(m.world, cur), m.calls))
    ensures Do(c, n, SendEnds(cur, to))
         == Some(if cur == On(to) then n else Moment(Continued(n.world, cur), n.calls))
  {
  }

  lemma DoLists(c: Clients, m: Moment)
    ensures Do(c, m, Cleared) == Some(Moment(m.world.(ready := []), m.calls))
    ensures m.world.ready == [] ==>
              Do(c, m, Scanned) == Some(Moment(m.world.(ready := DueRunners(m.world, m.world.runners)), m.calls))
    ensures m.world.ready != [] ==>
              Do(c, m, Picked(m.world.ready[0])) == Some(Moment(m.world.(ready := m.world.ready[1..]), m.calls))
  {
  }

  lemma DoClock(c: Clients, m: Moment, at: int, t: Option<int>)
    ensures m.world.now <= at ==> Do(c, m, Clock(at)) == Some(Moment(m.world.(now := at), m.calls))
    ensures Do(c, m, Timer(t)) == Some(Moment(m.world.(timer := t), m.calls))
  {
  }

  lemma PerformsNothing(cur: Context)
    ensures Performs(cur, Return, [])
  {
  }

  lemma YieldIsFirst(cur: Context, s: Script, rounds: seq<Entry>)
    requires s.Yield? && Rounds(rounds)
    ensures PerformsFirst(cur, s, [YieldBegins(cur)] + rounds + [YieldEnds(cur)])
  {
    hide Rounds;
    AroundIsFirst(YieldBegins(cur), rounds, YieldEnds(cur));
  }

  lemma SendIsFirst(cur: Context, s: Script, l: seq<Entry>)
    requires s.Send? && Performs(On(s.to), s.handler, l)
    ensures PerformsFirst(cur, s, [SendBegins(cur, s.to)] + l + [SendEnds(cur, s.to)])
  {
    hide Performs;
    AroundIsFirst(SendBegins(cur, s.to), l, SendEnds(cur, s.to));
  }

  /** A message within one thread. */
  lemma SentWithin(c: Clients, a: Moment, d: Moment, cur: Context, s: Script, l: seq<Entry>, frames: set<nat>)
    requires s.Send? && cur == On(s.to) && Registered(a.world, s.to) && Story(c, a, l, d, frames)
    requires Performs(On(s.to), s.handler, l)
    ensures var log := [SendBegins(cur, s.to)] + l + [SendEnds(cur, s.to)];
            Story(c, a, log, d, frames) && PerformsFirst(cur, s, log)
  {
    hide Story, Performs, PerformsFirst, Do;
    DoSend(c, a, d, cur, s.to);
    StoryAround(c, a, SendBegins(cur, s.to), a, l, d, SendEnds(cur, s.to), d, frames);
    SendIsFirst(cur, s, l);
  }

  /** A message to another thread, during which the sender is suspended. */
  lemma SentAcross(c: Clients, a: Moment, b: Moment, d: Moment, x: Moment, cur: Context, s: Script, l: seq<Entry>,
        frames: set<nat>)
    requires s.Send? && cur != On(s.to) && cur !in a.world.yielded && Registered(a.world, s.to)
    requires b == Moment(Suspended(a.world, cur), a.calls) && x == Moment(Continued(d.world, cur), d.calls)
    requires Story(c, b, l, d, frames) && Performs(On(s.to), s.handler, l)
    ensures var log := [SendBegins(cur, s.to)] + l + [SendEnds(cur, s.to)];
            Story(c, a, log, x, frames) && PerformsFirst(cur, s, log)
  {
    hide Story, Performs, PerformsFirst, Do;
    DoSend(c, a, d, cur, s.to);
    StoryAround(c, a, SendBegins(cur, s.to), b, l, d, SendEnds(cur, s.to), x, frames);
    SendIsFirst(cur, s, l);
  }

  lemma StoryRounds(c: Clients, a: Moment, clear: Moment, passes: seq<Entry>, d: Moment, frames: set<nat>)
    requires Do(c, a, Cleared) == Some(clear) && Story(c, clear, passes + [Scanned], d, frames) && Passes(passes)
    ensures Story(c, a, [Cleared] + (passes + [Scanned]), d, frames) && Rounds([Cleared] + (passes + [Scanned]))
  {
    hide Story, Passes, Rounds, Do;
    StoryFront(c, a, Cleared, clear, passes + [Scanned], d, frames);
    RoundsMade(passes);
  }

  /** A task taken and run. */
  ghost predicate TaskLog(r: nat, task: Posted, log: seq<Entry>) {
    log != [] && log[0] == Popped(r, task) && Performs(On(r), task.script, log[1..])
  }

  lemma TaskGrows(r: nat, log: seq<Entry>, one: seq<Entry>)
    requires Tasks(r, log) && one != [] && one[0].Popped? && TaskLog(r, one[0].task, one)
    ensures Tasks(r, log + one)
  {
    hide Performs, Tasks;
    assert one == [Popped(r, one[0].task)] + one[1..];
    TasksAnother(r, log, one[0].task, one[1..]);
  }

  lemma PassTurn(c: Clients, clear: Moment, log: seq<Entry>, a: Moment, b: Moment, turn: seq<Entry>, d: Moment,
        frames: set<nat>)
    requires Story(c, clear, log, a, frames) && Passes(log) && Turn(turn) && Story(c, b, turn, d, frames)
    requires Do(c, a, Picked(turn[0].r)) == Some(b)
    ensures Story(c, clear, log + ([Picked(turn[0].r)] + turn), d, frames)
    ensures Passes(log + ([Picked(turn[0].r)] + turn))
  {
    hide Story, Do, Passes, Turn;
    StoryFront(c, a, Picked(turn[0].r), b, turn, d, frames);
    StoryTrans(c, clear, log, a, [Picked(turn[0].r)] + turn, d, frames);
    PassesTurn(log, turn);
  }

  lemma FiringStory(c: Clients, a: Moment, w: World, log: seq<Entry>, d: Moment)
    requires log != [] && log[|log| - 1].Timer? && Rounds(log[..|log| - 1])
    requires w == a.world.(now := w.now, timer := None) && a.world.now <= w.now
    requires Story(c, Moment(w, a.calls), log, d, {})
    ensures var all := [Clock(w.now)] + ([Timer(None)] + log); Story(c, a, all, d, {}) && Firing(all)
  {
    hide Story, Rounds, Do;
    var b := Moment(a.world.(now := w.now), a.calls);
    DoClock(c, a, w.now, None);
    DoClock(c, b, w.now, None);
    StoryFront(c, b, Timer(None), Moment(w, a.calls), log, d, {});
    StoryFront(c, a, Clock(w.now), b, [Timer(None)] + log, d, {});
    var rounds := log[..|log| - 1];
    assert log == rounds + [log[|log| - 1]];
    FiringMade(w.now, rounds, log[|log| - 1].t);
  }

  /** One more outside event, and one more firing. */
  lemma StoryOutside(c: Clients, a: Moment, log: seq<Entry>, b: Moment, one: seq<Entry>, d: Moment,
        events: seq<External>, n: nat)
    requires n < |events| && Story(c, a, log, b, {}) && Simulates(events, n, log) && Story(c, b, one, d, {})
    requires one != [] && one[0] == Clock(events[n].at) && Performs(events[n].context, events[n].script, one[1..])
    ensures Story(c, a, log + one, d, {}) && Simulates(events, n + 1, log + one)
  {
    hide Story, Simulates, Performs;
    SimulatesOutside(events, n, log, one[1..]);
    assert [one[0]] + one[1..] == one;
    StoryTrans(c, a, log, b, one, d, {});
  }

  lemma StoryFired(c: Clients, a: Moment, log: seq<Entry>, b: Moment, one: seq<Entry>, d: Moment,
        events: seq<External>, n: nat)
    requires n <= |events| && Story(c, a, log, b, {}) && Simulates(events, n, log)
    requires Story(c, b, one, d, {}) && Firing(one)
    ensures Story(c, a, log + one, d, {}) && Simulates(events, n, log + one)
  {
    hide Story, Simulates, Firing;
    SimulatesFiring(events, n, log, one);
    StoryTrans(c, a, log, b, one, d, {});
  }

  lemma SimulatesNothing(events: seq<External>)
    ensures Simulates(events, 0, [])
  {
  }
}
