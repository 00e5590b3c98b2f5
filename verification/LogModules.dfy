/** The modules in a log: every module that RunReady took was processed at that time, and then put back for the
    time that it asked for. */
module LogModules {
  import opened Timestamps
  import opened Scripts
  import opened RunnerStates
  import opened RunnerLaws
  import opened ModuleLaws
  import opened Worlds
  import opened ModuleTimes
  import opened WholeRuns
  import opened WorldLaws
  import opened CalmScripts
  import opened Logs
  import opened LogTheorems

  /** From one runner state to another, modules have left the map only by calls. */
  ghost predicate OnlyMoved(s: RunnerState, t: RunnerState) {
    && s.gone <= t.gone
    && forall i | |s.gone| <= i < |t.gone| :: t.gone[i].Moved?
  }

  lemma ApplyMoves(s: RunnerState, op: ThreadOp, now: int, waits: seq<nat>)
    requires |waits| == Asks(s, op)
    ensures OnlyMoved(s, Apply(s, op, now, waits))
  {
    hide AddAll, AddTo, RemoveModule, RemoveValue, Overlooked, Members;
  }

  lemma FirstMoves(w: World, calls: nat, untilNext: nat -> nat, cur: Context, s: Script, r: nat)
    requires Plain(s) && Calm(s) && r < |w.rs| && First(w, calls, untilNext, cur, s).Ended?
    ensures var v := First(w, calls, untilNext, cur, s).world; r < |v.rs| && OnlyMoved(w.rs[r], v.rs[r])
  {
    hide Apply, Insert;
    if s.Control? {
      ApplyMoves(w.rs[s.to], s.op, w.now, Answers(untilNext, calls, Asks(w.rs[s.to], s.op)));
    }
  }

  /** A module leaves the map for the processing only when RunReady takes the batch that holds it. */
  lemma DoGone(c: Clients, m: Moment, e: Entry, n: Moment, r: nat)
    requires Do(c, m, e) == Some(n) && r < |m.world.rs|
    ensures |n.world.rs| == |m.world.rs|
    ensures if e.Entered? && e.r == r
            then n.world.rs[r].gone == m.world.rs[r].gone + TakenAt(e.batch, m.world.now)
            else OnlyMoved(m.world.rs[r], n.world.rs[r])
  {
    hide First, DueRunners, DueBuckets, UpperBound, OnlyMoved;
    DoSize(c, m, e);
    SameMoves(m.world.rs[r], n.world.rs[r]);
    if e.Did? {
      FirstMoves(m.world, m.calls, c.untilNext, e.cur, e.action, r);
    }
  }

  lemma SameMoves(s: RunnerState, t: RunnerState)
    ensures t.gone == s.gone ==> OnlyMoved(s, t)
  {
  }

  lemma {:induction false} WhereEntered(c: Clients, a: Moment, log: seq<Entry>, b: Moment, r: nat, m: Module, at: int)
      returns (i: nat)
    requires Replay(c, a, log) == Some(b) && r < |a.world.rs| && r < |b.world.rs|
    requires a.world.rs[r].gone <= b.world.rs[r].gone
    requires Taken(m, at) in b.world.rs[r].gone[|a.world.rs[r].gone|..]
    ensures i < |log| && log[i].Entered? && log[i].r == r && m in log[i].batch
    ensures TimeAfter(a.world.now, log[..i]) == at
    decreases |log|
  {
    hide Do;
    i := 0;
    if log == [] {
    } else {
      var n := |log| - 1;
      var d := LastStep(c, a, log, b);
      GoneGrows(c, a, log[..n], d, r);
      ClockAfter(c, a, log[..n], d);
      DoGone(c, d, log[n], b, r);
      var s, u, t := a.world.rs[r], d.world.rs[r], b.world.rs[r];
      var x :| |s.gone| <= x < |t.gone| && t.gone[x] == Taken(m, at);
      if x < |u.gone| {
        assert u.gone[x] == t.gone[x] && u.gone[x] in u.gone[|s.gone|..];
        i := WhereEntered(c, a, log[..n], d, r, m, at);
        assert log[..n][..i] == log[..i];
      } else {
        i := n;
      }
    }
  }

  lemma {:induction false} GoneGrows(c: Clients, a: Moment, log: seq<Entry>, b: Moment, r: nat)
    requires Replay(c, a, log) == Some(b) && r < |a.world.rs|
    ensures |b.world.rs| == |a.world.rs| && a.world.rs[r].gone <= b.world.rs[r].gone
    decreases |log|
  {
    hide Do;
    if log == [] {
    } else {
      var n := |log| - 1;
      var d := LastStep(c, a, log, b);
      GoneGrows(c, a, log[..n], d, r);
      DoGone(c, d, log[n], b, r);
    }
  }

  /** Each module of a batch has its turn. */
  lemma {:induction false} BatchHas(r: nat, ms: seq<Module>, log: seq<Entry>, q: nat) returns (i: nat, k: nat)
    requires Batch(r, ms, log) && q < |ms|
    ensures i < k < |log| && log[i].Processed? && log[i].r == r
    ensures log[k].PutBack? && log[k].r == r && log[k].m == ms[q]
    ensures Performs(On(r), log[i].script, log[i + 1..k])
    decreases |log|
  {
    hide Performs, Batch;
    var n := LastModule(r, ms, log);
    if q == |ms| - 1 {
      i, k := n, |log| - 1;
    } else {
      i, k := BatchHas(r, ms[..|ms| - 1], log[..n], q);
      assert log[..n][i + 1..k] == log[i + 1..k];
    }
  }

  /** At this time Process() of the module began with the i-th entry of the log, did what that call of it does, and
      at the k-th entry the module was put back for the time that it asked for then. */
  ghost predicate ProcessedAt(c: Clients, a: Moment, log: seq<Entry>, r: nat, m: Module, at: int, i: nat, k: nat) {
    && Replay(c, a, log).Some? && i < k < |log| && TimeAfter(a.world.now, log[..i]) == at
    && log[i] == Entry.Processed(r, c.process(MomentBefore(c, a, log, i).calls))
    && log[k] == PutBack(r, m, at + 1000 * c.untilNext(MomentBefore(c, a, log, k).calls))
    && Performs(On(r), log[i].script, log[i + 1..k])
  }

  ghost predicate IsProcessed(c: Clients, a: Moment, log: seq<Entry>, r: nat, m: Module, at: int) {
    exists i: nat, k: nat :: ProcessedAt(c, a, log, r, m, at, i, k)
  }

  /** That is so for every module that has been taken between the two worlds. */
  ghost predicate AllTakenProcessed(c: Clients, a: Moment, w: World, log: seq<Entry>) {
    && |w.rs| == |a.world.rs|
    && (forall r: nat | r < |w.rs| :: a.world.rs[r].gone <= w.rs[r].gone)
    && forall r: nat, m: Module, at: int |
         r < |w.rs| && Taken(m, at) in w.rs[r].gone[|a.world.rs[r].gone|..] :: IsProcessed(c, a, log, r, m, at)
  }

  /** Whatever has been taken during a story was processed. */
  lemma StoryProcesses(c: Clients, a: Moment, log: seq<Entry>, b: Moment, frames: set<nat>)
    requires Story(c, a, log, b, frames)
    ensures AllTakenProcessed(c, a, b.world, log)
  {
    hide Replay, Executed, Spares, IsProcessed;
    WorldSize(c, a, log, b);
    forall r: nat | r < |b.world.rs|
      ensures a.world.rs[r].gone <= b.world.rs[r].gone
    {
      GoneGrows(c, a, log, b, r);
    }
    forall r: nat, m: Module, at: int |
      r < |b.world.rs| && Taken(m, at) in b.world.rs[r].gone[|a.world.rs[r].gone|..]
      ensures IsProcessed(c, a, log, r, m, at)
    {
      var e := WhereEntered(c, a, log, b, r, m, at);
      EnteredProcesses(c, a, log, b, e, r, m);
    }
  }

  /** Modules on time: whoever waited for a time that the timer does not skip, and was not moved or deleted by
      then, has been processed at exactly that time. */
  lemma BookedAreProcessed(c: Clients, a: Moment, w: World, stop: int, log: seq<Entry>, r: nat, m: Module, k: int)
    requires AllTakenProcessed(c, a, w, log) && ModulesOnTime(a.world, w, stop) && Booked(a.world, r, m, k, stop)
    requires r < |w.rs| && !GoneBy(w.rs[r], k) && !MovedBy(m, w.rs[r].gone[|a.world.rs[r].gone|..], k)
    ensures IsProcessed(c, a, log, r, m, k)
  {
    hide IsProcessed, MovedBy;
    assert ModuleTimes.Processed(a.world, w, r, m, k);
  }

  lemma EnteredProcesses(c: Clients, a: Moment, log: seq<Entry>, b: Moment, e: nat, r: nat, m: Module)
    requires Replay(c, a, log) == Some(b) && Executed(log)
    requires e < |log| && log[e].Entered? && log[e].r == r && m in log[e].batch
    ensures IsProcessed(c, a, log, r, m, TimeAfter(a.world.now, log[..e]))
  {
    hide Replay, Performs, Batch, Spares, TimeAfter, MomentBefore, NoClock;
    assert Runs(log, e);
    var end: nat :| e < end <= |log| && RunsFrom(log, e, end);
    var part, q :| part == log[e + 1..end] && 0 <= q < |log[e].batch| && log[e].batch[q] == m;
    var x, y := BatchHas(r, log[e].batch, part, q);
    var i, k := e + 1 + x, e + 1 + y;
    Within(log, e + 1, end, x, y);
    BatchInstantly(r, log[e].batch, part);
    NoClockWithin(log, e, end, i);
    NoClockWithin(log, e, end, k);
    TimeStands(a.world.now, log, e, i);
    TimeStands(a.world.now, log, e, k);
    EntryAt(c, a, log, b, i);
    EntryAt(c, a, log, b, k);
    assert ProcessedAt(c, a, log, r, m, TimeAfter(a.world.now, log[..e]), i, k);
  }

  lemma Within(log: seq<Entry>, lo: nat, hi: nat, x: nat, y: nat)
    requires lo <= hi <= |log| && x < y < hi - lo
    ensures var part := log[lo..hi];
            part[x + 1..y] == log[lo + x + 1..lo + y] && part[x] == log[lo + x] && part[y] == log[lo + y]
  {
    var part := log[lo..hi];
    var a, b := part[x + 1..y], log[lo + x + 1..lo + y];
    forall z | 0 <= z < |a|
      ensures a[z] == b[z]
    {
      assert a[z] == part[x + 1 + z] == log[lo + x + 1 + z];
    }
  }

  lemma NoClockWithin(log: seq<Entry>, e: nat, end: nat, i: nat)
    requires e < i < end <= |log| && !log[e].Clock? && NoClock(log[e + 1..end])
    ensures NoClock(log[e..i])
  {
    forall x | 0 <= x < |log[e..i]|
      ensures !log[e..i][x].Clock?
    {
      if x > 0 {
        assert log[e + 1..end][x - 1] == log[e + x];
      }
    }
  }

  /** An entry happened at the moment before it. */
  lemma EntryAt(c: Clients, a: Moment, log: seq<Entry>, b: Moment, i: nat)
    requires Replay(c, a, log) == Some(b) && i < |log|
    ensures Do(c, MomentBefore(c, a, log, i), log[i]).Some?
    ensures log[i].Processed? ==> log[i].script == c.process(MomentBefore(c, a, log, i).calls)
    ensures log[i].PutBack? ==>
              log[i].until == TimeAfter(a.world.now, log[..i]) + 1000 * c.untilNext(MomentBefore(c, a, log, i).calls)
  {
    ReplaySplit(c, a, log, i);
    assert log[i..][0] == log[i];
    ClockAfter(c, a, log[..i], MomentBefore(c, a, log, i));
  }

  lemma {:induction false} ClockAfter(c: Clients, a: Moment, log: seq<Entry>, b: Moment)
    requires Replay(c, a, log) == Some(b)
    ensures b.world.now == TimeAfter(a.world.now, log)
    decreases |log|
  {
    hide Do;
    if log == [] {
    } else {
      var n := |log| - 1;
      var d := LastStep(c, a, log, b);
      ClockAfter(c, a, log[..n], d);
      DoClockAt(c, d, log[n], b);
    }
  }

  lemma DoClockAt(c: Clients, m: Moment, e: Entry, n: Moment)
    requires Do(c, m, e) == Some(n)
    ensures n.world.now == if e.Clock? then e.at else m.world.now
  {
    hide First, DueRunners, TakeModules, Requeue, MoveDue, PopFront, Finish;
    if e.Did? {
      FirstClock(m.world, m.calls, c.untilNext, e.cur, e.action);
    }
  }
}
