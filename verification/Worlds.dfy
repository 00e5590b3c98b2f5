/** The state of the whole scheduler as a value: the runners, which of them are registered, ready
    and yielded, the clock and the timer; and the laws by which runner operations move it. */
module Worlds {
  import opened Timestamps
  import opened Scripts
  import opened RunnerStates
  import opened RunnerLaws
  import opened ModuleLaws

  /** The task queue that TaskQueueBase::Current() reports, if any. */
  datatype Context = Nobody | On(id: nat)

  /** `threads` are the process threads among the runners. */
  datatype World = World(
    rs: seq<RunnerState>, threads: set<nat>, runners: seq<nat>, ready: seq<nat>,
    yielded: set<Context>, now: int, timer: Option<int>)

  function With(w: World, r: nat, s: RunnerState): World
    requires r < |w.rs|
  {
    w.(rs := w.rs[r := s])
  }

  ghost predicate NoDuplicates(xs: seq<nat>) {
    forall i, j | 0 <= i < j < |xs| :: xs[i] != xs[j]
  }

  predicate Empty(s: RunnerState) {
    s.queue == [] && s.delayed == [] && s.modules == [] && s.next == PlusInfinity
  }

  /** What holds of every runner while RunReady is active on exactly the runners in `frames`. */
  ghost predicate RunnersSound(w: World, frames: set<nat>) {
    forall i | 0 <= i < |w.rs| ::
      && Coherent(w.rs[i], w.now)
      && w.rs[i].activations == (if i in frames then 1 else 0)
      && (i in w.runners ==> !w.rs[i].deleted)
      && (i !in w.runners ==> Empty(w.rs[i]))
      && (i !in w.threads ==> w.rs[i].lost == {})
  }

  ghost predicate ListsSound(w: World, frames: set<nat>) {
    && NoDuplicates(w.runners) && NoDuplicates(w.ready)
    && (forall r | r in w.runners :: r < |w.rs|)
    && (forall r | r in w.ready :: r in w.runners)
    && (forall f | f in frames :: f in w.runners)
  }

  ghost predicate Inv(w: World, frames: set<nat>) {
    RunnersSound(w, frames) && ListsSound(w, frames)
  }

  /** Every active runner is suspended, except the one whose code is running. */
  ghost predicate Covered(w: World, cur: Context, frames: set<nat>) {
    forall f | f in frames :: On(f) == cur || On(f) in w.yielded
  }

  // ---------------------------------------------------------------- work

  function Sum(xs: seq<nat>): nat {
    if xs == [] then 0 else xs[0] + Sum(xs[1..])
  }

  function Dues(w: World): seq<nat> {
    seq(|w.rs|, i requires 0 <= i < |w.rs| => DueCount(w.rs[i], w.now))
  }

  function Loads(w: World): seq<nat> {
    seq(|w.rs|, i requires 0 <= i < |w.rs| => Load(w.rs[i]))
  }

  /** Module buckets that are due now. */
  function TotalDue(w: World): nat {
    Sum(Dues(w))
  }

  /** Work in the pending tasks, whenever they are due. */
  function TotalLoad(w: World): nat {
    Sum(Loads(w))
  }

  lemma {:induction false} SumUpdate(xs: seq<nat>, i: nat, v: nat)
    requires i < |xs|
    ensures Sum(xs[i := v]) == Sum(xs) - xs[i] + v
  {
    if i == 0 {
      assert xs[i := v][1..] == xs[1..];
    } else {
      assert xs[i := v][1..] == xs[1..][i - 1 := v];
      SumUpdate(xs[1..], i - 1, v);
    }
  }

  lemma WithTotals(w: World, r: nat, s: RunnerState)
    requires r < |w.rs|
    ensures TotalDue(With(w, r, s)) == TotalDue(w) - DueCount(w.rs[r], w.now) + DueCount(s, w.now)
    ensures TotalLoad(With(w, r, s)) == TotalLoad(w) - Load(w.rs[r]) + Load(s)
  {
    hide DueCount, Load, Sum;
    var v := With(w, r, s);
    assert Dues(v) == Dues(w)[r := DueCount(s, w.now)];
    assert Loads(v) == Loads(w)[r := Load(s)];
    SumUpdate(Dues(w), r, DueCount(s, w.now));
    SumUpdate(Loads(w), r, Load(s));
  }

  /** The work done between two worlds: module buckets were used up, or else the pending work
      grew by no more than `credit`. */
  predicate Costs(w: World, v: World, credit: nat) {
    TotalDue(v) < TotalDue(w) || (TotalDue(v) == TotalDue(w) && TotalLoad(v) <= TotalLoad(w) + credit)
  }

  predicate Progress(w: World, v: World) {
    TotalDue(v) < TotalDue(w) || (TotalDue(v) == TotalDue(w) && TotalLoad(v) < TotalLoad(w))
  }

  // ---------------------------------------------------------------- what execution may change

  /** A stretch of execution at one time: every runner evolves, the ready list only shrinks, and
      who is yielding is the same before and after. */
  ghost predicate Moves(w: World, v: World) {
    && v.now == w.now && v.timer == w.timer && v.yielded == w.yielded && v.threads == w.threads
    && |v.rs| == |w.rs|
    && (forall r | r in v.ready :: r in w.ready)
    && (forall i | 0 <= i < |w.rs| :: Evolves(w.rs[i], v.rs[i], w.now))
    && (forall i | 0 <= i < |w.rs| :: Stays(w.rs[i], v.rs[i], w.now))
  }

  /** The batches of the active runners are left alone, and only posts join their lines: nobody
      moves their delayed tasks for them. */
  ghost predicate Held(w: World, v: World, frames: set<nat>) {
    && |v.rs| == |w.rs|
    && forall f | f in frames && f < |w.rs| :: v.rs[f].inFlight == w.rs[f].inFlight && OnlyPosts(w.rs[f], v.rs[f])
  }

  ghost predicate Reach(w: World, v: World, frames: set<nat>, credit: nat) {
    Moves(w, v) && Held(w, v, frames) && Costs(w, v, credit)
  }

  /** A stretch of execution in which nobody ran. */
  ghost predicate Quiet(w: World, v: World) {
    && |v.rs| == |w.rs| && v.timer == w.timer && w.now <= v.now
    && (forall i | 0 <= i < |w.rs| :: Rests(w.rs[i], v.rs[i]))
    && (forall i | 0 <= i < |w.rs| :: Untaken(w.rs[i], v.rs[i], v.now))
  }

  lemma QuietTrans(u: World, v: World, w: World)
    requires Quiet(u, v) && Quiet(v, w)
    ensures Quiet(u, w)
  {
    hide Untaken;
    forall i | 0 <= i < |u.rs|
      ensures Untaken(u.rs[i], w.rs[i], w.now)
    {
      UntakenTrans(u.rs[i], v.rs[i], w.rs[i], v.now, w.now);
    }
  }

  lemma QuietWith(w: World, r: nat, s: RunnerState)
    requires r < |w.rs| && Rests(w.rs[r], s) && Untaken(w.rs[r], s, w.now)
    ensures Quiet(w, With(w, r, s))
  {
    hide Untaken;
    AllUntaken(w, w.now);
  }

  lemma AllUntaken(w: World, now: int)
    ensures forall i | 0 <= i < |w.rs| :: Untaken(w.rs[i], w.rs[i], now)
  {
    hide Untaken;
    forall i | 0 <= i < |w.rs|
      ensures Untaken(w.rs[i], w.rs[i], now)
    {
      UntakenSame(w.rs[i], w.rs[i], now);
    }
  }

  /** The lists and the clock do not matter. */
  lemma QuietLists(w: World, v: World)
    requires v.rs == w.rs && v.timer == w.timer && w.now <= v.now
    ensures Quiet(w, v)
  {
    hide Untaken;
    AllUntaken(w, v.now);
  }

  lemma MovesTrans(u: World, v: World, w: World)
    requires Moves(u, v) && Moves(v, w)
    ensures Moves(u, w)
  {
    hide Evolves, Stays;
    forall i | 0 <= i < |u.rs|
      ensures Evolves(u.rs[i], w.rs[i], u.now) && Stays(u.rs[i], w.rs[i], u.now)
    {
      EvolvesTrans(u.rs[i], v.rs[i], w.rs[i], u.now);
      StaysTrans(u.rs[i], v.rs[i], w.rs[i], u.now);
    }
  }

  lemma ReachTrans(u: World, v: World, w: World, frames: set<nat>, c: nat, d: nat)
    requires Reach(u, v, frames, c) && Reach(v, w, frames, d)
    ensures Reach(u, w, frames, c + d)
  {
    hide Moves, TotalDue, TotalLoad;
    MovesTrans(u, v, w);
  }

  lemma ReachRefl(w: World, frames: set<nat>)
    requires Inv(w, frames)
    ensures Reach(w, w, frames, 0)
  {
    hide TotalDue, TotalLoad, Agrees, Ordered, Accounted, Stays;
    forall i | 0 <= i < |w.rs|
      ensures Stays(w.rs[i], w.rs[i], w.now)
    {
      StaysSame(w.rs[i], w.rs[i], w.now);
    }
  }

  // ---------------------------------------------------------------- one runner changes

  /** What the change of one registered runner must respect. */
  ghost predicate Replaces(w: World, r: nat, s: RunnerState) {
    && r < |w.rs| && r in w.runners
    && Coherent(s, w.now) && s.activations == w.rs[r].activations && !s.deleted
    && (r !in w.threads ==> s.lost == {})
  }

  lemma WithInv(w: World, r: nat, s: RunnerState, frames: set<nat>)
    requires Inv(w, frames) && Replaces(w, r, s)
    ensures Inv(With(w, r, s), frames)
  {
    hide Coherent;
  }

  lemma WithMoves(w: World, r: nat, s: RunnerState, frames: set<nat>)
    requires Inv(w, frames) && r < |w.rs| && Evolves(w.rs[r], s, w.now) && Stays(w.rs[r], s, w.now)
    ensures Moves(w, With(w, r, s))
    ensures r !in frames || (s.inFlight == w.rs[r].inFlight && OnlyPosts(w.rs[r], s)) ==>
              Held(w, With(w, r, s), frames)
  {
    hide Agrees, Ordered, Accounted, Evolves, Stays;
    forall i | 0 <= i < |w.rs|
      ensures Evolves(w.rs[i], With(w, r, s).rs[i], w.now) && Stays(w.rs[i], With(w, r, s).rs[i], w.now)
    {
      if i != r {
        EvolvesRefl(w.rs[i], w.now);
        StaysSame(w.rs[i], w.rs[i], w.now);
      }
    }
  }

  lemma EvolvesRefl(s: RunnerState, now: int)
    requires |s.ran| == |s.ranAt|
    ensures Evolves(s, s, now)
  {
  }

  /** A runner operation called from outside RunReady of that runner. */
  lemma Update(w: World, r: nat, s: RunnerState, frames: set<nat>, credit: nat)
    requires Inv(w, frames) && Replaces(w, r, s)
    requires Evolves(w.rs[r], s, w.now) && s.inFlight == w.rs[r].inFlight && OnlyPosts(w.rs[r], s)
    requires Stays(w.rs[r], s, w.now)
    requires DueCount(s, w.now) <= DueCount(w.rs[r], w.now) && Load(s) <= Load(w.rs[r]) + credit
    ensures Inv(With(w, r, s), frames) && Reach(w, With(w, r, s), frames, credit)
  {
    hide Inv, Coherent, Evolves, Stays, TotalDue, TotalLoad, Moves, Held, Load, DueCount;
    WithInv(w, r, s, frames);
    WithMoves(w, r, s, frames);
    WithTotals(w, r, s);
  }

  // ---------------------------------------------------------------- yielding

  lemma ReachMore(u: World, v: World, frames: set<nat>, c: nat, d: nat)
    requires Reach(u, v, frames, c) && c <= d
    ensures Reach(u, v, frames, d)
  {
  }

  lemma HeldFewer(w: World, v: World, frames: set<nat>, fewer: set<nat>)
    requires Held(w, v, frames) && fewer <= frames
    ensures Held(w, v, fewer)
  {
  }

  /** Who is yielding and who is ready to run do not matter to the runners. */
  lemma ListsDoNotMatter(w: World, v: World, frames: set<nat>)
    requires Inv(w, frames) && v == w.(yielded := v.yielded, ready := v.ready)
    requires NoDuplicates(v.ready) && forall r | r in v.ready :: r in w.ready
    ensures Inv(v, frames) && TotalDue(v) == TotalDue(w) && TotalLoad(v) == TotalLoad(w)
  {
    hide Coherent;
    assert Dues(v) == Dues(w) && Loads(v) == Loads(w);
  }

  /** While `cur` yields it is suspended too, so nothing that is active can be entered again;
      afterwards exactly the former set is yielding. */
  lemma SuspendLaw(w: World, cur: Context, frames: set<nat>)
    requires Inv(w, frames) && Covered(w, cur, frames)
    ensures var v := w.(yielded := w.yielded + {cur});
            && Inv(v, frames) && Covered(v, Nobody, frames)
            && TotalDue(v) == TotalDue(w) && TotalLoad(v) == TotalLoad(w)
  {
    hide Inv, TotalDue, TotalLoad;
    ReadyIsDuplicateFree(w, frames);
    ListsDoNotMatter(w, w.(yielded := w.yielded + {cur}), frames);
  }

  lemma ReadyIsDuplicateFree(w: World, frames: set<nat>)
    requires Inv(w, frames)
    ensures NoDuplicates(w.ready) && NoDuplicates(w.runners)
  {
  }

  lemma ResumeLaw(w: World, v: World, cur: Context, frames: set<nat>, credit: nat)
    requires cur !in w.yielded && Inv(v, frames)
    requires Reach(w.(yielded := w.yielded + {cur}), v, frames, credit)
    ensures var u := v.(yielded := v.yielded - {cur});
            u.yielded == w.yielded && Inv(u, frames) && Reach(w, u, frames, credit)
  {
    hide Inv, Evolves;
    var u, x := v.(yielded := v.yielded - {cur}), w.(yielded := w.yielded + {cur});
    ReadyIsDuplicateFree(v, frames);
    ListsDoNotMatter(v, u, frames);
    assert Dues(x) == Dues(w) && Loads(x) == Loads(w);
  }

  lemma CoveredLater(w: World, v: World, cur: Context, frames: set<nat>)
    requires Moves(w, v) && Covered(w, cur, frames)
    ensures Covered(v, cur, frames) && v.yielded == w.yielded
  {
  }

  /** The first modules of a batch wait again; one more joins them. */
  lemma BatchWaits(a: World, u: World, v: World, frames: set<nat>, r: nat, ms: seq<Module>, m: Module, k: int)
    requires Moves(a, u) && Moves(u, v) && Inv(v, frames) && r in frames && r < |a.rs|
    requires forall x | x in ms :: WaitsAgain(a.rs[r], u.rs[r], x, a.now)
    requires k > a.now && Waits(v.rs[r].modules, m, k)
    ensures forall x | x in ms + [m] :: WaitsAgain(a.rs[r], v.rs[r], x, a.now)
  {
    hide WaitsAgain, Waits, Coherent, Evolves, Stays;
    StaysTrans(a.rs[r], u.rs[r], v.rs[r], a.now);
    WaitsAtOnce(a.rs[r], v.rs[r], m, k, a.now);
    forall x | x in ms
      ensures WaitsAgain(a.rs[r], v.rs[r], x, a.now)
    {
      WaitsAgainLater(a.rs[r], u.rs[r], v.rs[r], x, a.now);
    }
  }
}
