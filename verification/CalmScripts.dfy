/** What code that never yields does to the scheduler, as a function: nobody runs meanwhile, so its
    effect is that of its actions one after the other, with message handlers in their places. */
module CalmScripts {
  import opened Timestamps
  import opened Scripts
  import opened RunnerStates
  import opened RunnerLaws
  import opened ModuleLaws
  import opened Worlds
  import opened WorldLaws

  /** How such code ends: normally, at the check that nobody yields twice, or at a use of a runner that
      the source leaves undefined. `calls` counts the calls of modules. */
  datatype Result = Ended(world: World, calls: nat) | CheckFails | Breaks

  function Answers(untilNext: nat -> nat, calls: nat, n: nat): (waits: seq<nat>)
    ensures |waits| == n
  {
    seq(n, k requires 0 <= k < n => untilNext(calls + k))
  }

  predicate Registered(w: World, r: nat) {
    r in w.runners && r < |w.rs|
  }

  function Effect(w: World, calls: nat, untilNext: nat -> nat, cur: Context, s: Script): Result
    requires Calm(s)
    decreases s, 1
  {
    if s.Return? then Ended(w, calls)
    else
      var r := First(w, calls, untilNext, cur, s);
      if r.Ended? then Effect(r.world, r.calls, untilNext, cur, s.next) else r
  }

  /** The first action of a script. */
  function First(w: World, calls: nat, untilNext: nat -> nat, cur: Context, s: Script): Result
    requires Calm(s) && !s.Return?
    decreases s, 0
  {
    match s
    case Post(to, task, _) =>
      if Registered(w, to) then Ended(With(w, to, PostTask(w.rs[to], task, w.now)), calls) else Breaks
    case PostDelayed(to, ms, task, _) =>
      if Registered(w, to) then Ended(With(w, to, PostDelayedTask(w.rs[to], task, ms, w.now)), calls) else Breaks
    case Send(to, handler, _) =>
      if !Registered(w, to) then Breaks
      else if cur == On(to) then Effect(w, calls, untilNext, cur, handler)
      else if cur in w.yielded then CheckFails
      else Resumed(cur, Effect(Suspended(w, cur), calls, untilNext, On(to), handler))
    case Create(id, _) =>
      if id < |w.rs| && id !in w.runners && !w.rs[id].deleted then Ended(Created(w, id), calls) else Breaks
    case Delete(id, _) =>
      if Registered(w, id) && On(id) != cur && On(id) !in w.yielded then Ended(Deleted(w, id), calls) else Breaks
    case Control(to, op, _) =>
      if Registered(w, to) && to in w.threads then
        var n := Asks(w.rs[to], op);
        Ended(With(w, to, Apply(w.rs[to], op, w.now, Answers(untilNext, calls, n))), calls + n)
      else Breaks
  }

  lemma EffectUnfolds(w: World, calls: nat, untilNext: nat -> nat, cur: Context, s: Script)
    ensures Calm(s) ==>
              Effect(w, calls, untilNext, cur, s) ==
              if s.Return? then Ended(w, calls)
              else
                var r := First(w, calls, untilNext, cur, s);
                if r.Ended? then Effect(r.world, r.calls, untilNext, cur, s.next) else r
    ensures Calm(s) && !s.Return? ==> Calm(s.next)
  {
    hide First;
  }

  /** The sender of a message waits, and afterwards goes on. */
  function Suspended(w: World, cur: Context): World {
    w.(yielded := w.yielded + {cur})
  }

  function Resumed(cur: Context, r: Result): Result {
    if r.Ended? then r.(world := r.world.(yielded := r.world.yielded - {cur})) else r
  }

  /** Nobody has run. */
  lemma {:induction false} EffectIsQuiet(w: World, calls: nat, untilNext: nat -> nat, cur: Context, s: Script)
    requires Calm(s) && Effect(w, calls, untilNext, cur, s).Ended?
    ensures Quiet(w, Effect(w, calls, untilNext, cur, s).world)
    decreases s, 1
  {
    hide Quiet, First;
    QuietLists(w, w);
    if !s.Return? {
      FirstIsQuiet(w, calls, untilNext, cur, s);
      var r := First(w, calls, untilNext, cur, s);
      EffectIsQuiet(r.world, r.calls, untilNext, cur, s.next);
      QuietTrans(w, r.world, Effect(w, calls, untilNext, cur, s).world);
    }
  }

  lemma {:induction false} FirstIsQuiet(w: World, calls: nat, untilNext: nat -> nat, cur: Context, s: Script)
    requires Calm(s) && !s.Return? && First(w, calls, untilNext, cur, s).Ended?
    ensures Quiet(w, First(w, calls, untilNext, cur, s).world)
    decreases s, 0
  {
    hide Quiet, Apply, Rests, Untaken, Insert;
    var v := First(w, calls, untilNext, cur, s).world;
    match s
    case Post(to, task, _) =>
      RestsPost(w.rs[to], task, w.now);
      QuietWith(w, to, PostTask(w.rs[to], task, w.now));
    case PostDelayed(to, ms, task, _) =>
      RestsPostDelayed(w.rs[to], task, ms, w.now);
      QuietWith(w, to, PostDelayedTask(w.rs[to], task, ms, w.now));
    case Send(to, handler, _) =>
      if cur == On(to) {
        EffectIsQuiet(w, calls, untilNext, cur, handler);
      } else {
        var u := Suspended(w, cur);
        var x := Effect(u, calls, untilNext, On(to), handler).world;
        EffectIsQuiet(u, calls, untilNext, On(to), handler);
        QuietLists(w, u);
        QuietTrans(w, u, x);
        QuietLists(x, v);
        QuietTrans(w, x, v);
      }
    case Create(_, _) => QuietLists(w, v);
    case Delete(id, _) =>
      RestsDestroy(w.rs[id], w.now);
      QuietWith(w, id, Destroy(w.rs[id], w.now));
      QuietLists(With(w, id, Destroy(w.rs[id], w.now)), v);
      QuietTrans(w, With(w, id, Destroy(w.rs[id], w.now)), v);
    case Control(to, op, _) =>
      var waits := Answers(untilNext, calls, Asks(w.rs[to], op));
      RestsApply(w.rs[to], op, w.now, waits);
      QuietWith(w, to, Apply(w.rs[to], op, w.now, waits));
  }

  lemma RestsPost(s: RunnerState, task: Script, now: int)
    ensures Rests(s, PostTask(s, task, now)) && Untaken(s, PostTask(s, task, now), now)
  {
    hide Untaken;
    UntakenSame(s, PostTask(s, task, now), now);
  }

  lemma RestsPostDelayed(s: RunnerState, task: Script, ms: nat, now: int)
    ensures Rests(s, PostDelayedTask(s, task, ms, now)) && Untaken(s, PostDelayedTask(s, task, ms, now), now)
  {
    hide Untaken;
    UntakenSame(s, PostDelayedTask(s, task, ms, now), now);
  }

  lemma RestsDestroy(s: RunnerState, now: int)
    ensures Rests(s, Destroy(s, now)) && Untaken(s, Destroy(s, now), now)
  {
  }

  lemma RestsApply(s: RunnerState, op: ThreadOp, now: int, waits: seq<nat>)
    requires |waits| == Asks(s, op)
    ensures Rests(s, Apply(s, op, now, waits)) && Untaken(s, Apply(s, op, now, waits), now)
  {
    hide Untaken, Stays;
    ApplyStays(s, op, now, waits);
    ApplyTakesNothing(s, op, now, waits);
    UntakenOp(s, Apply(s, op, now, waits), now);
  }

  lemma ApplyTakesNothing(s: RunnerState, op: ThreadOp, now: int, waits: seq<nat>)
    requires |waits| == Asks(s, op)
    ensures s.gone <= Apply(s, op, now, waits).gone
    ensures forall g | g in Apply(s, op, now, waits).gone[|s.gone|..] :: g.Moved?
  {
  }

  /** Two threads that send to each other, twice round: the third handler runs on a thread that is
      suspended itself, and its own send fails the check that nobody yields twice. */
  lemma CyclicSendFails(w: World, calls: nat, untilNext: nat -> nat)
    requires Registered(w, 0) && Registered(w, 1) && w.yielded == {}
    ensures var s := Send(0, Send(1, Send(0, Send(1, Return, Return), Return), Return), Return);
            Calm(s) && Effect(w, calls, untilNext, Nobody, s) == CheckFails
  {
    var s3 := Send(1, Return, Return);
    var s2 := Send(0, s3, Return);
    var s1 := Send(1, s2, Return);
    var w1 := Suspended(w, Nobody);
    var w2 := Suspended(w1, On(0));
    var w3 := Suspended(w2, On(1));
    assert First(w3, calls, untilNext, On(0), s3) == CheckFails;
    assert Effect(w3, calls, untilNext, On(0), s3) == CheckFails;
    assert Effect(w2, calls, untilNext, On(1), s2) == CheckFails;
    assert Effect(w1, calls, untilNext, On(0), s1) == CheckFails;
  }
}
