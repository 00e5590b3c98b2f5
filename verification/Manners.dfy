/** Which runs end normally: those whose code uses only runners that are there to be used. */
module Manners {
  import opened Scripts
  import opened Timestamps
  import opened RunnerStates
  import opened RunnerLaws
  import opened Worlds
  import opened WorldLaws

  /** Nothing is promised, or: code posts and sends only to these registered runners, makes thread
      operations only on these threads among them, registers and deletes nobody, and sends messages only
      if `sends`. */
  datatype Manners = Any | Polite(runners: set<nat>, threads: set<nat>, sends: bool)

  predicate Obeys(s: Script, m: Manners) {
    match m
    case Any => true
    case Polite(runners, threads, sends) =>
      match s
      case Return => true
      case Post(to, task, next) => to in runners && Obeys(task, m) && Obeys(next, m)
      case PostDelayed(to, _, task, next) => to in runners && Obeys(task, m) && Obeys(next, m)
      case Yield(next) => Obeys(next, m)
      case Send(to, handler, next) => sends && to in runners && Obeys(handler, m) && Obeys(next, m)
      case Create(_, _) | Delete(_, _) => false
      case Control(to, _, next) => to in runners && to in threads && Obeys(next, m)
  }

  ghost predicate TasksObey(s: RunnerState, m: Manners) {
    && (forall e | e in s.queue :: Obeys(e.script, m))
    && (forall e | e in s.delayed :: Obeys(e.script, m))
  }

  /** The runners in question are registered, and all pending tasks keep the promise. */
  ghost predicate Mannered(w: World, m: Manners) {
    m.Polite? ==>
      && (forall r | r in m.runners :: r in w.runners) && m.threads <= w.threads
      && (forall i | 0 <= i < |w.rs| :: TasksObey(w.rs[i], m))
  }

  /** The clock, the timer and the lists of who yields or is ready do not matter. */
  lemma MannersLists(w: World, v: World, m: Manners)
    requires Mannered(w, m) && v.rs == w.rs && v.runners == w.runners && v.threads == w.threads
    ensures Mannered(v, m)
  {
  }

  lemma MannersWith(w: World, r: nat, s: RunnerState, m: Manners)
    requires Mannered(w, m) && r < |w.rs| && (m.Polite? ==> TasksObey(s, m))
    ensures Mannered(With(w, r, s), m)
  {
    hide TasksObey;
  }

  /** A runner operation that adds no task. */
  lemma MannersFewer(w: World, r: nat, s: RunnerState, m: Manners)
    requires Mannered(w, m) && r < |w.rs|
    requires forall e | e in s.queue || e in s.delayed :: e in w.rs[r].queue || e in w.rs[r].delayed
    ensures Mannered(With(w, r, s), m)
  {
    if m.Polite? {
      assert TasksObey(w.rs[r], m);
    }
    MannersWith(w, r, s, m);
  }

  lemma MannersPost(w: World, r: nat, task: Script, m: Manners)
    requires Mannered(w, m) && r < |w.rs| && Obeys(task, m)
    ensures Mannered(With(w, r, PostTask(w.rs[r], task, w.now)), m)
  {
    hide Obeys;
    if m.Polite? {
      assert TasksObey(w.rs[r], m);
    }
    MannersWith(w, r, PostTask(w.rs[r], task, w.now), m);
  }

  lemma MannersPostDelayed(w: World, r: nat, task: Script, ms: nat, m: Manners)
    requires Mannered(w, m) && r < |w.rs| && Obeys(task, m)
    ensures Mannered(With(w, r, PostDelayedTask(w.rs[r], task, ms, w.now)), m)
  {
    hide Obeys, UpperBound;
    if m.Polite? {
      assert TasksObey(w.rs[r], m);
    }
    MannersWith(w, r, PostDelayedTask(w.rs[r], task, ms, w.now), m);
  }

  lemma MannersApply(w: World, r: nat, op: ThreadOp, waits: seq<nat>, m: Manners)
    requires Mannered(w, m) && r < |w.rs| && |waits| == Asks(w.rs[r], op)
    ensures Mannered(With(w, r, Apply(w.rs[r], op, w.now, waits)), m)
  {
    hide Mannered;
    ApplyTasks(w.rs[r], op, w.now, waits);
    MannersFewer(w, r, Apply(w.rs[r], op, w.now, waits), m);
  }

  lemma ApplyTasks(s: RunnerState, op: ThreadOp, now: int, waits: seq<nat>)
    requires |waits| == Asks(s, op)
    ensures var t := Apply(s, op, now, waits); t.queue == s.queue && t.delayed == s.delayed
  {
  }

  /** Taking the batch, putting a module back, and leaving RunReady. */
  lemma MannersModules(w: World, r: nat, t: int, m: Manners)
    requires Mannered(w, m) && r < |w.rs|
    ensures Mannered(With(w, r, TakeModules(Enter(w.rs[r]), w.now)), m)
    ensures w.rs[r].inFlight != [] ==> Mannered(With(w, r, Requeue(w.rs[r], t)), m)
    ensures w.rs[r].activations > 0 ==> Mannered(With(w, r, Finish(w.rs[r])), m)
  {
    hide Mannered;
    var s := w.rs[r];
    MannersFewer(w, r, TakeModules(Enter(s), w.now), m);
    if s.inFlight != [] {
      MannersFewer(w, r, Requeue(s, t), m);
    }
    if s.activations > 0 {
      MannersFewer(w, r, Finish(s), m);
    }
  }

  /** Moving the due tasks to the ready ones, and running the first of these. */
  lemma MannersTasks(w: World, r: nat, m: Manners)
    requires Mannered(w, m) && r < |w.rs|
    ensures Mannered(With(w, r, MoveDue(w.rs[r], w.now)), m)
    ensures w.rs[r].queue != [] ==>
              Mannered(With(w, r, PopFront(w.rs[r], w.now)), m) && Obeys(w.rs[r].queue[0].script, m)
  {
    hide Mannered, Obeys;
    MannersFewer(w, r, MoveDue(w.rs[r], w.now), m);
    if w.rs[r].queue != [] {
      MannersFewer(w, r, PopFront(w.rs[r], w.now), m);
      FrontObeys(w, r, m);
    }
  }

  lemma FrontObeys(w: World, r: nat, m: Manners)
    requires Mannered(w, m) && r < |w.rs| && w.rs[r].queue != []
    ensures Obeys(w.rs[r].queue[0].script, m)
  {
    if m.Polite? {
      assert TasksObey(w.rs[r], m);
    }
  }

  /** What a polite action may rely on. */
  lemma Allowed(w: World, s: Script, m: Manners)
    requires Mannered(w, m) && Obeys(s, m) && !s.Return?
    ensures Obeys(s.next, m)
    ensures s.Post? ==> Obeys(s.task, m)
    ensures s.PostDelayed? ==> Obeys(s.task, m)
    ensures s.Send? ==> Obeys(s.handler, m)
    ensures m.Polite? ==> !s.Create? && !s.Delete?
    ensures m.Polite? && (s.Post? || s.PostDelayed? || s.Send? || s.Control?) ==> s.to in w.runners
    ensures m.Polite? && s.Control? ==> s.to in w.threads
    ensures m.Polite? && s.Send? ==> m.sends
  {
  }

  lemma NothingPromised(w: World, m: Manners)
    ensures m.Any? ==> Mannered(w, m)
  {
  }
}
