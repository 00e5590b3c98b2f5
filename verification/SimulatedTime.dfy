/** The controller of simulated time: it runs every registered runner that is due, nests when
    running code yields, and re-arms one simulator timer. */
module SimulatedTime {
  import opened Timestamps
  import opened Scripts
  import opened RunnerStates
  import opened RunnerLaws
  import opened Worlds
  import opened WorldLaws
  import opened ModuleLaws
  import opened TimerLaws
  import opened ModuleTimes
  import opened WholeRuns
  import opened CalmScripts
  import opened Logs
  import opened LogTheorems
  import opened LogModules
  import opened Manners
  import SequenceRunners

  /** How running code ends: normally, at the source's own check that nobody yields twice, or at
      a use of a runner that the source leaves undefined. */
  datatype Outcome = Done | YieldCheckFailed | Undefined

  class SimulatedTimeController {
    /** Every runner that the run will ever create; `runners` are the registered ones. */
    const objs: seq<SequenceRunners.SequenceRunner>
    const threads: set<nat>
    const stopUs: int

    /** What the n-th call of a module does, and the waiting time that the n-th question to a
        module is answered with. */
    const process: nat -> Script
    const untilNext: nat -> nat

    var now: int
    var timer: Option<int>
    var runners: seq<nat>
    var readyRunners: seq<nat>
    var yielded: set<Context>
    var moduleCalls: nat

    /** Whether a Send has reached a thread that was itself suspended, and whether code has used a runner in
        a way that the source leaves undefined. */
    ghost var cyclicSend: bool
    ghost var misused: bool

    constructor (objs: seq<SequenceRunners.SequenceRunner>, threads: set<nat>, startUs: int, stopUs: int,
                 process: nat -> Script, untilNext: nat -> nat)
      requires forall i, j | 0 <= i < j < |objs| :: objs[i] != objs[j]
      requires forall i | 0 <= i < |objs| :: objs[i].State() == CREATED
      requires 0 <= startUs && forall n :: untilNext(n) >= 1
      ensures this.objs == objs && this.threads == threads && this.stopUs == stopUs
      ensures Wired() && Inv(View(), {}) && yielded == {} && !cyclicSend && !misused
      ensures now == 0 && timer == Some(startUs) && (0 < startUs ==> Armed(View(), stopUs))
    {
      this.objs, this.threads, this.stopUs := objs, threads, stopUs;
      this.process, this.untilNext := process, untilNext;
      now, timer, runners, readyRunners, yielded, moduleCalls := 0, Some(startUs), [], [], {}, 0;
      cyclicSend, misused := false, false;
      new;
      FreshWorld(View());
      hide Inv;
    }

    ghost predicate Wired() {
      && (forall i, j | 0 <= i < j < |objs| :: objs[i] != objs[j])
      && (forall n :: untilNext(n) >= 1)
    }

    ghost function View(): (w: World)
      reads this, objs
      ensures |w.rs| == |objs|
      ensures forall i | 0 <= i < |objs| :: w.rs[i] == objs[i].State()
      ensures w.threads == threads && w.runners == runners && w.ready == readyRunners && w.yielded == yielded
      ensures w.now == now && w.timer == timer
    {
      World(seq(|objs|, i requires 0 <= i < |objs| reads objs => objs[i].State()),
            threads, runners, readyRunners, yielded, now, timer)
    }

    ghost function At(): Moment
      reads this, objs
    {
      Moment(View(), moduleCalls)
    }

    ghost function Modules(): Clients {
      Clients(process, untilNext)
    }

    /** This log leads from that moment to now, all that is taken in it is run, and it holds no step of
        RunReady of the runners in `frames`. */
    ghost predicate Tells(was: Moment, log: seq<Entry>, frames: set<nat>)
      reads this, objs
    {
      Story(Modules(), was, log, At(), frames)
    }

    /** The runners that the promise speaks of are registered, and pending tasks and modules keep it. */
    ghost predicate Keeps(manners: Manners)
      reads this, objs
    {
      Mannered(View(), manners) && ModulesObey(manners)
    }

    ghost predicate ModulesObey(manners: Manners) {
      forall n :: Obeys(process(n), manners)
    }

    lemma ModuleObeys(n: nat, manners: Manners)
      requires ModulesObey(manners)
      ensures Obeys(process(n), manners)
    {
    }

    /** What can be said of every stretch of execution that begins with the two flags as given: code that
        keeps a promise uses no runner wrongly, and without a Send no check fails. */
    ghost predicate Behaved(o: Outcome, manners: Manners, cyclicBefore: bool, misusedBefore: bool)
      reads this, objs
    {
      && (cyclicBefore ==> cyclicSend) && (misusedBefore ==> misused)
      && (o == YieldCheckFailed ==> cyclicSend) && (o == Undefined ==> misused)
      && (o == Done ==> Keeps(manners))
      && (manners.Polite? ==> o != Undefined && misused == misusedBefore)
      && (manners.Polite? && !manners.sends ==> cyclicSend == cyclicBefore)
    }

    /** The outcome and the state that code without yields leads to. */
    ghost predicate Matches(o: Outcome, r: Result)
      reads this, objs
    {
      match r
      case Ended(w, calls) => o == Done && View() == w && moduleCalls == calls
      case CheckFails => o == YieldCheckFailed
      case Breaks => o == Undefined
    }

    /** The same for the first action of a script that does not yield there. */
    ghost predicate MatchesFirst(o: Outcome, w: World, calls: nat, cur: Context, s: Script)
      requires !s.Return?
      reads this, objs
    {
      Calm(s) ==> Matches(o, First(w, calls, untilNext, cur, s))
    }

    /** Nothing is said there of a yield. */
    lemma YieldMatches(o: Outcome, w: World, calls: nat, cur: Context, s: Script)
      requires s.Yield?
      ensures MatchesFirst(o, w, calls, cur, s)
    {
    }

    /** Whatever has joined a history since that moment was performed, as the log says. */
    lemma AllIsRun(was: Moment, log: seq<Entry>, frames: set<nat>, held: set<nat>)
      requires Inv(was.world, held) && Tells(was, log, frames)
      ensures AllRun(was.world, View(), log) && AllTakenProcessed(Modules(), was, View(), log)
    {
      hide View, Story, AllRun, AllTakenProcessed;
      HistoriesDated(was.world, held);
      StoryRuns(Modules(), was, log, At(), frames);
      StoryProcesses(Modules(), was, log, At(), frames);
    }

    // ------------------------------------------------------------ leaf operations

    method PostTo(r: nat, task: Script)
      requires Wired() && r < |objs|
      modifies objs[r]
      ensures View() == With(old(View()), r, PostTask(old(View()).rs[r], task, now))
    {
      hide RunnerStates.PostTask;
      objs[r].PostTask(task, now);
      assert View().rs == old(View()).rs[r := objs[r].State()];
    }

    method PostDelayedTo(r: nat, task: Script, ms: nat)
      requires Wired() && r < |objs|
      modifies objs[r]
      ensures View() == With(old(View()), r, PostDelayedTask(old(View()).rs[r], task, ms, now))
    {
      hide RunnerStates.PostDelayedTask;
      objs[r].PostDelayedTask(task, ms, now);
      assert View().rs == old(View()).rs[r := objs[r].State()];
    }

    /** TimeUntilNextProcess() of as many modules as needed. */
    method AskModules(n: nat) returns (waits: seq<nat>)
      requires Wired()
      modifies `moduleCalls
      ensures View() == old(View()) && moduleCalls == old(moduleCalls) + n
      ensures waits == Answers(untilNext, old(moduleCalls), n)
    {
      waits := [];
      for i := 0 to n
        invariant waits == Answers(untilNext, old(moduleCalls), i) && moduleCalls == old(moduleCalls) + i
      {
        waits := waits + [untilNext(moduleCalls)];
        moduleCalls := moduleCalls + 1;
      }
    }

    /** What the next call does, of a module of this runner's batch. */
    method NextProcess(ghost r: nat) returns (script: Script)
      requires r < |objs| && objs[r].inFlight != []
      modifies `moduleCalls
      ensures View() == old(View()) && script == process(old(moduleCalls)) && moduleCalls == old(moduleCalls) + 1
      ensures Do(Modules(), old(At()), Processed(r, script)) == Some(At())
    {
      hide Do;
      DoProcessed(Modules(), At(), r);
      script := process(moduleCalls);
      moduleCalls := moduleCalls + 1;
    }

    method ControlRunner(r: nat, op: ThreadOp) returns (ghost waits: seq<nat>)
      requires Wired() && r < |objs|
      modifies `moduleCalls, objs[r]
      ensures waits == Answers(untilNext, old(moduleCalls), Asks(old(View()).rs[r], op))
      ensures moduleCalls == old(moduleCalls) + |waits|
      ensures View() == With(old(View()), r, Apply(old(View()).rs[r], op, now, waits))
    {
      hide StartThread, StopThread, WakeUpModule, RegisterModuleAt, DeRegister, Answers;
      var asked := AskModules(if op.Start? then |objs[r].stoppedModules|
                              else if op.WakeUp? || op.RegisterModule? then 1 else 0);
      waits := asked;
      ControlObject(r, op, asked);
      assert View().rs == old(View()).rs[r := objs[r].State()];
    }

    method ControlObject(r: nat, op: ThreadOp, asked: seq<nat>)
      requires Wired() && r < |objs| && |asked| == Asks(objs[r].State(), op)
      modifies objs[r]
      ensures objs[r].State() == Apply(old(objs[r].State()), op, now, asked)
    {
      hide StartThread, StopThread, WakeUpModule, RegisterModuleAt, DeRegister;
      match op {
        case Start => objs[r].Start(now, asked);
        case Stop => objs[r].Stop(now);
        case WakeUp(m) => objs[r].WakeUp(m, now + 1000 * asked[0], now);
        case RegisterModule(m) => objs[r].RegisterModule(m, now + 1000 * asked[0]);
        case DeRegisterModule(m) => objs[r].DeRegisterModule(m, now);
      }
    }

    method CreateRunner(r: nat)
      requires Wired() && r < |objs|
      modifies `runners
      ensures View() == Created(old(View()), r)
    {
      runners := runners + [r];
    }

    /** SimulatedTaskQueue::Delete(): the queue drops its tasks and unregisters itself. */
    method DeleteRunner(r: nat)
      requires Wired() && r < |objs|
      modifies `runners, `readyRunners, objs[r]
      ensures View() == Deleted(old(View()), r)
    {
      hide RunnerStates.Destroy, Remove;
      objs[r].Destroy(now);
      runners := Remove(runners, r);
      readyRunners := Remove(readyRunners, r);
      assert View().rs == old(View()).rs[r := objs[r].State()];
    }

    method StartYield(yieldingFrom: Context)
      modifies `yielded
      ensures View() == old(View()).(yielded := old(View()).yielded + {yieldingFrom})
    {
      yielded := yielded + {yieldingFrom};
    }

    method StopYield(yieldingFrom: Context)
      modifies `yielded
      ensures View() == old(View()).(yielded := old(View()).yielded - {yieldingFrom})
    {
      yielded := yielded - {yieldingFrom};
    }

    ghost method NoteMisuse()
      modifies `misused
      ensures View() == old(View()) && misused
    {
      misused := true;
    }

    ghost method NoteSend(to: nat)
      modifies `cyclicSend
      ensures View() == old(View())
      ensures cyclicSend == (old(cyclicSend) || On(to) in yielded)
    {
      cyclicSend := cyclicSend || On(to) in yielded;
    }

    method ClearReady()
      modifies `readyRunners
      ensures View() == old(View()).(ready := [])
    {
      readyRunners := [];
    }

    method PopReady() returns (r: nat)
      requires readyRunners != []
      modifies `readyRunners
      ensures r == old(readyRunners)[0]
      ensures View() == old(View()).(ready := old(readyRunners)[1..])
    {
      r := readyRunners[0];
      readyRunners := readyRunners[1..];
    }

    method EnterRunner(r: nat) returns (readyModules: seq<Module>)
      requires Wired() && r < |objs|
      modifies objs[r]
      ensures View() == With(old(View()), r, TakeModules(Enter(old(View()).rs[r]), now))
      ensures readyModules == View().rs[r].inFlight
    {
      hide TakeModules, Enter;
      readyModules := objs[r].TakeDueModules(now);
      assert View().rs == old(View()).rs[r := objs[r].State()];
    }

    method RequeueOf(r: nat, m: Module, t: int)
      requires Wired() && r < |objs| && objs[r].inFlight != [] && m == objs[r].inFlight[0]
      modifies objs[r]
      ensures View() == With(old(View()), r, Requeue(old(View()).rs[r], t))
    {
      hide Requeue;
      objs[r].Requeue(m, t);
      assert View().rs == old(View()).rs[r := objs[r].State()];
    }

    method MoveDueOf(r: nat)
      requires Wired() && r < |objs|
      modifies objs[r]
      ensures View() == With(old(View()), r, MoveDue(old(View()).rs[r], now))
    {
      hide MoveDue;
      objs[r].MoveDueTasks(now);
      assert View().rs == old(View()).rs[r := objs[r].State()];
    }

    method PopOf(r: nat) returns (task: Script)
      requires Wired() && r < |objs| && objs[r].queue != []
      modifies objs[r]
      ensures task == old(View()).rs[r].queue[0].script
      ensures View() == With(old(View()), r, PopFront(old(View()).rs[r], now))
    {
      hide PopFront;
      task := objs[r].PopFront(now);
      assert View().rs == old(View()).rs[r := objs[r].State()];
    }

    method SettleOf(r: nat)
      requires Wired() && r < |objs| && objs[r].activations > 0
      modifies objs[r]
      ensures View() == With(old(View()), r, Finish(old(View()).rs[r]))
    {
      hide Finish;
      objs[r].Settle();
      assert View().rs == old(View()).rs[r := objs[r].State()];
    }

    // ------------------------------------------------------------ running code

    /** Runs code in the context `cur` while RunReady is active on the runners in `frames`. */
    method RunScript(cur: Context, frames: set<nat>, s: Script, ghost manners: Manners)
      returns (o: Outcome, ghost log: seq<Entry>)
      requires Wired() && Inv(View(), frames) && Covered(View(), cur, frames)
      requires Keeps(manners) && Obeys(s, manners)
      requires cur in yielded ==> cyclicSend
      modifies this, objs
      decreases TotalDue(View()), TotalLoad(View()) + Size(s), 5
      ensures Behaved(o, manners, old(cyclicSend), old(misused))
      ensures o == Done ==> Inv(View(), frames) && Reach(old(View()), View(), frames, Size(s))
      ensures o == Done ==> Tells(old(At()), log, frames) && Performs(cur, s, log)
      ensures Calm(s) ==> Matches(o, Effect(old(View()), old(moduleCalls), untilNext, cur, s))
    {
      hide View, Inv, Moves, Held, TotalDue, TotalLoad, First, Effect, Mannered, Obeys, ModulesObey;
      hide Story, Performs, PerformsFirst;
      EffectUnfolds(View(), moduleCalls, untilNext, cur, s);
      log := [];
      if s.Return? {
        ReachRefl(View(), frames);
        StoryNothing(Modules(), At(), frames);
        PerformsNothing(cur);
        return Done, [];
      }
      Allowed(View(), s, manners);
      o, log := Act(cur, frames, s, manners);
      if o != Done {
        return;
      }
      ghost var mid, rest := At(), [];
      CoveredLater(old(View()), View(), cur, frames);
      o, rest := RunScript(cur, frames, s.next, manners);
      if o == Done {
        StoryTrans(Modules(), old(At()), log, mid, rest, At(), frames);
        PerformsThen(cur, s, log, rest);
        log := log + rest;
        ReachTrans(old(View()), mid.world, View(), frames, Size(s) - Size(s.next) - 1, Size(s.next));
        ReachMore(old(View()), View(), frames, Size(s) - 1, Size(s));
      }
    }

    /** The first action of a script. */
    method Act(cur: Context, frames: set<nat>, s: Script, ghost manners: Manners)
      returns (o: Outcome, ghost log: seq<Entry>)
      requires Wired() && Inv(View(), frames) && Covered(View(), cur, frames) && !s.Return?
      requires Keeps(manners) && Obeys(s, manners)
      requires cur in yielded ==> cyclicSend
      modifies this, objs
      decreases TotalDue(View()), TotalLoad(View()) + Size(s), 4
      ensures Behaved(o, manners, old(cyclicSend), old(misused))
      ensures o == Done ==> Inv(View(), frames) && Reach(old(View()), View(), frames, Size(s) - Size(s.next) - 1)
      ensures o == Done ==> Tells(old(At()), log, frames) && PerformsFirst(cur, s, log)
      ensures MatchesFirst(o, old(View()), old(moduleCalls), cur, s)
      ensures o == Done && s.Yield? ==> readyRunners == [] && NothingDue(Suspended(View(), cur))
    {
      hide View, Inv, Reach, Covered, TotalDue, TotalLoad, First, MatchesFirst, Behaved, Mannered, Obeys, ModulesObey;
      hide Story, PerformsFirst, NothingDue;
      if s.Yield? {
        o, log := YieldExecution(cur, frames, s, manners);
        YieldMatches(o, old(View()), old(moduleCalls), cur, s);
      } else if s.Send? {
        o, log := SendTo(cur, frames, s, manners);
      } else {
        o, log := ActAlone(cur, frames, s, manners);
      }
    }

    /** The actions that let nobody else run. */
    method ActAlone(cur: Context, frames: set<nat>, s: Script, ghost manners: Manners)
      returns (o: Outcome, ghost log: seq<Entry>)
      requires Wired() && Inv(View(), frames) && Covered(View(), cur, frames)
      requires !s.Return? && !s.Yield? && !s.Send? && Keeps(manners) && Obeys(s, manners)
      modifies this, objs
      ensures Behaved(o, manners, old(cyclicSend), old(misused))
      ensures o == Done ==> Inv(View(), frames) && Reach(old(View()), View(), frames, Size(s) - Size(s.next) - 1)
      ensures o == Done ==> Tells(old(At()), log, frames) && PerformsFirst(cur, s, log)
      ensures MatchesFirst(o, old(View()), old(moduleCalls), cur, s)
    {
      hide View, Inv, Reach, Covered, First, Behaved, Mannered, Obeys, ModulesObey, Story, PerformsFirst, Head, Calm;
      AloneIsHead(old(View()), old(moduleCalls), cur, s);
      log := [Did(cur, Head(s))];
      o := ActHead(cur, frames, s, manners);
      if o == Done {
        StoryDid(Modules(), old(At()), cur, s, At(), frames);
      }
    }

    method ActHead(cur: Context, frames: set<nat>, s: Script, ghost manners: Manners) returns (o: Outcome)
      requires Wired() && Inv(View(), frames) && Covered(View(), cur, frames)
      requires Plain(s) && Keeps(manners) && Obeys(s, manners)
      modifies this, objs
      ensures Behaved(o, manners, old(cyclicSend), old(misused))
      ensures o == Done ==> Inv(View(), frames) && Reach(old(View()), View(), frames, Size(s) - Size(s.next) - 1)
      ensures Matches(o, First(old(View()), old(moduleCalls), untilNext, cur, Head(s)))
    {
      hide View, Inv, Reach, Covered, First, Apply, With, Created, Deleted, Answers, Asks, Matches;
      hide RunnerStates.PostTask, RunnerStates.PostDelayedTask, Behaved, Mannered, Obeys, ModulesObey, Head, Calm;
      RunnersExist(View(), frames);
      if s.Post? {
        o := ActPost(cur, frames, s, manners);
      } else if s.PostDelayed? {
        o := ActPostDelayed(cur, frames, s, manners);
      } else {
        o := ActOnRunner(cur, frames, s, manners);
      }
    }

    method ActOnRunner(cur: Context, frames: set<nat>, s: Script, ghost manners: Manners) returns (o: Outcome)
      requires Wired() && Inv(View(), frames) && Covered(View(), cur, frames)
      requires (s.Create? || s.Delete? || s.Control?) && Keeps(manners) && Obeys(s, manners)
      modifies this, objs
      ensures Behaved(o, manners, old(cyclicSend), old(misused))
      ensures o == Done ==> Inv(View(), frames) && Reach(old(View()), View(), frames, 0)
      ensures Matches(o, First(old(View()), old(moduleCalls), untilNext, cur, Head(s)))
    {
      hide View, Inv, Reach, Covered, First, Apply, With, Created, Deleted, Answers, Asks, Matches;
      hide Behaved, Mannered, Obeys, ModulesObey, Head, Calm;
      RunnersExist(View(), frames);
      if s.Create? {
        o := ActCreate(cur, frames, s, manners);
      } else if s.Delete? {
        o := ActDelete(cur, frames, s, manners);
      } else {
        o := ActControl(cur, frames, s, manners);
      }
    }

    lemma AloneIsHead(w: World, calls: nat, cur: Context, s: Script)
      requires !s.Return? && !s.Yield? && !s.Send?
      ensures Plain(s) && Plain(Head(s)) && Calm(Head(s))
      ensures Calm(s) ==> First(w, calls, untilNext, cur, s) == First(w, calls, untilNext, cur, Head(s))
    {
      hide First;
      if Calm(s) {
        FirstOfHead(w, calls, untilNext, cur, s);
      }
    }

    method ActPost(cur: Context, frames: set<nat>, s: Script, ghost manners: Manners) returns (o: Outcome)
      requires Wired() && Inv(View(), frames) && s.Post? && Keeps(manners) && Obeys(s, manners)
      modifies `misused, objs
      ensures o == if s.to in runners then Done else Undefined
      ensures misused == (old(misused) || o == Undefined)
      ensures Behaved(o, manners, old(cyclicSend), old(misused))
      ensures o == Done ==> Inv(View(), frames) && Reach(old(View()), View(), frames, 1 + Size(s.task))
      ensures o == Done ==> View() == With(old(View()), s.to, PostTask(old(View()).rs[s.to], s.task, now))
      ensures Matches(o, First(old(View()), old(moduleCalls), untilNext, cur, Head(s)))
    {
      hide Reach, Inv, With, RunnerStates.PostTask, Mannered, Obeys, ModulesObey, Effect;
      RunnersExist(View(), frames);
      Allowed(View(), s, manners);
      if s.to !in runners {
        NoteMisuse();
        return Undefined;
      }
      PostLaw(View(), s.to, s.task, frames);
      MannersPost(View(), s.to, s.task, manners);
      PostTo(s.to, s.task);
      o := Done;
    }

    method ActPostDelayed(cur: Context, frames: set<nat>, s: Script, ghost manners: Manners) returns (o: Outcome)
      requires Wired() && Inv(View(), frames) && s.PostDelayed? && Keeps(manners) && Obeys(s, manners)
      modifies `misused, objs
      ensures o == if s.to in runners then Done else Undefined
      ensures misused == (old(misused) || o == Undefined)
      ensures Behaved(o, manners, old(cyclicSend), old(misused))
      ensures o == Done ==> Inv(View(), frames) && Reach(old(View()), View(), frames, 1 + Size(s.task))
      ensures o == Done ==>
                View() == With(old(View()), s.to, PostDelayedTask(old(View()).rs[s.to], s.task, s.ms, now))
      ensures Matches(o, First(old(View()), old(moduleCalls), untilNext, cur, Head(s)))
    {
      hide Reach, Inv, With, RunnerStates.PostDelayedTask, Mannered, Obeys, ModulesObey, Effect;
      RunnersExist(View(), frames);
      Allowed(View(), s, manners);
      if s.to !in runners {
        NoteMisuse();
        return Undefined;
      }
      PostDelayedLaw(View(), s.to, s.task, s.ms, frames);
      MannersPostDelayed(View(), s.to, s.task, s.ms, manners);
      PostDelayedTo(s.to, s.task, s.ms);
      o := Done;
    }

    method ActCreate(cur: Context, frames: set<nat>, s: Script, ghost manners: Manners) returns (o: Outcome)
      requires Wired() && Inv(View(), frames) && s.Create? && Keeps(manners) && Obeys(s, manners)
      modifies `runners, `misused
      ensures o == if s.id < |objs| && s.id !in old(runners) && !objs[s.id].deleted then Done else Undefined
      ensures misused == (old(misused) || o == Undefined)
      ensures Behaved(o, manners, old(cyclicSend), old(misused))
      ensures o == Done ==> Inv(View(), frames) && Reach(old(View()), View(), frames, 0)
      ensures o == Done ==> View() == Created(old(View()), s.id)
      ensures Matches(o, First(old(View()), old(moduleCalls), untilNext, cur, Head(s)))
    {
      hide Reach, Inv, Mannered, Obeys, ModulesObey, Effect;
      RunnersExist(View(), frames);
      Allowed(View(), s, manners);
      if s.id >= |objs| || s.id in runners || objs[s.id].deleted {
        NoteMisuse();
        return Undefined;
      }
      CreateLaw(View(), s.id, frames);
      CreateRunner(s.id);
      NothingPromised(View(), manners);
      o := Done;
    }

    /** A runner must not be deleted by code that runs in it, not even while that code waits. */
    method ActDelete(cur: Context, frames: set<nat>, s: Script, ghost manners: Manners) returns (o: Outcome)
      requires Wired() && Inv(View(), frames) && s.Delete? && Keeps(manners) && Obeys(s, manners)
      requires Covered(View(), cur, frames)
      modifies `runners, `readyRunners, `misused, objs
      ensures o == if s.id in old(runners) && On(s.id) != cur && On(s.id) !in yielded then Done else Undefined
      ensures misused == (old(misused) || o == Undefined)
      ensures Behaved(o, manners, old(cyclicSend), old(misused))
      ensures o == Done ==> Inv(View(), frames) && Reach(old(View()), View(), frames, 0)
      ensures o == Done ==> View() == Deleted(old(View()), s.id)
      ensures Matches(o, First(old(View()), old(moduleCalls), untilNext, cur, Head(s)))
    {
      hide Reach, Inv, Deleted, Mannered, Obeys, ModulesObey, Effect;
      RunnersExist(View(), frames);
      Allowed(View(), s, manners);
      if s.id !in runners || On(s.id) == cur || On(s.id) in yielded {
        NoteMisuse();
        return Undefined;
      }
      DeleteLaw(View(), s.id, frames);
      DeleteRunner(s.id);
      NothingPromised(View(), manners);
      o := Done;
    }

    method ActControl(cur: Context, frames: set<nat>, s: Script, ghost manners: Manners) returns (o: Outcome)
      requires Wired() && Inv(View(), frames) && s.Control? && Keeps(manners) && Obeys(s, manners)
      modifies `moduleCalls, `misused, objs
      ensures o == if s.to in runners && s.to in threads then Done else Undefined
      ensures misused == (old(misused) || o == Undefined)
      ensures Behaved(o, manners, old(cyclicSend), old(misused))
      ensures o == Done ==> Inv(View(), frames) && Reach(old(View()), View(), frames, 0)
      ensures o == Done ==>
                var r := old(View()).rs[s.to];
                var waits := Answers(untilNext, old(moduleCalls), Asks(r, s.op));
                && View() == With(old(View()), s.to, Apply(r, s.op, now, waits))
                && moduleCalls == old(moduleCalls) + |waits|
      ensures Matches(o, First(old(View()), old(moduleCalls), untilNext, cur, Head(s)))
    {
      hide Reach, Inv, With, Apply, Asks, Mannered, Obeys, ModulesObey, Effect;
      RunnersExist(View(), frames);
      Allowed(View(), s, manners);
      if s.to !in runners || s.to !in threads {
        NoteMisuse();
        return Undefined;
      }
      ghost var before := View();
      ghost var waits := ControlRunner(s.to, s.op);
      ControlLaw(before, s.to, s.op, waits, frames);
      MannersApply(before, s.to, s.op, waits, manners);
      o := Done;
    }

    /** SimulatedThread::Send: the handler runs at once, in the context of the thread. */
    method SendTo(cur: Context, frames: set<nat>, s: Script, ghost manners: Manners)
      returns (o: Outcome, ghost log: seq<Entry>)
      requires Wired() && Inv(View(), frames) && Covered(View(), cur, frames)
      requires s.Send? && Keeps(manners) && Obeys(s, manners) && (cur in yielded ==> cyclicSend)
      modifies this, objs
      decreases TotalDue(View()), TotalLoad(View()) + Size(s.handler), 7
      ensures Behaved(o, manners, old(cyclicSend), old(misused))
      ensures o == Done ==> Inv(View(), frames) && Reach(old(View()), View(), frames, Size(s.handler))
      ensures o == Done ==> Tells(old(At()), log, frames) && PerformsFirst(cur, s, log)
      ensures MatchesFirst(o, old(View()), old(moduleCalls), cur, s)
    {
      hide View, Inv, Reach, Covered, TotalDue, TotalLoad, Effect, Mannered, Obeys, ModulesObey;
      hide Story, Performs, PerformsFirst, Do;
      RunnersExist(View(), frames);
      Allowed(View(), s, manners);
      log := [];
      if s.to !in runners {
        NoteMisuse();
        return Undefined, [];
      }
      ghost var a := At();
      if cur == On(s.to) {
        o, log := RunScript(cur, frames, s.handler, manners);
        if o == Done {
          SentWithin(Modules(), a, At(), cur, s, log, frames);
          log := [SendBegins(cur, s.to)] + log + [SendEnds(cur, s.to)];
        }
        return;
      }
      if cur in yielded {
        return YieldCheckFailed, [];
      }
      o, log := SendAcross(cur, frames, s, manners);
    }

    /** The sender is suspended until the handler is over. */
    method SendAcross(cur: Context, frames: set<nat>, s: Script, ghost manners: Manners)
      returns (o: Outcome, ghost log: seq<Entry>)
      requires Wired() && Inv(View(), frames) && Covered(View(), cur, frames)
      requires s.Send? && Keeps(manners) && Obeys(s, manners) && Obeys(s.handler, manners)
      requires s.to in runners && s.to < |objs| && cur != On(s.to) && cur !in yielded
      requires manners.Polite? ==> manners.sends
      modifies this, objs
      decreases TotalDue(View()), TotalLoad(View()) + Size(s.handler), 6
      ensures Behaved(o, manners, old(cyclicSend), old(misused))
      ensures o == Done ==> Inv(View(), frames) && Reach(old(View()), View(), frames, Size(s.handler))
      ensures o == Done ==> Tells(old(At()), log, frames) && PerformsFirst(cur, s, log)
      ensures MatchesFirst(o, old(View()), old(moduleCalls), cur, s)
    {
      hide View, Inv, Reach, Covered, TotalDue, TotalLoad, Effect, Mannered, Obeys, ModulesObey;
      hide Story, Performs, PerformsFirst, Do;
      ghost var a := At();
      StartYield(cur);
      SuspendLaw(a.world, cur, frames);
      NoteSend(s.to);
      ghost var b := At();
      CoveredAnyhow(View(), On(s.to), frames);
      MannersLists(a.world, View(), manners);
      o, log := RunScript(On(s.to), frames, s.handler, manners);
      if o == Done {
        ghost var d := At();
        StopYield(cur);
        ResumeLaw(a.world, d.world, cur, frames, Size(s.handler));
        MannersLists(d.world, View(), manners);
        SentAcross(Modules(), a, b, d, At(), cur, s, log, frames);
        log := [SendBegins(cur, s.to)] + log + [SendEnds(cur, s.to)];
      }
    }

    /** Runs everything that is ready, except on the runners that are suspended. */
    method YieldExecution(cur: Context, frames: set<nat>, s: Script, ghost manners: Manners)
      returns (o: Outcome, ghost log: seq<Entry>)
      requires Wired() && Inv(View(), frames) && Covered(View(), cur, frames) && s.Yield?
      requires Keeps(manners) && (cur in yielded ==> cyclicSend)
      modifies this, objs
      decreases TotalDue(View()), TotalLoad(View()) + 1, 3
      ensures Behaved(o, manners, old(cyclicSend), old(misused))
      ensures o == Done ==> Inv(View(), frames) && Reach(old(View()), View(), frames, 0)
      ensures o == Done ==> readyRunners == [] && NothingDue(Suspended(View(), cur))
      ensures o == Done ==> Tells(old(At()), log, frames) && PerformsFirst(cur, s, log)
    {
      hide View, Inv, Reach, Covered, TotalDue, TotalLoad, Mannered, Obeys, ModulesObey;
      hide Story, Rounds, PerformsFirst, Do, NothingDue;
      log := [];
      if cur in yielded {
        return YieldCheckFailed, [];
      }
      ghost var a := At();
      StartYield(cur);
      ghost var b := At();
      SuspendLaw(a.world, cur, frames);
      MannersLists(a.world, View(), manners);
      o, log := RunReadyRunners(frames, manners);
      if o == Done {
        ghost var d := At();
        YieldedStays(b.world, d.world, frames);
        StopYield(cur);
        ResumeLaw(a.world, d.world, cur, frames, 0);
        MannersLists(d.world, View(), manners);
        DoYield(Modules(), a, d, cur);
        StoryAround(Modules(), a, YieldBegins(cur), b, log, d, YieldEnds(cur), At(), frames);
        YieldIsFirst(cur, s, log);
        log := [YieldBegins(cur)] + log + [YieldEnds(cur)];
        assert Suspended(View(), cur) == d.world;
      }
    }

    /** The scan of RunReadyRunners. */
    method Scan()
      requires Wired() && readyRunners == [] && forall r | r in runners :: r < |objs|
      modifies `readyRunners
      ensures View() == old(View()).(ready := DueRunners(old(View()), runners))
    {
      for i := 0 to |runners|
        invariant readyRunners == DueRunners(old(View()), runners[..i])
        modifies `readyRunners
      {
        assert runners[i] in runners;
        DueRunnersSnoc(old(View()), runners[..i], runners[i]);
        assert runners[..i + 1] == runners[..i] + [runners[i]];
        if On(runners[i]) !in yielded && objs[runners[i]].nextRunTime.AtMost(Micros(now)) {
          readyRunners := readyRunners + [runners[i]];
        }
      }
      assert runners[..|runners|] == runners;
    }

    /** The scan, and what it leaves in the log. */
    method ScanAll(ghost frames: set<nat>, ghost clear: Moment, ghost log: seq<Entry>)
      requires Wired() && Inv(View(), frames) && readyRunners == [] && Tells(clear, log, frames)
      modifies `readyRunners
      ensures View() == old(View()).(ready := DueRunners(old(View()), runners))
      ensures Inv(View(), frames) && Settled(View()) && Eligible(View())
      ensures Reach(old(View()), old(View()), frames, 0)
      ensures TotalDue(View()) == TotalDue(old(View())) && TotalLoad(View()) == TotalLoad(old(View()))
      ensures Tells(clear, log + [Scanned], frames)
    {
      hide View, Inv, Reach, Settled, Eligible, DueRunners, Story, Do, TotalDue, TotalLoad;
      ghost var u, a := View(), At();
      RunnersExist(u, frames);
      Scan();
      ScanLaw(u, frames);
      DoLists(Modules(), a);
      StoryBack(Modules(), clear, log, a, Scanned, At(), frames);
    }

    method RunReadyRunners(frames: set<nat>, ghost manners: Manners) returns (o: Outcome, ghost log: seq<Entry>)
      requires Wired() && Inv(View(), frames) && Covered(View(), Nobody, frames) && Keeps(manners)
      modifies this, objs
      decreases TotalDue(View()), TotalLoad(View()), 8
      ensures Behaved(o, manners, old(cyclicSend), old(misused))
      ensures o == Done ==> Inv(View(), frames) && Reach(old(View()), View(), frames, 0)
      ensures o == Done ==> readyRunners == [] && Settled(View()) && NothingDue(View())
      ensures o == Done ==> Tells(old(At()), log, frames) && Rounds(log)
    {
      hide View, Inv, Reach, Covered, TotalDue, TotalLoad, Settled, Eligible, DueRunners, NothingDue;
      hide Mannered, Obeys, ModulesObey, Story, Passes, Rounds, Do;
      ghost var before, was := View(), At();
      ClearReady();
      ClearLaw(before, frames);
      MannersLists(before, View(), manners);
      ghost var clear := At();
      DoLists(Modules(), was);
      log := [];
      StoryNothing(Modules(), clear, frames);
      PassesNothing();
      while true
        invariant Inv(View(), frames) && Reach(before, View(), frames, 0) && readyRunners == []
        invariant Covered(View(), Nobody, frames)
        invariant Behaved(Done, manners, old(cyclicSend), old(misused))
        invariant Tells(clear, log, frames) && Passes(log)
        decreases TotalDue(View()), TotalLoad(View()), if Settled(View()) then 0 else 1
      {
        ghost var u := View();
        ScanAll(frames, clear, log);
        if readyRunners == [] {
          ScanOfUnsettled(u, frames);
          SettledMeansNothingDue(u, frames);
          assert View() == u;
          StoryRounds(Modules(), was, clear, log, At(), frames);
          return Done, [Cleared] + (log + [Scanned]);
        }
        PassesScan(log);
        log := log + [Scanned];
        ghost var p := View();
        CoveredSame(u, p, frames);
        MannersLists(u, p, manners);
        o, log := RunPass(frames, manners, clear, log);
        if o != Done {
          return;
        }
        PassOver(before, u, p, View(), frames);
      }
    }

    /** The inner loop of RunReadyRunners. */
    method RunPass(frames: set<nat>, ghost manners: Manners, ghost clear: Moment, ghost so: seq<Entry>)
      returns (o: Outcome, ghost log: seq<Entry>)
      requires Wired() && Inv(View(), frames) && Covered(View(), Nobody, frames) && Keeps(manners)
      requires Settled(View()) && Eligible(View()) && Tells(clear, so, frames) && Passes(so)
      modifies this, objs
      decreases TotalDue(View()), TotalLoad(View()), 7
      ensures Behaved(o, manners, old(cyclicSend), old(misused))
      ensures o == Done ==> Inv(View(), frames) && Reach(old(View()), View(), frames, 0)
      ensures o == Done ==> readyRunners == [] && (Progress(old(View()), View()) || Settled(View()))
      ensures o == Done ==> Tells(clear, log, frames) && Passes(log)
    {
      hide View, Inv, Moves, Held, Covered, TotalDue, TotalLoad, Settled, Eligible, Idle, Mannered, Obeys, ModulesObey;
      hide Story, Passes, Turn, Do;
      ghost var before := View();
      ReachRefl(before, frames);
      log := so;
      while readyRunners != []
        invariant Inv(View(), frames) && Reach(before, View(), frames, 0)
        invariant Covered(View(), Nobody, frames) && Eligible(View())
        invariant Progress(before, View()) || Settled(View())
        invariant Behaved(Done, manners, old(cyclicSend), old(misused))
        invariant Tells(clear, log, frames) && Passes(log)
        decreases TotalDue(View()), TotalLoad(View()), |readyRunners|
      {
        o, log := RunFirst(frames, manners, before, clear, log);
        if o != Done {
          return;
        }
      }
      o := Done;
    }

    /** The first runner of the ready list is taken and run. */
    method RunFirst(frames: set<nat>, ghost manners: Manners, ghost before: World, ghost clear: Moment,
                    ghost so: seq<Entry>)
      returns (o: Outcome, ghost log: seq<Entry>)
      requires Wired() && Inv(View(), frames) && Covered(View(), Nobody, frames) && Keeps(manners)
      requires readyRunners != [] && Eligible(View()) && Tells(clear, so, frames) && Passes(so)
      requires Reach(before, View(), frames, 0) && (Progress(before, View()) || Settled(View()))
      modifies this, objs
      decreases TotalDue(View()), TotalLoad(View()), 6
      ensures Behaved(o, manners, old(cyclicSend), old(misused))
      ensures o == Done ==> Inv(View(), frames) && Covered(View(), Nobody, frames) && Eligible(View())
      ensures o == Done ==> Reach(old(View()), View(), frames, 0)
      ensures o == Done ==> Progress(old(View()), View()) || |readyRunners| < |old(readyRunners)|
      ensures o == Done ==> Reach(before, View(), frames, 0) && (Progress(before, View()) || Settled(View()))
      ensures o == Done ==> Tells(clear, log, frames) && Passes(log)
    {
      hide View, Inv, Moves, Held, Covered, TotalDue, TotalLoad, Settled, Eligible, Idle, Mannered, Obeys, ModulesObey;
      hide Story, Passes, Turn, Do;
      ghost var u, a := View(), At();
      DoLists(Modules(), a);
      var runner := PopReady();
      PopReadyLaw(u, runner, frames);
      ghost var p, b := View(), At();
      MannersLists(u, p, manners);
      o, log := RunReady(runner, frames, manners);
      if o != Done {
        return;
      }
      PassTurn(Modules(), clear, so, a, b, log, At(), frames);
      log := so + ([Picked(runner)] + log);
      ReachTrans(u, p, View(), frames, 0, 0);
      ReachTrans(before, u, View(), frames, 0, 0);
      CoveredLater(u, View(), Nobody, frames);
      EligibleLater(u, View());
      if !Progress(p, View()) && Settled(u) {
        SettledPop(u, View(), runner);
      }
      IdleReady(p, View(), runner);
    }

    method RunReady(r: nat, frames: set<nat>, ghost manners: Manners) returns (o: Outcome, ghost log: seq<Entry>)
      requires Wired() && Inv(View(), frames) && Covered(View(), Nobody, frames) && Keeps(manners)
      requires r in runners && r < |objs| && r !in frames && On(r) !in yielded
      modifies this, objs
      decreases TotalDue(View()), TotalLoad(View()), 5
      ensures Behaved(o, manners, old(cyclicSend), old(misused))
      ensures o == Done ==> Inv(View(), frames) && Reach(old(View()), View(), frames, 0)
      ensures o == Done ==> Progress(old(View()), View()) || Idle(old(View()), View(), r)
      ensures o == Done && DueCount(old(View()).rs[r], old(now)) == 0
           ==> RanInTurn(old(View()).rs[r], View().rs[r], old(now))
      ensures o == Done ==> Tells(old(At()), log, frames) && Turn(log) && log[0].r == r
      ensures o == Done ==> AllRun(old(View()), View(), log) && AllTakenProcessed(Modules(), old(At()), View(), log)
    {
      hide AllRun, AllTakenProcessed;
      hide View, Inv, Moves, Held, Reach, TotalDue, TotalLoad, ModuleSteps, TaskSteps, Covered, Progress, Idle, Finish;
      hide RanInTurn, Coherent, Mannered, Obeys, ModulesObey, Story, Turn, ModulePart, TaskPart, Do;
      ghost var u, v1, v2, v3 := View(), View(), View(), View();
      ghost var a, tasks := At(), [];
      o, v1, log := RunModules(r, frames, manners);
      if o != Done {
        return;
      }
      v2 := View();
      ghost var b := At();
      o, v3, tasks := RunDueTasks(r, frames, manners);
      if o != Done {
        return;
      }
      ghost var d := At();
      Leave(r, frames, manners, u, v1, v2, v3);
      StoryTrans(Modules(), a, log, b, tasks, d, frames);
      StoryBack(Modules(), a, log + tasks, d, Left(r), At(), frames);
      TurnMade(r, log, tasks);
      log := log + tasks + [Left(r)];
      AllIsRun(a, log, frames, frames);
    }

    /** RunReady, last part: the next run time. The worlds are those at the beginning, after the due modules
        were taken, after they were processed, and after the due tasks were moved. */
    method Leave(r: nat, frames: set<nat>, ghost manners: Manners, ghost u: World, ghost v1: World, ghost v2: World,
                 ghost v3: World)
      requires Wired() && Inv(View(), frames + {r}) && Inv(u, frames) && r in u.runners && r < |objs| && r !in frames
      requires r < |u.rs| && ModuleSteps(u, v1, v2, r, frames)
      requires r < |v2.rs| && TaskSteps(v2, v3, View(), r, frames)
      requires objs[r].inFlight == [] && objs[r].queue == [] && Keeps(manners)
      modifies objs[r]
      ensures Inv(View(), frames) && Reach(u, View(), frames, 0) && Keeps(manners)
      ensures Progress(u, View()) || Idle(u, View(), r)
      ensures DueCount(u.rs[r], u.now) == 0 ==> RanInTurn(u.rs[r], View().rs[r], u.now)
      ensures Do(Modules(), old(At()), Left(r)) == Some(At())
    {
      hide View, Inv, Moves, Held, Reach, TotalDue, TotalLoad, ModuleSteps, TaskSteps, Progress, Idle, Finish;
      hide RanInTurn, Coherent, Mannered, Obeys, ModulesObey, Do;
      ghost var v4 := View();
      ActiveRunner(v4, r, frames + {r});
      FinishLaw(v4, r, frames);
      if DueCount(u.rs[r], u.now) == 0 {
        CoherentAt(u, frames, r);
        CoherentAt(v4, frames + {r}, r);
        RunReadyOrder(u, v1, v2, v3, v4, r, frames);
        FinishRan(u.rs[r], v4.rs[r], u.now);
      }
      MannersModules(v4, r, 0, manners);
      DoLeft(Modules(), At(), r);
      SettleOf(r);
      RunReadyLaw(u, v1, v2, v3, v4, View(), r, frames);
    }

    /** RunReady takes the due modules. */
    method TakeBatch(r: nat, frames: set<nat>, ghost manners: Manners) returns (readyModules: seq<Module>)
      requires Wired() && Inv(View(), frames) && Covered(View(), Nobody, frames) && Keeps(manners)
      requires r in runners && r < |objs| && r !in frames
      modifies objs[r]
      ensures View() == With(old(View()), r, TakeModules(Enter(old(View()).rs[r]), now))
      ensures readyModules == View().rs[r].inFlight && Keeps(manners)
      ensures Inv(View(), frames + {r}) && Moves(old(View()), View()) && Held(old(View()), View(), frames)
      ensures TotalDue(View()) == TotalDue(old(View())) - DueCount(old(View()).rs[r], now)
      ensures TotalLoad(View()) == TotalLoad(old(View()))
      ensures Covered(View(), On(r), frames + {r})
      ensures readyModules != [] ==> DueCount(old(View()).rs[r], now) > 0
      ensures Do(Modules(), old(At()), Entered(r, readyModules)) == Some(At())
    {
      hide View, Inv, Moves, Held, TotalDue, TotalLoad, TakeModules, Enter, Covered, Do;
      hide Mannered, Obeys, ModulesObey;
      ghost var u := View();
      DoEntered(Modules(), At(), r);
      EnterLaw(u, r, frames);
      MannersModules(u, r, 0, manners);
      readyModules := EnterRunner(r);
      CoveredEntered(u, View(), r, frames);
      TakenOnlyIfDue(u.rs[r], u.now);
    }

    /** RunReady, first part: the due modules. */
    method RunModules(r: nat, frames: set<nat>, ghost manners: Manners)
      returns (o: Outcome, ghost entered: World, ghost log: seq<Entry>)
      requires Wired() && Inv(View(), frames) && Covered(View(), Nobody, frames) && Keeps(manners)
      requires r in runners && r < |objs| && r !in frames && On(r) !in yielded
      modifies this, objs
      decreases TotalDue(View()), TotalLoad(View()), 4
      ensures Behaved(o, manners, old(cyclicSend), old(misused))
      ensures o == Done ==> Inv(View(), frames + {r}) && ModuleSteps(old(View()), entered, View(), r, frames)
      ensures o == Done ==> objs[r].inFlight == [] && Covered(View(), On(r), frames + {r}) && On(r) !in yielded
      ensures o == Done ==> Costs(old(View()), View(), 0)
      ensures o == Done ==> entered.rs[r] == TakeModules(Enter(old(View()).rs[r]), old(now))
      ensures o == Done ==> forall m | m in entered.rs[r].inFlight ::
                WaitsAgain(entered.rs[r], View().rs[r], m, now)
      ensures o == Done ==> Tells(old(At()), log, frames) && ModulePart(r, log)
    {
      hide View, Inv, Moves, Held, TotalDue, TotalLoad, TakeModules, Enter, Covered, WaitsAgain;
      hide Mannered, Obeys, ModulesObey, Story, Batch, Do;
      ghost var u, a := View(), At();
      var readyModules := TakeBatch(r, frames, manners);
      entered := View();
      ghost var b := At();
      o, log := ProcessModules(r, readyModules, frames + {r}, TotalDue(u), manners);
      if o == Done {
        StoryFewer(Modules(), b, log, At(), (frames + {r}) - {r}, frames);
        StoryBatch(Modules(), a, r, readyModules, b, log, At(), frames);
        assert ([Entered(r, readyModules)] + log)[1..] == log;
        log := [Entered(r, readyModules)] + log;
        CoveredLater(entered, View(), On(r), frames + {r});
        HeldFewer(entered, View(), (frames + {r}) - {r}, frames);
      }
    }

    /** RunReady, second part: the delayed tasks that are due and the ready tasks. */
    method RunDueTasks(r: nat, frames: set<nat>, ghost manners: Manners)
      returns (o: Outcome, ghost moved: World, ghost log: seq<Entry>)
      requires Wired() && Inv(View(), frames + {r}) && Covered(View(), On(r), frames + {r})
      requires r < |objs| && r !in frames && On(r) !in yielded && objs[r].inFlight == [] && Keeps(manners)
      modifies this, objs
      decreases TotalDue(View()), TotalLoad(View()), 2
      ensures Behaved(o, manners, old(cyclicSend), old(misused))
      ensures o == Done ==> Inv(View(), frames + {r}) && TaskSteps(old(View()), moved, View(), r, frames)
      ensures o == Done ==> objs[r].inFlight == [] && objs[r].queue == []
      ensures o == Done ==> Tells(old(At()), log, frames) && TaskPart(r, log)
    {
      hide View, Inv, Moves, Held, TotalDue, TotalLoad, MoveDue, Covered, Progress, Mannered, Obeys, ModulesObey;
      hide Story, Tasks, Do;
      ghost var u, a := View(), At();
      DoMovedDue(Modules(), a, r);
      MoveDueLaw(u, r, frames + {r});
      MannersTasks(u, r, manners);
      MoveDueOf(r);
      moved := View();
      CoveredLater(u, moved, On(r), frames + {r});
      MoveDueBatch(u.rs[r], u.now);
      ghost var b := At();
      o, log := RunTasks(r, frames + {r}, manners);
      if o == Done {
        StoryFewer(Modules(), b, log, At(), (frames + {r}) - {r}, frames);
        StoryOne(Modules(), a, MovedDue(r), b, frames);
        StoryTrans(Modules(), a, [MovedDue(r)], b, log, At(), frames);
        assert ([MovedDue(r)] + log)[1..] == log;
        log := [MovedDue(r)] + log;
        HeldAt(moved, View(), frames + {r}, r);
        HeldFewer(moved, View(), frames + {r}, frames);
        assert (frames + {r}) - {r} == frames;
      }
    }

    /** RunReady: Process() of every module of the batch, each of which then waits again. */
    method ProcessModules(r: nat, readyModules: seq<Module>, frames: set<nat>, ghost bound: nat,
                          ghost manners: Manners)
      returns (o: Outcome, ghost log: seq<Entry>)
      requires Wired() && Inv(View(), frames) && Covered(View(), On(r), frames)
      requires r in frames && r < |objs| && On(r) !in yielded && objs[r].inFlight == readyModules && Keeps(manners)
      requires readyModules != [] ==> TotalDue(View()) < bound
      modifies this, objs
      decreases bound, 0, 3
      ensures Behaved(o, manners, old(cyclicSend), old(misused))
      ensures o == Done ==> Inv(View(), frames) && Moves(old(View()), View()) && Held(old(View()), View(), frames - {r})
      ensures o == Done ==> TotalDue(View()) <= TotalDue(old(View())) && objs[r].inFlight == []
      ensures readyModules == [] ==> o == Done && View() == old(View())
      ensures o == Done ==> forall m | m in readyModules :: WaitsAgain(old(View()).rs[r], View().rs[r], m, now)
      ensures o == Done ==> Tells(old(At()), log, frames - {r}) && Batch(r, readyModules, log)
    {
      hide View, Inv, Moves, Held, TotalDue, Covered, BatchSoFar, WaitsAgain, Waits, Mannered, Obeys, ModulesObey;
      hide Story, Batch, ModuleLog, Effect, Calm, Filed;
      ghost var before, a := View(), At();
      BatchStart(before, frames, r);
      log := [];
      StoryNothing(Modules(), a, frames - {r});
      BatchNothing(r);
      for i := 0 to |readyModules|
        invariant Inv(View(), frames) && Covered(View(), On(r), frames) && On(r) !in yielded
        invariant BatchSoFar(before, View(), frames, r, readyModules[..i]) && objs[r].inFlight == readyModules[i..]
        invariant TotalDue(View()) <= TotalDue(before) && (i == 0 ==> View() == before)
        invariant Behaved(Done, manners, old(cyclicSend), old(misused))
        invariant Tells(a, log, frames - {r}) && Batch(r, readyModules[..i], log)
      {
        o, log := ProcessNext(r, readyModules[i], frames, bound, manners, a, readyModules[..i], log);
        if o != Done {
          return;
        }
        assert readyModules[..i + 1] == readyModules[..i] + [readyModules[i]];
        assert readyModules[i..][1..] == readyModules[i + 1..];
      }
      assert readyModules[..|readyModules|] == readyModules;
      BatchOver(before, View(), frames, r, readyModules);
      o := Done;
    }

    /** One module more, after some of the batch that began at the moment `a`. */
    method ProcessNext(r: nat, m: Module, frames: set<nat>, ghost bound: nat, ghost manners: Manners,
                       ghost a: Moment, ghost over: seq<Module>, ghost so: seq<Entry>)
      returns (o: Outcome, ghost log: seq<Entry>)
      requires Wired() && Inv(View(), frames) && Covered(View(), On(r), frames)
      requires r in frames && r < |objs| && On(r) !in yielded && objs[r].inFlight != [] && objs[r].inFlight[0] == m
      requires TotalDue(View()) < bound && Keeps(manners)
      requires BatchSoFar(a.world, View(), frames, r, over)
      requires Tells(a, so, frames - {r}) && Batch(r, over, so)
      modifies this, objs
      decreases bound, 0, 2
      ensures Behaved(o, manners, old(cyclicSend), old(misused))
      ensures o == Done ==> Inv(View(), frames) && Covered(View(), On(r), frames) && On(r) !in yielded
      ensures o == Done ==> BatchSoFar(a.world, View(), frames, r, over + [m])
      ensures o == Done ==> TotalDue(View()) <= TotalDue(old(View())) && objs[r].inFlight == old(objs[r].inFlight)[1..]
      ensures o == Done ==> Tells(a, log, frames - {r}) && Batch(r, over + [m], log)
    {
      hide View, Inv, Moves, Held, TotalDue, Covered, BatchSoFar, WaitsAgain, Waits, Mannered, Obeys, ModulesObey;
      hide Story, Batch, ModuleLog, Effect, Calm, Filed;
      ghost var b, until := At(), now;
      o, until, log := ProcessModule(r, m, frames, bound, manners);
      if o == Done {
        BatchStory(Modules(), a, so, b, log, At(), frames - {r}, r, over, m, process(b.calls));
        log := so + log;
        BatchMore(a.world, b.world, View(), frames, r, over, m, until);
        CoveredLater(b.world, View(), On(r), frames);
      }
    }

    /** One module: its Process() is run, and then it waits for the time that it asks for. If Process() does
        not yield, the world in between is exactly that of its actions. */
    method ProcessModule(r: nat, m: Module, frames: set<nat>, ghost bound: nat, ghost manners: Manners)
      returns (o: Outcome, ghost until: int, ghost log: seq<Entry>)
      requires Wired() && Inv(View(), frames) && Covered(View(), On(r), frames)
      requires r in frames && r < |objs| && On(r) !in yielded && objs[r].inFlight != [] && objs[r].inFlight[0] == m
      requires TotalDue(View()) < bound && Keeps(manners)
      modifies this, objs
      decreases bound, 0, 1
      ensures Behaved(o, manners, old(cyclicSend), old(misused))
      ensures o == Done ==> Inv(View(), frames) && Moves(old(View()), View()) && Held(old(View()), View(), frames - {r})
      ensures o == Done ==> TotalDue(View()) <= TotalDue(old(View())) && objs[r].inFlight == old(objs[r].inFlight)[1..]
      ensures o == Done ==> until > now && Waits(objs[r].delayedModules, m, until)
      ensures o == Done ==> moduleCalls > 0 && until == now + 1000 * untilNext(moduleCalls - 1)
      ensures o == Done ==> Tells(old(At()), log, frames - {r})
      ensures o == Done ==> ModuleLog(r, m, process(old(moduleCalls)), log)
      ensures o == Done && Calm(process(old(moduleCalls))) ==>
                var e := Effect(old(View()), old(moduleCalls) + 1, untilNext, On(r), process(old(moduleCalls)));
                e.Ended? && Filed(Moment(e.world, e.calls), r)
    {
      hide View, Inv, Moves, Held, Reach, TotalDue, TotalLoad, Covered, Requeue, With, Mannered, Obeys, ModulesObey;
      hide Story, Performs, ModuleLog, Do, Effect, Calm, Waits, Filed;
      ghost var a := At();
      until := now;
      o, log := RunProcess(r, frames, bound, manners);
      if o == Done {
        until, log := FileProcessed(r, m, frames, manners, a, process(a.calls), log);
      }
    }

    /** Process() is over, having begun with the call at that moment. */
    method FileProcessed(r: nat, m: Module, frames: set<nat>, ghost manners: Manners, ghost a: Moment,
                         ghost script: Script, ghost ran: seq<Entry>)
      returns (ghost until: int, ghost log: seq<Entry>)
      requires Wired() && Inv(View(), frames) && r in frames && r < |objs| && Keeps(manners)
      requires objs[r].inFlight != [] && objs[r].inFlight[0] == m
      requires Reach(a.world, View(), frames, Size(script))
      requires Do(Modules(), a, Processed(r, script)) == Some(Moment(a.world, a.calls + 1))
      requires Story(Modules(), Moment(a.world, a.calls + 1), ran, At(), frames) && Performs(On(r), script, ran)
      modifies `moduleCalls, objs[r]
      ensures Inv(View(), frames) && Keeps(manners)
      ensures Moves(a.world, View()) && Held(a.world, View(), frames - {r})
      ensures TotalDue(View()) <= TotalDue(a.world) && objs[r].inFlight == old(objs[r].inFlight)[1..]
      ensures until > now && Waits(objs[r].delayedModules, m, until)
      ensures moduleCalls == old(moduleCalls) + 1 && until == now + 1000 * untilNext(old(moduleCalls))
      ensures Tells(a, log, frames - {r}) && ModuleLog(r, m, script, log)
      ensures Filed(old(At()), r)
    {
      hide View, Inv, Moves, Held, Reach, TotalDue, TotalLoad, Requeue, With, Mannered, Obeys, ModulesObey;
      hide Story, Performs, ModuleLog, Do, Waits;
      ghost var d := At();
      until := FileAgain(r, m, frames, manners);
      ModuleRan(a.world, d.world, View(), frames, r, Size(script));
      StoryProcessed(Modules(), a, r, script, ran, d, m, until, At(), frames);
      log := [Processed(r, script)] + (ran + [PutBack(r, m, until)]);
    }

    /** Since that moment the module at the front of the batch was put back, and nothing else happened. */
    ghost predicate Filed(d: Moment, r: nat)
      reads this, objs
    {
      && r < |d.world.rs| && d.world.rs[r].inFlight != [] && moduleCalls == d.calls + 1
      && View() == With(d.world, r, Requeue(d.world.rs[r], d.world.now + 1000 * untilNext(d.calls)))
    }

    /** Process() of the first module of the batch. */
    method RunProcess(r: nat, frames: set<nat>, ghost bound: nat, ghost manners: Manners)
      returns (o: Outcome, ghost log: seq<Entry>)
      requires Wired() && Inv(View(), frames) && Covered(View(), On(r), frames)
      requires r in frames && r < |objs| && On(r) !in yielded && objs[r].inFlight != []
      requires TotalDue(View()) < bound && Keeps(manners)
      modifies this, objs
      decreases bound, 0, 0
      ensures Behaved(o, manners, old(cyclicSend), old(misused))
      ensures o == Done ==> Inv(View(), frames)
      ensures o == Done ==> Reach(old(View()), View(), frames, Size(process(old(moduleCalls))))
      ensures o == Done ==> objs[r].inFlight == old(objs[r].inFlight)
      ensures Do(Modules(), old(At()), Processed(r, process(old(moduleCalls))))
           == Some(Moment(old(View()), old(moduleCalls) + 1))
      ensures o == Done ==>
                Story(Modules(), Moment(old(View()), old(moduleCalls) + 1), log, At(), frames)
      ensures o == Done ==> Performs(On(r), process(old(moduleCalls)), log)
      ensures var script := process(old(moduleCalls));
              Calm(script) ==> Matches(o, Effect(old(View()), old(moduleCalls) + 1, untilNext, On(r), script))
    {
      hide View, Inv, Moves, Held, TotalDue, TotalLoad, Covered, Mannered, Obeys, ModulesObey;
      hide Story, Performs, Do, Effect;
      ghost var before := View();
      ModuleObeys(moduleCalls, manners);
      var script := NextProcess(r);
      o, log := RunScript(On(r), frames, script, manners);
      if o == Done {
        HeldAt(before, View(), frames, r);
      }
    }

    /** The module is asked for its next time and filed under it. */
    method FileAgain(r: nat, m: Module, frames: set<nat>, ghost manners: Manners) returns (ghost until: int)
      requires Wired() && Inv(View(), frames) && r in frames && r < |objs| && Keeps(manners)
      requires objs[r].inFlight != [] && objs[r].inFlight[0] == m
      modifies `moduleCalls, objs[r]
      ensures Inv(View(), frames) && Keeps(manners)
      ensures Moves(old(View()), View()) && Held(old(View()), View(), frames - {r})
      ensures TotalDue(View()) == TotalDue(old(View())) && objs[r].inFlight == old(objs[r].inFlight)[1..]
      ensures until > now && Waits(objs[r].delayedModules, m, until)
      ensures until == now + 1000 * untilNext(old(moduleCalls)) && moduleCalls == old(moduleCalls) + 1
      ensures View() == With(old(View()), r, Requeue(old(View()).rs[r], until))
      ensures Do(Modules(), old(At()), PutBack(r, m, until)) == Some(At())
    {
      hide View, Inv, Moves, Held, TotalDue, TotalLoad, Requeue, Mannered, Obeys, ModulesObey, Waits, Do;
      ghost var b := View();
      until := AskAndRequeue(r, m);
      RequeueLaw(b, r, until, frames);
      MannersModules(b, r, until, manners);
      assert View().rs[r] == Requeue(b.rs[r], until) && b.rs[r].inFlight == old(objs[r].inFlight);
      RequeueBatch(b.rs[r], until);
    }

    method AskAndRequeue(r: nat, m: Module) returns (ghost until: int)
      requires Wired() && r < |objs| && objs[r].inFlight != [] && objs[r].inFlight[0] == m
      modifies `moduleCalls, objs[r]
      ensures until == now + 1000 * untilNext(old(moduleCalls)) && moduleCalls == old(moduleCalls) + 1
      ensures until > now && View() == With(old(View()), r, Requeue(old(View()).rs[r], until))
      ensures Do(Modules(), old(At()), PutBack(r, m, until)) == Some(At())
    {
      hide Requeue, Do, With;
      DoPutBack(Modules(), At(), r);
      var waits := AskModules(1);
      until := now + 1000 * waits[0];
      RequeueOf(r, m, now + 1000 * waits[0]);
    }

    /** RunReady: runs the ready tasks until none is left. */
    method RunTasks(r: nat, frames: set<nat>, ghost manners: Manners) returns (o: Outcome, ghost log: seq<Entry>)
      requires Wired() && Inv(View(), frames) && Covered(View(), On(r), frames)
      requires r in frames && r < |objs| && On(r) !in yielded && Keeps(manners)
      modifies this, objs
      decreases TotalDue(View()), TotalLoad(View()), 1
      ensures Behaved(o, manners, old(cyclicSend), old(misused))
      ensures o == Done ==> Inv(View(), frames) && Reach(old(View()), View(), frames, 0) && objs[r].queue == []
      ensures o == Done ==> if old(objs[r].queue) == [] then View() == old(View()) else Progress(old(View()), View())
      ensures o == Done ==> Tells(old(At()), log, frames - {r}) && Tasks(r, log)
      ensures o == Done ==> AllRun(old(View()), View(), log)
      ensures o == Done && StillQueue(old(View()), r) ==> IsDrained(Modules(), old(At()), r, At())
    {
      hide View, Inv, Moves, Held, TotalDue, TotalLoad, Covered, PopFront, Mannered, Obeys, ModulesObey;
      hide Story, Performs, Tasks, AllRun, AllTakenProcessed, StillQueue, IsDrained;
      ghost var before, was := View(), At();
      ReachRefl(before, frames);
      log := [];
      StoryNothing(Modules(), was, frames - {r});
      BatchNothing(r);
      while objs[r].queue != []
        invariant Inv(View(), frames) && Covered(View(), On(r), frames)
        invariant Reach(before, View(), frames, 0) && On(r) !in yielded
        invariant View() == before || Progress(before, View())
        invariant old(objs[r].queue) == [] ==> View() == before
        invariant Behaved(Done, manners, old(cyclicSend), old(misused))
        invariant Tells(was, log, frames - {r}) && Tasks(r, log)
        decreases TotalDue(View()), TotalLoad(View())
      {
        ghost var a := At();
        ghost var one;
        o, one := RunTask(r, frames, manners, before);
        if o != Done {
          return;
        }
        StoryTrans(Modules(), was, log, a, one, At(), frames - {r});
        TaskGrows(r, log, one);
        log := log + one;
      }
      AllIsRun(was, log, frames - {r}, frames);
      IfStill(Modules(), was, r, log, At(), frames - {r});
      o := Done;
    }

    /** The front task is taken and run. */
    method RunTask(r: nat, frames: set<nat>, ghost manners: Manners, ghost before: World)
      returns (o: Outcome, ghost log: seq<Entry>)
      requires Wired() && Inv(View(), frames) && Covered(View(), On(r), frames)
      requires r in frames && r < |objs| && On(r) !in yielded && Keeps(manners) && objs[r].queue != []
      requires Reach(before, View(), frames, 0)
      modifies this, objs
      decreases TotalDue(View()), TotalLoad(View()), 0
      ensures Behaved(o, manners, old(cyclicSend), old(misused))
      ensures o == Done ==> Inv(View(), frames) && Covered(View(), On(r), frames) && On(r) !in yielded
      ensures o == Done ==> Reach(before, View(), frames, 0) && Progress(before, View())
      ensures o == Done ==> Progress(old(View()), View())
      ensures o == Done ==> Tells(old(At()), log, frames - {r}) && TaskLog(r, old(objs[r].queue)[0], log)
      ensures var w := old(View());
              var front := w.rs[r].queue[0].script;
              var popped := With(w, r, PopFront(w.rs[r], w.now));
              Calm(front) ==> Matches(o, Effect(popped, old(moduleCalls), untilNext, On(r), front))
    {
      hide View, Inv, Moves, Held, TotalDue, TotalLoad, Covered, PopFront, Mannered, Obeys, ModulesObey;
      hide Story, Performs, Do, Effect;
      ghost var a := At();
      PopLaw(a.world, r, frames);
      MannersTasks(a.world, r, manners);
      DoPopped(Modules(), a, r);
      ghost var front := objs[r].queue[0];
      var task := PopOf(r);
      ghost var b := At();
      CoveredLater(a.world, b.world, On(r), frames);
      o, log := RunScript(On(r), frames, task, manners);
      if o != Done {
        return;
      }
      CoveredLater(b.world, View(), On(r), frames);
      TaskRan(before, a.world, b.world, View(), frames, Size(task));
      ReachRefl(a.world, frames);
      TaskRan(a.world, a.world, b.world, View(), frames, Size(task));
      StoryTask(Modules(), a, r, front, b, log, At(), frames);
      assert ([Popped(r, front)] + log)[1..] == log;
      log := [Popped(r, front)] + log;
    }

    // ------------------------------------------------------------ the timer

    /** Some registered runner has this next run time. */
    ghost predicate Cached(t: Timestamp)
      reads `runners, objs
    {
      exists r :: r in runners && r < |objs| && objs[r].nextRunTime == t
    }

    /** The least next run time of the registered runners. */
    ghost predicate Soonest(t: Timestamp)
      reads `runners, objs
    {
      && (t != PlusInfinity ==> Cached(t))
      && forall r | r in runners && r < |objs| :: t.AtMost(objs[r].nextRunTime)
    }

    /** The earliest next run time, or the current time if a runner is due. */
    method NextRunTime() returns (nextTime: Timestamp)
      requires forall r | r in runners :: r < |objs|
      ensures AllAfter(View(), now) ==> !nextTime.AtMost(Micros(now)) && Soonest(nextTime)
      ensures nextTime == PlusInfinity ==> forall r | r in runners :: objs[r].nextRunTime == PlusInfinity
    {
      nextTime := PlusInfinity;
      for i := 0 to |runners|
        invariant nextTime == PlusInfinity || Cached(nextTime)
        invariant forall j | 0 <= j < i :: runners[j] < |objs| && nextTime.AtMost(objs[runners[j]].nextRunTime)
        invariant !nextTime.AtMost(Micros(now))
      {
        var r := runners[i];
        assert r in runners && r < |View().rs|;
        if objs[r].nextRunTime.AtMost(Micros(now)) {
          return Micros(now);
        }
        nextTime := Earlier(nextTime, objs[r].nextRunTime);
      }
    }

    method SetTimer(t: Option<int>)
      modifies `timer
      ensures View() == old(View()).(timer := t)
    {
      timer := t;
    }

    method SetClock(later: int)
      modifies `now
      ensures View() == Advanced(old(View()), later)
    {
      now := later;
    }

    /** One firing: runs everything that is due, once, and re-arms the timer. */
    method OnTaskTimer(ghost manners: Manners) returns (o: Outcome, ghost rounds: nat, ghost log: seq<Entry>)
      requires Wired() && Inv(View(), {}) && yielded == {} && Keeps(manners)
      modifies this, objs
      ensures Behaved(o, manners, old(cyclicSend), old(misused))
      ensures o == Done ==> rounds == 1 && yielded == {} && readyRunners == [] && now == old(now)
      ensures o == Done ==> Inv(View(), {}) && Moves(old(View()), View().(timer := old(timer)))
      ensures o == Done ==> NothingDue(View()) && AllAfter(View(), now)
      ensures o == Done ==> Armed(View(), stopUs) && (timer.Some? ==> now < stopUs && Cached(Micros(timer.value)))
      ensures o == Done ==> log != [] && log[|log| - 1] == Timer(timer) && Rounds(log[..|log| - 1])
      ensures o == Done ==> Tells(old(At()), log, {})
    {
      hide View, Inv, Moves, AllAfter, NothingDue, Cached, Mannered, Obeys, ModulesObey, Soonest, Story, Rounds, Do;
      rounds, log := 0, [];
      var nextTime := Micros(now);
      while nextTime.AtMost(Micros(now))
        invariant rounds == 0 ==> At() == old(At()) && nextTime == Micros(now)
        invariant rounds == 1 ==> Tells(old(At()), log, {}) && Rounds(log)
        invariant rounds <= 1 && (rounds == 1 ==> !nextTime.AtMost(Micros(now)))
        invariant Behaved(Done, manners, old(cyclicSend), old(misused))
        invariant Inv(View(), {}) && yielded == {} && now == old(now) && timer == old(timer)
        invariant rounds == 1 ==> NothingDue(View()) && Moves(old(View()), View())
        invariant rounds == 1 ==> readyRunners == [] && AllAfter(View(), now) && Soonest(nextTime)
        decreases 1 - rounds
      {
        o, nextTime, log := Round(manners);
        if o != Done {
          return;
        }
        rounds := rounds + 1;
      }
      log := SetNext(nextTime, old(At()), log, manners);
      o := Done;
    }

    /** What follows the loop. */
    method SetNext(nextTime: Timestamp, ghost was: Moment, ghost rounds: seq<Entry>, ghost manners: Manners)
      returns (ghost log: seq<Entry>)
      requires Inv(View(), {}) && NothingDue(View()) && Keeps(manners)
      requires AllAfter(View(), now) && !nextTime.AtMost(Micros(now)) && Soonest(nextTime)
      requires Tells(was, rounds, {}) && Rounds(rounds)
      modifies `timer
      ensures View() == old(View()).(timer := timer)
      ensures Inv(View(), {}) && NothingDue(View()) && AllAfter(View(), now) && Keeps(manners)
      ensures Armed(View(), stopUs) && (timer.Some? ==> now < stopUs && Cached(Micros(timer.value)))
      ensures log != [] && log[|log| - 1] == Timer(timer) && Rounds(log[..|log| - 1]) && Tells(was, log, {})
    {
      hide View, Inv, AllAfter, NothingDue, Cached, Mannered, Obeys, ModulesObey, Soonest, Story, Rounds, Do;
      ghost var a := At();
      Rearm(nextTime);
      DoClock(Modules(), a, now, timer);
      StoryBack(Modules(), was, rounds, a, Timer(timer), At(), {});
      log := rounds + [Timer(timer)];
      assert log[..|rounds|] == rounds;
      TimerDoesNotMatter(a.world, View());
      MannersLists(a.world, View(), manners);
      NothingDueAnyTimer(a.world, View());
      AllAfterAnyTimer(a.world, View());
    }

    /** The body of the loop. */
    method Round(ghost manners: Manners) returns (o: Outcome, nextTime: Timestamp, ghost log: seq<Entry>)
      requires Wired() && Inv(View(), {}) && yielded == {} && Keeps(manners)
      modifies this, objs
      ensures Behaved(o, manners, old(cyclicSend), old(misused))
      ensures o == Done ==> Inv(View(), {}) && Moves(old(View()), View()) && NothingDue(View())
      ensures o == Done ==> yielded == {} && readyRunners == [] && now == old(now) && timer == old(timer)
      ensures o == Done ==> AllAfter(View(), now) && !nextTime.AtMost(Micros(now)) && Soonest(nextTime)
      ensures o == Done ==> Tells(old(At()), log, {}) && Rounds(log)
    {
      hide Story, Rounds;
      hide View, Inv, Moves, Held, TotalDue, TotalLoad, Settled, Covered, NothingDue, Mannered, Obeys, ModulesObey;
      nextTime := Micros(now);
      NobodyActive(View(), Nobody);
      o, log := RunReadyRunners({}, manners);
      if o == Done {
        ReachYielded(old(View()), View(), {});
        SettledMeansAfter(View());
        RunnersExist(View(), {});
        nextTime := NextRunTime();
      }
    }

    /** The timer is set for the next run time, unless that is infinite or the stop time has been reached. */
    method Rearm(nextTime: Timestamp)
      requires AllAfter(View(), now) && !nextTime.AtMost(Micros(now)) && Soonest(nextTime)
      modifies `timer
      ensures View() == old(View()).(timer := timer)
      ensures Armed(View(), stopUs) && (timer.Some? ==> now < stopUs && Cached(Micros(timer.value)))
    {
      if now < stopUs && nextTime != PlusInfinity {
        SetTimer(Some(nextTime.us));
      } else {
        SetTimer(None);
      }
    }

    /** The simulator reaches the time for which the timer is set. */
    method Fire(ghost start: World, ghost fired: bool, ghost calm: bool, ghost manners: Manners)
      returns (o: Outcome, ghost log: seq<Entry>)
      requires Wired() && Inv(View(), {}) && yielded == {} && timer.Some? && now <= timer.value
      requires Inv(start, {}) && SoFar(start, View(), stopUs, fired, calm) && Keeps(manners)
      modifies this, objs
      ensures Behaved(o, manners, old(cyclicSend), old(misused))
      ensures o == Done ==> Inv(View(), {}) && yielded == {} && Armed(View(), stopUs) && now == old(timer).value
      ensures o == Done ==> (timer.Some? ==> now < stopUs && now < timer.value)
      ensures o == Done ==> SoFar(start, View(), stopUs, true, calm) && NothingDue(View())
      ensures o == Done ==> Tells(old(At()), log, {}) && Firing(log)
    {
      hide Story, Rounds, Firing, Do;
      hide View, Inv, Moves, Awaited, AllAfter, NothingDue, Forward, SoFar, Mannered, Obeys, ModulesObey;
      ghost var u := View();
      SetClock(timer.value);
      AdvanceInv(u, timer.value);
      ghost var v := View();
      SetTimer(None);
      TimerDoesNotMatter(v, View());
      ghost var w := View();
      MannersLists(u, w, manners);
      ghost var rounds;
      o, rounds, log := OnTaskTimer(manners);
      if o == Done {
        FiringStory(Modules(), old(At()), w, log, At());
        log := [Clock(now)] + ([Timer(None)] + log);
        MovesForward(u, w, View());
        forall i: nat, e: Posted | Tracked(start, i, e, stopUs)
          ensures Awaited(View(), i, e)
        {
          AwaitedSoFar(start, u, stopUs, fired, calm, i, e);
          FiringLaw(u, w, View(), i, e, stopUs);
        }
        SoFarFired(start, u, View(), stopUs, fired, calm);
      }
    }

    /** Something happens outside the scheduler, no later than the next firing. */
    method Happen(event: External, ghost start: World, ghost fired: bool, ghost calm: bool, ghost manners: Manners)
      returns (o: Outcome, ghost log: seq<Entry>)
      requires Wired() && Inv(View(), {}) && yielded == {} && now <= event.at
      requires (timer.Some? ==> event.at <= timer.value) && Obeys(event.script, manners)
      requires Inv(start, {}) && SoFar(start, View(), stopUs, fired, calm) && Keeps(manners)
      modifies this, objs
      ensures Behaved(o, manners, old(cyclicSend), old(misused))
      ensures o == Done ==> Inv(View(), {}) && yielded == {} && now == event.at && timer == old(timer)
      ensures o == Done && (calm && !fired ==> Calm(event.script)) ==> SoFar(start, View(), stopUs, fired, calm)
      ensures o == Done && Calm(event.script) ==> Quiet(old(View()), View())
      ensures o == Done ==> Tells(old(At()), log, {}) && log != [] && log[0] == Clock(event.at)
      ensures o == Done ==> Performs(event.context, event.script, log[1..])
    {
      hide Story, Performs, Do;
      hide View, Inv, Moves, Awaited, Covered, TotalDue, TotalLoad, Held, Costs, Forward, Quiet, Effect, SoFar;
      hide Mannered, Obeys, ModulesObey;
      ghost var u := View();
      SetClock(event.at);
      AdvanceInv(u, event.at);
      ghost var w := View();
      NobodyActive(w, event.context);
      MannersLists(u, w, manners);
      ghost var m := At();
      o, log := RunScript(event.context, {}, event.script, manners);
      if o == Done {
        DoClock(Modules(), old(At()), event.at, None);
        StoryFront(Modules(), old(At()), Clock(event.at), m, log, At(), {});
        assert ([Clock(event.at)] + log)[1..] == log;
        log := [Clock(event.at)] + log;
        CoveredLater(w, View(), event.context, {});
        MovesTimer(w, View());
        assert View() == View().(timer := w.timer);
        MovesForward(u, w, View());
        if Calm(event.script) {
          QuietLists(u, w);
          EffectIsQuiet(w, old(moduleCalls), untilNext, event.context, event.script);
          QuietTrans(u, w, View());
        }
        forall i: nat, e: Posted | Tracked(start, i, e, stopUs)
          ensures Awaited(View(), i, e)
        {
          AwaitedSoFar(start, u, stopUs, fired, calm, i, e);
          HappeningLaw(u, w, View(), i, e);
        }
        if calm && !fired ==> Calm(event.script) {
          SoFarHappened(start, u, View(), stopUs, fired, calm);
        }
      }
    }

    ghost predicate Scheduled(events: seq<External>) {
      forall i, j | 0 <= i <= j < |events| :: events[i].at <= events[j].at
    }

    /** What happens outside before the next firing never yields. */
    ghost predicate CalmBefore(events: seq<External>, next: Option<int>) {
      forall i | 0 <= i < |events| && Precedes(events[i].at, events[i].first, next) :: Calm(events[i].script)
    }

    /** The next outside event or the next firing, whichever comes first. */
    method Step(events: seq<External>, next: nat, ghost start: World, ghost fired: bool, ghost calm: bool,
                ghost manners: Manners, ghost was: Moment, ghost so: seq<Entry>)
      returns (o: Outcome, later: nat, ghost log: seq<Entry>)
      requires Wired() && Inv(View(), {}) && yielded == {} && (timer.Some? ==> now <= timer.value)
      requires next <= |events| && (timer.Some? || next < |events|) && Scheduled(events)
      requires forall i | next <= i < |events| :: now <= events[i].at
      requires Keeps(manners) && forall i | 0 <= i < |events| :: Obeys(events[i].script, manners)
      requires Inv(start, {}) && SoFar(start, View(), stopUs, fired, calm)
      requires calm && !fired ==> CalmBefore(events, timer)
      requires Tells(was, so, {}) && Simulates(events, next, so)
      modifies this, objs
      ensures Behaved(o, manners, old(cyclicSend), old(misused))
      ensures o == Done ==> Inv(View(), {}) && yielded == {} && (timer.Some? ==> now <= timer.value)
      ensures o == Done ==> next <= later <= |events| && forall i | later <= i < |events| :: now <= events[i].at
      ensures o == Done && later > next ==> later == next + 1 && timer == old(timer)
      ensures o == Done && later == next ==> old(timer).Some? && now == old(timer).value
      ensures o == Done && later == next ==> (timer.Some? ==> now < stopUs && now < timer.value)
      ensures o == Done ==> SoFar(start, View(), stopUs, fired || later == next, calm)
      ensures o == Done ==> Tells(was, log, {}) && Simulates(events, later, log)
    {
      hide View, Story, Simulates, Performs, Firing, Mannered, Obeys, ModulesObey;
      hide Inv, Moves, Armed, AllAwaited, SoFar, Quiet, Forward, NothingDue;
      ghost var a := At();
      later, log := next, [];
      if next < |events| && Precedes(events[next].at, events[next].first, timer) {
        o, log := Happen(events[next], start, fired, calm, manners);
        if o == Done {
          StoryOutside(Modules(), was, so, a, log, At(), events, next);
          later := next + 1;
        }
      } else {
        o, log := Fire(start, fired, calm, manners);
        if o == Done {
          StoryFired(Modules(), was, so, a, log, At(), events, next);
        }
      }
      log := so + log;
    }

    /** The rest of the simulation, until there is neither a timer nor an outside event. A delayed task
        that is pending at the start, with a target up to the stop time that the timer does not skip,
        runs exactly at its target; after a firing that is every one. A task whose target the timer
        skips runs exactly at the next firing, and never without a timer, unless outside code yields
        before that. So it runs on time if and only if it is not skipped. Excused is only what has been
        deleted by then, or has been lost by Start while it waited. The modules that wait at the start
        are processed exactly at their time too, or at the next firing if the timer skips that, unless
        by then a client's call has moved them. If no code sends messages, registers, deletes or uses a
        runner that is not registered, the run ends normally. */
    method RunSimulation(events: seq<External>, ghost manners: Manners) returns (o: Outcome, ghost log: seq<Entry>)
      requires Wired() && Inv(View(), {}) && yielded == {} && (timer.Some? ==> now <= timer.value)
      requires Scheduled(events) && forall i | 0 <= i < |events| :: now <= events[i].at
      requires Keeps(manners) && forall i | 0 <= i < |events| :: Obeys(events[i].script, manners)
      modifies this, objs
      ensures Behaved(o, manners, old(cyclicSend), old(misused))
      ensures manners.Polite? && !manners.sends && !old(cyclicSend) ==> o == Done
      ensures o == Done ==> Inv(View(), {}) && timer == None
      ensures o == Done ==> forall i | 0 <= i < |objs| && i !in threads :: View().rs[i].lost == {}
      ensures o == Done ==> TasksOnTime(old(View()), View(), stopUs) && ModulesOnTime(old(View()), View(), stopUs)
      ensures o == Done && CalmBefore(events, old(timer)) ==>
                SkippedLate(old(View()), View()) && OnTimeIff(old(View()), View(), stopUs)
      ensures o == Done ==> Tells(old(At()), log, {}) && Simulates(events, |events|, log)
      ensures o == Done ==> AllRun(old(View()), View(), log) && AllTakenProcessed(Modules(), old(At()), View(), log)
    {
      hide AllRun, AllTakenProcessed;
      hide Story, Simulates, Performs, Firing;
      hide View, Inv, Moves, Armed, AllAwaited, SoFar, Quiet, Forward, NothingDue, Mannered, Obeys, ModulesObey;
      hide TasksOnTime, ModulesOnTime, SkippedLate, OnTimeIff;
      ghost var start := View();
      ghost var fired := false;
      ghost var calm := CalmBefore(events, timer);
      var next := 0;
      SoFarNothing(start, stopUs, calm);
      ghost var was := At();
      log := [];
      StoryNothing(Modules(), was, {});
      SimulatesNothing(events);
      while timer.Some? || next < |events|
        invariant 0 <= next <= |events| && Inv(View(), {}) && yielded == {}
        invariant forall i | next <= i < |events| :: now <= events[i].at
        invariant timer.Some? ==> now <= timer.value
        invariant Behaved(Done, manners, old(cyclicSend), old(misused))
        invariant SoFar(start, View(), stopUs, fired, calm)
        invariant Tells(was, log, {}) && Simulates(events, next, log)
        invariant !fired ==> timer == start.timer
        decreases |events| - next,
                  if timer.None? then 0 else if timer.value < stopUs then 1 + stopUs - timer.value else 1
      {
        ghost var before := next;
        o, next, log := Step(events, next, start, fired, calm, manners, was, log);
        if o != Done {
          return;
        }
        fired := fired || next == before;
      }
      SoFarOver(start, View(), stopUs, fired, calm);
      QueuesForgetNothing(View());
      AllIsRun(was, log, {}, {});
      o := Done;
    }
  }
}
