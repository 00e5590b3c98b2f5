# Verified model of the WebRTC simulator for ns-3

This project models the parts of the simulator that are complete algorithms and proves what they
promise. Each part is written in the form its source has: objects with mutable fields are classes,
loops are loops with invariants, and each class is tied to a value-level specification about which
the theorems are proved.

**Simulated time** (`Timestamps`, `Scripts`, `RunnerStates`, `RunnerLaws`, `ModuleLaws`,
`SequenceRunners`, `Worlds`, `WorldLaws`, `CalmScripts`, `Logs`, `Manners`, `TimerLaws`, `ModuleTimes`,
`WholeRuns`, `LogTheorems`, `LogModules`, `SimulatedTime`, `RunnerTheorems`). A controller drives task
queues and process threads from one simulator timer. Running code is a finite tree of posts, delayed
posts, yields, synchronous sends, registrations, deletions and thread operations; a yield or send
re-enters the scheduler, so the controller's methods are mutually recursive. One invariant over the
whole scheduler survives every action at every depth of nesting. From it follow: no runner is entered
while it is active or suspended; nothing due is left when the scheduler settles; it terminates, in a
lexicographic order of module batches due now, pending work and due runners; delayed tasks run in order
of target and posting and all others in posting order, once, never early; and over whole runs delayed
tasks and the modules of process threads run exactly on time. Every method that runs code also leaves a
ghost log of single steps, each with its exact effect on the world, and ensures that the log leads from
the old state to the new one and is the performance of what the method was to run: the actions of a
script in order, with the handlers of its messages and the rounds of its yields in place, every task
taken, every module processed. So a task that counts as run, or a module that counts as processed, was
performed in full, at that time and with nothing else of its runner in between. Code that never yields
has an exact effect, given as a function, and so has a queue of such tasks. Where a promise needs a
condition, the condition is proved exact:

- a pending delayed task with a target up to the stop time runs on time if and only if there is a timer
  and it is no later than the target, as long as outside code does not yield before the next firing;
  except a task whose runner had been deleted by its target, and one that `Start` lost sight of while it
  waited. After a firing that is so of every task. A task posted between firings may have its target
  skipped; then it runs exactly at the next firing, and never if no timer is set. The same goes for the
  modules that wait on a thread, except those that a call moved before their time;
- `Start` loses sight of a waiting delayed task if and only if the thread is stopped and not in `RunReady`,
  no task is ready and no module is due as early; it keeps the cached time right for all others;
- `WakeUp`, `DeRegisterModule` and the end of `Process()` keep the books except on a stopped thread or
  for a module that is not where they look; each failure is shown on a concrete thread.

Execution ends normally if no code registers, deletes or sends, and all code uses only registered
runners; with sends only the check that nobody yields twice can fail, and only after a cyclic send.
`TimeUntilNextProcess` answers at least 1 ms.

**Packet path** (`SenderProtocol`, `SenderSafety`, `Sender`, `WebrtcTag`, `LossTrace`, `Numbers`).
Any number of producer threads push RTP and RTCP packets under compare-and-swap locks while delivery
events drain both queues; every compare-and-swap, push, test and schedule is a step, and the theorems
hold for every interleaving. The class `WebrtcSender` is the sender as one thread sees it, and an
undisturbed delivery of the protocol is proved to be its `DeliveryPacket`. The tag codec is proved
self-delimiting with its 64-bit wrap-around arithmetic. The receiver's loss counter is related to the
packets that never arrived, first for any arrivals, then end to end from a run of the sender, and
through the tags that carry the numbers.

**Frame matcher and quality analyzer** (`FrameHistory`, `FrameMatcher`, `PairStatistics`,
`QualityAnalyzer`). The
online matcher is proved against the history of its layer: which decodes a capture was compared with,
which of them is the earliest best, when it is settled, and that its pair is made at that moment. The
pairs feed the analyzer, whose counters are the numbers of pairs of each kind over all layers, whose samples
are sums over exactly those pairs, and which obey conservation laws in each layer and in the cached sum.

**Fake codec** (`FakeEncoder`, `FakeEncoderLaws`, `FakeEncoderRates`, `FakeH264`). Frame sizes follow
the bit rate to within the rounding; the debt that key frames leave is conserved and repaid; the rate
cap holds although it is computed from a rounded sum; and the decoder accepts what the encoder writes,
which follows from what the decoder accepts in general.

**Bandwidth schedule** (`BandwidthChanger`). The chain of events realises a step function of time,
and the separate integral is compared with the per-second sum of that same function.

Points where the code does not do what a reader might expect, each with its exact condition:

- `WebrtcTag`: a zero has no bytes, so a tag with a zero number or time, such as that of a packet sent
  in millisecond 0, cannot be read back; from 2^63 on the size helper answers 1 where ten bytes are
  written.
- `WebrtcTrace`: after the number 2^32 - 1 the expected number wraps to 0 for good; reordering
  makes losses count too high.
- `BandwidthChanger`: the throughput asked for between two changes leaves out the time since the
  last change, and before the first change it is 0; the chain is late by the time at which it starts.
- `FakeEncoder`: `InitEncode` keeps the old debt; raising the maximum does not bring back rates that
  were cut.
- The sender: when `m_running` is switched off and not on again, a packet stays behind if and only if it
  is queued or yet to be pushed, by a call under way or a later one, and no delivery is pending, under
  way before its queue, or about to be scheduled; if both a push and a delivery are still to come, their
  order decides.

Verify with `dafny verify dfyconfig.toml`.

## Model

| member | source | states |
|---|---|---|
| `SimulatedTime.SimulatedTimeController.RunSimulation` | ex-webrtc/model/webrtc-simu-controller.cc:137-183 | Over whole runs, with outside events at any times: a pending delayed task with a target up to the stop time that the timer does not skip runs exactly at its target, unless its runner had been deleted by then or Start lost sight of it while it waited; after a firing that is every one. One that the timer skips runs exactly at the next firing, or never without a timer, unless outside code yields first; so it is on time if and only if it is not skipped. Every waiting module is processed exactly at its time up to the stop time, or at the next firing if the timer skips it, unless a call had moved it or its thread had been deleted by then. To run means to be performed: the log of the run leads, entry by entry, to the state reached, consists of the outside scripts and the firings, and holds for every task and module that joined a history where it was taken, at the time noted, and the performance of all its actions. The run ends; it ends normally if no code that runs in it sends, registers, deletes or uses a runner that is not registered |
| `SimulatedTime.SimulatedTimeController.OnTaskTimer` | ex-webrtc/model/webrtc-simu-controller.cc:170-183 | One firing: the loop body runs exactly once; nothing due at the current time is left on any registered runner; every next run time is later; the new timer is strictly later than now, past no next run time, and is the next run time of some runner; its log is that of RunReadyRunners and the new timer. Code that uses only registered runners never makes it undefined, and without messages it ends normally |
| `SimulatedTime.SimulatedTimeController.RunReadyRunners` | ex-webrtc/model/webrtc-simu-controller.cc:100-131 | With any nesting of yields it terminates, leaves the ready list empty and nothing due on any runner that is not suspended, keeps the invariant and restores the yielded set; its log is the clearing of the list, then scans and turns of the runners picked, the last a scan; code that uses only registered runners never makes it undefined |
| `SimulatedTime.SimulatedTimeController.RunPass` | ex-webrtc/model/webrtc-simu-controller.cc:122-129 | The inner loop empties the ready list and either uses up work or leaves every due runner accounted for; it never meets a suspended or unregistered runner |
| `SimulatedTime.SimulatedTimeController.Scan` | ex-webrtc/model/webrtc-simu-controller.cc:114-119 | The scan collects exactly the registered runners that are due and not suspended, in registration order |
| `SimulatedTime.SimulatedTimeController.YieldExecution` | ex-webrtc/model/webrtc-simu-controller.cc:81-98 | While the code yields, RunReadyRunners runs: when it returns the ready list is empty, and no registered runner but the yielding one and those suspended before holds a ready task, due module or due delayed task. It never enters a runner that is active, gives back the yielded set it found, and its own check fails only after a cyclic Send; code that uses only registered runners never makes it undefined |
| `SimulatedTime.SimulatedTimeController.SendTo` | ex-webrtc/model/simulated-thread.cc:70-90 | The handler of a synchronous send runs at once in the context of the thread while the sender is suspended, and the yielded set is given back; for a handler that does not yield the outcome and the new state are exactly its effect on the suspended world |
| `SimulatedTime.SimulatedTimeController.RunReady` | ex-webrtc/model/simulated-process-thread.cc:40-80 | Entered only for a registered runner that is neither active nor suspended; it uses up work or finds the runner idle; without due modules the ready tasks run first, then the due delayed tasks by target and posting order, then the tasks posted meanwhile, none of them older, in posting order. Its log is a batch of modules, each processed and put back, then tasks, each taken and performed |
| `SimulatedTime.SimulatedTimeController.RunModules` | ex-webrtc/model/simulated-process-thread.cc:41-54 | The due modules leave the map as one batch; afterwards none is in flight and each waits again for a later time, unless a call has moved it; the due count falls by the whole batch |
| `SimulatedTime.SimulatedTimeController.ProcessModules` | ex-webrtc/model/simulated-process-thread.cc:51-54 | Whatever Process() does, it is performed for every module of the batch in order, and each waits again in the map, strictly after the current time, unless a call has moved it since |
| `SimulatedTime.SimulatedTimeController.ProcessModule` | ex-webrtc/model/simulated-process-thread.cc:52-53 | The script of exactly this Process() call is performed in the context of the thread, and after it the module waits for the time now + 1000 * the answer to the question asked then; if the script never yields, the world before that is exactly that of its effect; nested calls leave the rest of the batch alone |
| `SimulatedTime.SimulatedTimeController.RunDueTasks` | ex-webrtc/model/simulated-process-thread.cc:56-71 | The due delayed tasks join the ready tasks, and all of them have been performed, including what they posted |
| `SimulatedTime.SimulatedTimeController.RunTasks` | ex-webrtc/model/simulated-task-queue.cc:48-59 | The ready queue is drained, every task of it taken from the front and its script performed to the end before the next is taken; work strictly falls if there was any. For a queue whose tasks never yield, nor what they post, the state is exactly that of their effects one after the other |
| `SimulatedTime.SimulatedTimeController.RunTask` | ex-webrtc/model/simulated-task-queue.cc:48-54 | The front task of the queue is taken and its script performed; if that never yields, the outcome and the new state are exactly its effect |
| `SimulatedTime.SimulatedTimeController.RunScript` | ex-webrtc/model/simulated-task-queue.cc:52-52 | Each action of a task, handler or module is performed in the given context and in order, with its exact effect, a message with its handler and a yield with the rounds of the other runners in between; the invariant survives and the pending work grows by no more than the script pays for; code that never yields ends as, and leaves the state that, its actions one after the other say |
| `SimulatedTime.SimulatedTimeController.Act` | ex-webrtc/model/webrtc-simu-controller.cc:81-169 | The same for each single post, delayed post, yield, send, registration, deletion and thread operation; after a yield nothing due is left on any runner that is not suspended |
| `SimulatedTime.SimulatedTimeController.NextRunTime` | ex-webrtc/model/webrtc-simu-controller.cc:137-148 | When no runner is due, the least next run time of the registered runners: no later than any and, if finite, that of one of them; infinite only if all are |
| `SimulatedTime.SimulatedTimeController.Fire` | ex-webrtc/model/webrtc-simu-controller.cc:177-182 | The timer goes off: whatever was to run or to be processed on time does or still will, what the timer skipped runs now, nothing due is left, and the next firing is strictly later; the log is that of one firing |
| `SimulatedTime.SimulatedTimeController.Happen` | ex-webrtc/model/webrtc-simu-controller.cc:177-182 | Code outside the scheduler, between firings and in any context, is performed, makes nothing early or late that was on time and leaves the timer alone; if it never yields, nobody runs |
| `SimulatedTime.SimulatedTimeController.ActPost` | ex-webrtc/model/simulated-task-queue.cc:67-71 | Fails exactly on a runner that is not registered; otherwise the task stands last among the ready ones, the invariant holds, and the pending work grows by at most the new task |
| `SimulatedTime.SimulatedTimeController.ActPostDelayed` | ex-webrtc/model/simulated-task-queue.cc:73-80 | The same for a delayed post, filed behind all tasks with the same or an earlier target |
| `SimulatedTime.SimulatedTimeController.ActCreate` | ex-webrtc/model/webrtc-simu-controller.cc:150-153 | The runner is registered last, and the lists stay free of duplicates; fails exactly for one that is registered or deleted |
| `SimulatedTime.SimulatedTimeController.ActDelete` | ex-webrtc/model/simulated-task-queue.cc:24-36 | Succeeds exactly for a registered runner none of whose code is running or waiting: it leaves both lists, everything it held is gone, nothing else changes, and the invariant holds |
| `SimulatedTime.SimulatedTimeController.ActControl` | ex-webrtc/model/simulated-process-thread.cc:81-165 | Start, Stop, WakeUp, RegisterModule and DeRegisterModule called from anywhere, even from inside Process(), keep the invariant |
| `SimulatedTime.SimulatedTimeController.constructor` | ex-webrtc/model/webrtc-simu-controller.cc:40-45 | The first timer is set for the start time, the invariant holds, and nothing has gone wrong yet |
| `Manners.Allowed` | ex-webrtc/model/webrtc-simu-controller.cc:81-169 | What code that promises to use only registered runners may do next: no action of it meets a runner that is not there |
| `Manners.MannersFewer` | ex-webrtc/model/simulated-process-thread.cc:40-165 | Every runner operation that adds no task keeps that promise for all pending tasks |
| `Manners.MannersPostDelayed` | ex-webrtc/model/simulated-task-queue.cc:67-80 | So does a post of code that keeps it |
| `Logs.ReplayConcat` | ex-webrtc/model/webrtc-simu-controller.cc:122-129 | What two logs do one after the other: a log determines the state it leads to, entry by entry |
| `Logs.StoryTask` | ex-webrtc/model/simulated-task-queue.cc:52-52 | A task taken and then performed: the entry that takes it is followed by all its actions, during which its runner takes no step |
| `Logs.StoryProcessed` | ex-webrtc/model/simulated-process-thread.cc:52-53 | Process() and the module put back: what was taken for processing is performed, then filed |
| `LogTheorems.CalmPerforms` | ex-webrtc/model/simulated-task-queue.cc:52-52 | Whatever log performs a script that never yields, handlers included, the state afterwards is exactly its effect |
| `LogTheorems.CalmTasks` | ex-webrtc/model/simulated-task-queue.cc:48-59 | The running of a queue whose tasks never yield, nor what they post: the state is that of as many steps as tasks were taken, each the front task with its effect |
| `LogTheorems.StillEffect` | ex-webrtc/model/simulated-task-queue.cc:48-71 | Such code only ever leaves such tasks in the queue |
| `LogTheorems.WhereTaken` | ex-webrtc/model/simulated-task-queue.cc:48-54 | Each new task in the history of a runner was taken by an entry of the log, at the time noted, in the order of the history |
| `LogTheorems.StoryRuns` | ex-webrtc/model/simulated-task-queue.cc:48-54 | and its whole script was then performed before its runner took any other step |
| `LogTheorems.OneAfterTheOther` | ex-webrtc/model/simulated-task-queue.cc:48-54 | The tasks of one runner never overlap: one is over before the next is taken |
| `LogTheorems.PerformsInstantly` | ex-webrtc/model/webrtc-simu-controller.cc:170-183 | The clock stands while a script is performed, whatever yields and messages it contains |
| `LogTheorems.PendingWasRun` | ex-webrtc/model/simulated-task-queue.cc:48-59 | A delayed task that was pending and stands in the history at some time: at that time it was taken and its whole script performed |
| `LogTheorems.TrackedWasRun` | ex-webrtc/model/webrtc-simu-controller.cc:137-183 | A pending task whose target the timer does not skip, and that is not excused, was taken exactly at its target and its whole script performed at that time, while its runner did nothing else |
| `LogModules.WhereEntered` | ex-webrtc/model/simulated-process-thread.cc:43-50 | A module counts as taken at a time only if RunReady took it then as part of a batch |
| `LogModules.BatchHas` | ex-webrtc/model/simulated-process-thread.cc:51-54 | Each module of a batch has its turn: Process() performed, then put back |
| `LogModules.StoryProcesses` | ex-webrtc/model/simulated-process-thread.cc:41-54 | Whatever was taken was processed at that time, doing what that call of Process() does, and was put back for that time and the wait it asked for |
| `LogModules.BookedAreProcessed` | ex-webrtc/model/webrtc-simu-controller.cc:170-183 | A module that waited for a time the timer does not skip, and was not moved or deleted by then, was processed so at exactly that time |
| `Worlds.SuspendLaw` | ex-webrtc/model/webrtc-simu-controller.cc:93-95 | While the running code yields, every active runner is suspended |
| `Worlds.ResumeLaw` | ex-webrtc/model/webrtc-simu-controller.cc:93-96 | Afterwards the yielded set is exactly the former one and the work done is counted |
| `Worlds.WithTotals` | ex-webrtc/model/webrtc-simu-controller.cc:113-130 | A change to one runner moves the two termination measures by exactly that runner's share |
| `WorldLaws.ScanLaw` | ex-webrtc/model/webrtc-simu-controller.cc:114-119 | The scanned list is duplicate-free, registered, not suspended and complete |
| `WorldLaws.SettledMeansNothingDue` | ex-webrtc/model/webrtc-simu-controller.cc:113-121 | When no runner is left to scan, the cached times prove that no ready task, due module or due delayed task is left, although nested calls may have cleared the list |
| `WorldLaws.RunReadyLaw` | ex-webrtc/model/simulated-process-thread.cc:40-80 | RunReady makes progress in the termination order or only refreshed an idle runner's next run time |
| `WorldLaws.RunReadyOrder` | ex-webrtc/model/simulated-task-queue.cc:38-59 | Ready tasks, then due delayed tasks in order, run before anything posted during the call, and that runs in posting order |
| `WorldLaws.TurnOver` | ex-webrtc/model/simulated-task-queue.cc:48-59 | What runs after the turn that stood when RunReady began was posted since, to run at once, first in first out |
| `WorldLaws.IdleLaw` | ex-webrtc/model/simulated-process-thread.cc:72-79 | A runner with nothing due is not due after RunReady, so the scan loop ends |
| `WorldLaws.DeleteLaw` | ex-webrtc/model/simulated-task-queue.cc:24-36 | Deleting an inactive queue keeps the invariant and only lowers the work |
| `WorldLaws.ControlLaw` | ex-webrtc/model/simulated-process-thread.cc:81-165 | A thread operation makes no module due at the current time |
| `WorldLaws.RemoveKeeps` | ex-webrtc/model/webrtc-simu-controller.cc:28-35 | Removal by value from a duplicate-free list removes exactly that entry |
| `WorldLaws.RemoveSplits` | ex-webrtc/model/webrtc-simu-controller.cc:28-35 | It takes out the first place where the entry stands and keeps the rest in order |
| `WorldLaws.DueRunnersKeeps` | ex-webrtc/model/webrtc-simu-controller.cc:114-119 | The due runners of a duplicate-free list, exactly those, without duplicates |
| `CalmScripts.EffectIsQuiet` | ex-webrtc/model/webrtc-simu-controller.cc:81-98 | Code that never yields runs nobody: no history grows and what was delayed stays delayed |
| `CalmScripts.CyclicSendFails` | ex-webrtc/model/simulated-thread.cc:70-90 | Two threads that send to each other twice round: the check that nobody yields twice fails |
| `TimerLaws.FiringLaw` | ex-webrtc/model/webrtc-simu-controller.cc:170-183 | One firing keeps every awaited delayed task on time |
| `TimerLaws.HappeningLaw` | ex-webrtc/model/webrtc-simu-controller.cc:177-182 | Outside code between firings keeps every awaited delayed task on time |
| `TimerLaws.PendingAreTracked` | ex-webrtc/model/webrtc-simu-controller.cc:137-148 | After a firing the timer skips no pending target up to the stop time, unless Start has lost sight of it |
| `TimerLaws.OnTimeMoves` | ex-webrtc/model/simulated-task-queue.cc:38-80 | A stretch of execution at one time up to a target leaves the task waiting, run at exactly its target, or gone with its queue by then |
| `TimerLaws.JoinedMeansRan` | ex-webrtc/model/simulated-task-queue.cc:38-59 | A delayed task that has left the waiting list of an inactive runner has run at the current time |
| `TimerLaws.PendingRan` | ex-webrtc/model/webrtc-simu-controller.cc:170-183 | When neither timer nor event is left, every delayed task pending after a firing with a target up to the stop time has run at its target, unless its runner had been deleted by then or Start lost sight of it |
| `TimerLaws.SkippedRuns` | ex-webrtc/model/webrtc-simu-controller.cc:170-183 | A task whose target the timer skips runs exactly at the next firing, if nobody ran before it |
| `TimerLaws.NeverOnTime` | ex-webrtc/model/webrtc-simu-controller.cc:137-148 | and so never at its target, whatever becomes of its runner |
| `TimerLaws.OnTimeExactly` | ex-webrtc/model/webrtc-simu-controller.cc:137-183 | Hence such a run executes a pending task that is not excused at its target on time if and only if there is a timer no later than the target |
| `TimerLaws.SkipsOutsidePost` | ex-webrtc/model/simulated-task-queue.cc:73-80 | A concrete input: the timer at 10 ms, a post from outside at 1 ms with a delay of 2 ms |
| `ModuleTimes.KeptMeanwhile` | ex-webrtc/model/simulated-process-thread.cc:40-134 | A stretch of execution no later than the timer takes a waiting module exactly at its time, moves it by a call, or leaves it waiting |
| `ModuleTimes.FiredKept` | ex-webrtc/model/webrtc-simu-controller.cc:170-183 | A firing keeps every awaited module on time |
| `ModuleTimes.WaitingAreBooked` | ex-webrtc/model/webrtc-simu-controller.cc:137-148 | After a firing the timer skips no module that waits for a time up to the stop time |
| `ModuleTimes.AllProcessed` | ex-webrtc/model/webrtc-simu-controller.cc:170-183 | At the end of a run each of them has been processed exactly at its time, unless a call had moved it or its thread had been deleted by that time |
| `ModuleTimes.MissedTaken` | ex-webrtc/model/webrtc-simu-controller.cc:170-183 | A module whose time the timer skips is processed exactly at the next firing, if nobody ran before it |
| `WholeRuns.SoFarFired` | ex-webrtc/model/webrtc-simu-controller.cc:170-183 | One firing keeps all that the run so far promises about tasks and modules |
| `WholeRuns.SoFarOver` | ex-webrtc/model/webrtc-simu-controller.cc:137-183 | When neither timer nor event is left, that gives the theorems about whole runs |
| `RunnerTheorems.NothingLost` | ex-webrtc/model/simulated-task-queue.cc:38-80 | Each posting number handed out belongs to a task that has run, is ready or is delayed |
| `RunnerTheorems.ExecutionOrder` | ex-webrtc/model/simulated-task-queue.cc:38-80 | In every reachable state: delayed tasks ran by target, then posting order; tasks posted to run at once ran first in, first out; nothing ran twice or before it was due |
| `RunnerTheorems.ModulesInPlace` | ex-webrtc/model/simulated-process-thread.cc:81-165 | Between calls each registered module stands as often as it was registered, waiting when the thread runs and stopped when it does not |
| `RunnerTheorems.WakeUpExactly` | ex-webrtc/model/simulated-process-thread.cc:125-134 | WakeUp keeps that count if and only if the thread is started and the module is waiting |
| `RunnerTheorems.WakeUpDoubles` | ex-webrtc/model/simulated-process-thread.cc:125-134 | A concrete thread, not started, on which WakeUp leaves the module in both lists |
| `RunnerTheorems.DeRegisterExactly` | ex-webrtc/model/simulated-process-thread.cc:149-165 | DeRegisterModule keeps it if and only if the module is not in a batch already taken from the map, or stands in it again |
| `RunnerTheorems.DeRegisterInProcessKeeps` | ex-webrtc/model/simulated-process-thread.cc:149-165 | A module that deregisters itself inside Process() is put back afterwards |
| `RunnerTheorems.RequeueExactly` | ex-webrtc/model/simulated-process-thread.cc:51-54 | Putting a module back after Process() keeps it if and only if the thread was not stopped meanwhile |
| `RunnerTheorems.StopInProcessLeaves` | ex-webrtc/model/simulated-process-thread.cc:107-123 | A Stop inside Process() leaves the module in the map of a stopped thread |
| `RunnerTheorems.StartAgreesExactly` | ex-webrtc/model/simulated-process-thread.cc:98-104 | Start keeps the cached next run time right for every delayed task if and only if a task is ready, none is delayed, or some module will be due no later than the first delayed task |
| `RunnerTheorems.StartLosesExactly` | ex-webrtc/model/simulated-process-thread.cc:98-104 | It loses sight of a task if and only if it finds the thread stopped and not in RunReady, the task waiting, no task ready, and no module due as early |
| `RunnerTheorems.DueAgainExactly` | ex-webrtc/model/simulated-process-thread.cc:51-54 | A processed module is due again at once if and only if it asked for no wait |
| `RunnerTheorems.StartForgets` | ex-webrtc/model/simulated-process-thread.cc:98-104 | A concrete thread whose delayed task Start forgets |
| `RunnerTheorems.AddAllHead` | ex-webrtc/model/simulated-process-thread.cc:95-96 | The first key after filing modules is the earliest of their times and the old first key |
| `RunnerLaws.PostTaskKeeps` | ex-webrtc/model/simulated-task-queue.cc:67-71 | Posting keeps the runner coherent, its history fixed and its place in line |
| `RunnerLaws.PostDelayedTaskKeeps` | ex-webrtc/model/simulated-task-queue.cc:73-80 | Delayed posting keeps delayed tasks in order of target, then posting, and the cached time right |
| `RunnerLaws.TakeModulesKeeps` | ex-webrtc/model/simulated-process-thread.cc:43-50 | Taking the due batch keeps every registered module accounted for |
| `RunnerLaws.RequeueKeeps` | ex-webrtc/model/simulated-process-thread.cc:52-53 | So does putting a module back, which is never due at once |
| `RunnerLaws.MoveDueKeeps` | ex-webrtc/model/simulated-process-thread.cc:56-62 | Moving due tasks keeps the line of tasks in order |
| `RunnerLaws.PopFrontKeeps` | ex-webrtc/model/simulated-process-thread.cc:63-70 | Running the front task records it at the current time, not before it was due |
| `RunnerLaws.FinishKeeps` | ex-webrtc/model/simulated-process-thread.cc:72-79 | The recomputed next run time agrees with what is pending |
| `RunnerLaws.FinishAttained` | ex-webrtc/model/simulated-process-thread.cc:72-79 | It is the earliest time of a waiting module or delayed task, infinite exactly if neither is there |
| `RunnerLaws.StartKeeps` | ex-webrtc/model/simulated-process-thread.cc:81-105 | Start moves every stopped module into the map |
| `RunnerLaws.StopKeeps` | ex-webrtc/model/simulated-process-thread.cc:107-123 | Stop moves every waiting module to the stopped list |
| `RunnerLaws.WakeUpKeeps` | ex-webrtc/model/simulated-process-thread.cc:125-134 | WakeUp keeps the runner coherent |
| `RunnerLaws.RegisterKeeps` | ex-webrtc/model/simulated-process-thread.cc:136-147 | Registration adds exactly one place |
| `RunnerLaws.DeRegisterKeeps` | ex-webrtc/model/simulated-process-thread.cc:149-165 | Deregistration removes exactly one place |
| `RunnerLaws.DestroyKeeps` | ex-webrtc/model/simulated-task-queue.cc:24-36 | A deleted queue holds nothing and is never due |
| `RunnerLaws.MoveDueLine` | ex-webrtc/model/simulated-task-queue.cc:40-46 | The line grows exactly by the due tasks, in order |
| `ModuleLaws.TakeStays` | ex-webrtc/model/simulated-process-thread.cc:43-50 | A module leaves the map for RunReady only when its time has come |
| `ModuleLaws.WakeUpStays` | ex-webrtc/model/simulated-process-thread.cc:125-134 | WakeUp leaves every other module waiting where it was |
| `ModuleLaws.StopStays` | ex-webrtc/model/simulated-process-thread.cc:107-123 | Stop moves out exactly what waits |
| `ModuleLaws.DeRegisterStays` | ex-webrtc/model/simulated-process-thread.cc:149-165 | Deregistration leaves every other module waiting where it was |
| `ModuleLaws.WaitsAgainLater` | ex-webrtc/model/simulated-process-thread.cc:51-54 | A module put back for a later time stays there while the clock stands |
| `SequenceRunners.SequenceRunner.TakeDueModules` | ex-webrtc/model/simulated-process-thread.cc:43-50 | The loop hands over exactly the modules of the due keys, in key order |
| `SequenceRunners.SequenceRunner.MoveDueTasks` | ex-webrtc/model/simulated-process-thread.cc:56-62 | The loop moves exactly the due tasks, in order |
| `SequenceRunners.SequenceRunner.Start` | ex-webrtc/model/simulated-process-thread.cc:81-105 | The loop files every stopped module; the next run time leaves delayed tasks out, as the code does |
| `SequenceRunners.SequenceRunner.Stop` | ex-webrtc/model/simulated-process-thread.cc:107-123 | The loop moves all waiting modules, in key order |
| `SequenceRunners.SequenceRunner.DropModule` | ex-webrtc/model/simulated-process-thread.cc:127-130 | The search removes the first occurrence, if any |
| `SequenceRunners.SequenceRunner.WakeUp` | ex-webrtc/model/simulated-process-thread.cc:125-134 | The module leaves its place, if the search finds it, and is filed under its new time |
| `SequenceRunners.SequenceRunner.DeRegisterModule` | ex-webrtc/model/simulated-process-thread.cc:149-165 | The module leaves the list that the running flag selects, if the search finds it |
| `RunnerStates.AddToCounts` | ex-webrtc/model/simulated-process-thread.cc:132-132 | Filing a module adds exactly one occurrence of it |
| `RunnerStates.AddToSorted` | ex-webrtc/model/simulated-process-thread.cc:132-132 | and keeps the keys in order |
| `RunnerStates.RemoveModuleCounts` | ex-webrtc/model/simulated-process-thread.cc:127-130 | Removal takes away exactly one occurrence, if there is one |
| `RunnerLaws.DelayedSorted` | ex-webrtc/model/simulated-task-queue.cc:40-42 | The delayed list is sorted, so its head is the earliest |
| `SenderSafety.ApplyKeeps` | ex-webrtc/model/webrtc-sender.cc:66-157 | Every atomic step of every thread keeps the protocol invariant |
| `SenderSafety.RunInv` | ex-webrtc/model/webrtc-sender.cc:66-157 | Hence every interleaving does |
| `SenderSafety.MutualExclusion` | ex-webrtc/model/atomic-lock.h:2-36 | In every run two threads are never in one critical section, and the lock word is 0 exactly when none is |
| `SenderSafety.NoStrandedPacket` | ex-webrtc/model/webrtc-sender.cc:66-149 | While m_running stays true, a waiting packet has a delivery event pending, a delivery yet to drain it, or a producer about to schedule one |
| `SenderSafety.StrandedExactly` | ex-webrtc/model/webrtc-sender.cc:86-98 | In any run, whatever happens to m_running: a packet waits that nobody will fetch if and only if nobody will come and a producer has found m_running false while packets were queued; at rest that is any packet left |
| `SenderSafety.SwitchedOff` | ex-webrtc/model/webrtc-sender.cc:86-149 | Decided for every interleaving that follows the switch of m_running to false, until all is at rest and it is not switched on again: unless both a push, of a call under way or a later one, and a drain are still to come, a packet stays behind if and only if no drain is to come and one is queued or yet to be pushed |
| `SenderSafety.NoDrainRun` | ex-webrtc/model/webrtc-sender.cc:66-149 | Without a drain to come there will be none, and every push to come, also of later calls, leaves its packet behind |
| `SenderSafety.NoPushRun` | ex-webrtc/model/webrtc-sender.cc:66-149 | Without a push or call to come, a drain to come empties the queue |
| `SenderSafety.StoppedStrands` | ex-webrtc/model/webrtc-sender.cc:86-87 | Such a run, step by step |
| `SenderSafety.StreamsInOrder` | ex-webrtc/model/webrtc-sender.cc:123-157 | In every run each stream is sent once, in push order, and the i-th packet on the network carries number i, modulo 2^64 |
| `SenderSafety.AllSentAtRest` | ex-webrtc/model/webrtc-sender.cc:66-149 | At rest, if m_running was never off, everything pushed has been sent |
| `Sender.WebrtcSender.SendRtp` | ex-webrtc/model/webrtc-sender.cc:48-89 | An empty packet is dropped, any other is queued, and an event is scheduled if running |
| `Sender.WebrtcSender.SendRtcp` | ex-webrtc/model/webrtc-sender.cc:90-100 | The packet is queued, and an event is scheduled if running |
| `Sender.WebrtcSender.DeliveryPacket` | ex-webrtc/model/webrtc-sender.cc:123-149 | Both queues are emptied and sent, RTP first, in push order, densely numbered, each packet with its own payload and kind |
| `Sender.NumberCarries` | ex-webrtc/model/webrtc-sender.cc:123-157 | A batch goes out with every payload and kind as it was, and the i-th packet carries the next number + i modulo 2^64 |
| `Sender.DeliveryIsAtomic` | ex-webrtc/model/webrtc-sender.cc:123-149 | An undisturbed delivery of the concurrent protocol reaches, step by step, the state of DeliveryPacket as one action |
| `Sender.DeliveryMatchesClass` | ex-webrtc/model/webrtc-sender.cc:123-157 | and the network then holds what the class sends |
| `Sender.OrderDecides` | ex-webrtc/model/webrtc-sender.cc:66-149 | With both a push and a drain to come their order decides: two runs from one state, one sends the packet and one leaves it |
| `LossTrace.WebrtcTrace.OnReceiptPktInfo` | ex-webrtc/model/webrtc-trace.cc:117-123 | The counters after every arrival sequence, with 32-bit wrap-around |
| `LossTrace.LossIsExact` | ex-webrtc/model/webrtc-trace.cc:117-123 | Below the 32-bit limit m_expectSeq is m_maxSeq + 1 and m_lossPkts is m_maxSeq less the number of new maxima |
| `LossTrace.ExpectFollowsExactly` | ex-webrtc/model/webrtc-trace.cc:117-123 | m_expectSeq is m_maxSeq + 1 if and only if the number 2^32 - 1 has not arrived |
| `LossTrace.LossAgainstTruth` | ex-webrtc/model/webrtc-trace.cc:117-123 | Losses are never counted too low, and exactly if and only if no number arrives first after a larger one |
| `LossTrace.EndToEnd` | ex-webrtc/model/webrtc-trace.cc:117-123 | From any run of the sender through a network that drops but does not reorder: the count is the packets dropped before the last arrival, and those that never arrived |
| `LossTrace.TagsCarryExactly` | ex-webrtc/model/webrtc-tag.cc:37-74 | The receiver reads the numbers sent if and only if none was sent in millisecond 0, and runs out of bytes otherwise |
| `LossTrace.EndToEndThroughTags` | ex-webrtc/model/webrtc-trace.cc:117-123 | The same end to end with the numbers written to and read from the tags, for packets sent from the first millisecond on |
| `LossTrace.LossBelowMaximum` | ex-webrtc/model/webrtc-trace.cc:156-160 | The reported ratio is below one |
| `WebrtcTag.RoundTripExactly` | ex-webrtc/model/webrtc-tag.cc:37-74 | Both numbers come back and all bytes are used if and only if neither is zero |
| `WebrtcTag.SelfDelimiting` | ex-webrtc/model/webrtc-tag.cc:48-74 | A non-zero number is read back from its own bytes whatever follows |
| `WebrtcTag.DecodeIsSum` | ex-webrtc/model/webrtc-tag.cc:64-74 | On any number's bytes the wrap-around sum is its little-endian value modulo 2^64 |
| `WebrtcTag.EncodeIsOneNumber` | ex-webrtc/model/webrtc-tag.cc:48-63 | The encoding ends at its first byte without continuation bit and has the value encoded |
| `WebrtcTag.CutShort` | ex-webrtc/model/webrtc-tag.cc:64-74 | The decoder runs out of bytes if and only if all have the continuation bit |
| `WebrtcTag.VarintLength` | ex-webrtc/model/webrtc-tag.cc:6-16 | The byte count below 2^63; 1 from there on, where the signed copy is negative |
| `WebrtcTag.VarintEncode` | ex-webrtc/model/webrtc-tag.cc:48-63 | Writes exactly the encoding at the cursor, or fails exactly when it does not fit |
| `WebrtcTag.VarientDecode` | ex-webrtc/model/webrtc-tag.cc:64-74 | Reads exactly what the decoding function says, leaving the cursor after it |
| `WebrtcTag.WebrtcTag.GetSerializedSize` | ex-webrtc/model/webrtc-tag.cc:37-39 | Equals the bytes written if and only if both numbers are below 2^63; never more |
| `WebrtcTag.WebrtcTag.Serialize` | ex-webrtc/model/webrtc-tag.cc:40-43 | Writes both encodings, or fails exactly when they do not fit |
| `WebrtcTag.WebrtcTag.Deserialize` | ex-webrtc/model/webrtc-tag.cc:44-47 | Reads both numbers, or fails exactly when the bytes run out |
| `FakeH264.FakeH264Encoder.EncodeHook` | ex-webrtc/test/fake_encoder.cc:286-343 | The slices tile the image: a sequence parameter set of 8 bytes that begins with 0x67, a picture parameter set of 11 with 0x68 and an IDR slice with 0x65 on every tenth image, if it has more than 20 bytes, and one slice that begins with 0x41 otherwise; the bytes outside the headers count up from 0 across all slices |
| `FakeH264.FakeH264Encoder.NumberBytes` | ex-webrtc/test/fake_encoder.cc:328-337 | The in-place loop writes the counter everywhere but at slice starts |
| `FakeH264.FakeH264Encoder.Encode` | ex-webrtc/test/fake_encoder.cc:124-155 | Layers below 14 bytes are dropped, every other goes out at its size and in that shape and is accepted by the decoder |
| `FakeH264.PlanShaped` | ex-webrtc/test/fake_encoder.cc:286-327 | The same shape, byte values and sizes written out |
| `FakeH264.BigEnoughMeans` | ex-webrtc/test/fake_encoder.cc:124-155 | Exactly the layers below 14 bytes are dropped, and the rest keep their order |
| `FakeH264.Decode` | ex-webrtc/test/fake_decoder.cc:106-124 | The loop computes the verdict of the byte check on any input, with every read in range |
| `FakeH264.RoundTripExactly` | ex-webrtc/test/fake_decoder.cc:109-122 | The Annex B stream of an encoded image is accepted if and only if the image has at least two bytes |
| `FakeH264.DecoderMeaning` | ex-webrtc/test/fake_decoder.cc:109-122 | On any NAL units with non-empty bodies and no start code inside, the decoder accepts if and only if the bodies count up modulo 256, and never reads out of range |
| `FakeH264.CountingIsClean` | ex-webrtc/test/fake_encoder.cc:328-337 | The counter never forms a start code |
| `FakeH264.NoCodeInBody` | ex-webrtc/test/fake_decoder.cc:112-116 | nor does it reach into the next start code |
| `FakeEncoder.FakeEncoder.NextFrame` | ex-webrtc/test/fake_encoder.cc:166-231 | Frame and debt are the closed form in which layers pay in order, for any request; what that form means in bits, key frames and temporal layers follows |
| `FakeEncoder.FakeEncoder.SizeLayers` | ex-webrtc/test/fake_encoder.cc:201-228 | The loop gives every layer its size and moves the debt |
| `FakeEncoder.FakeEncoder.InitEncode` | ex-webrtc/test/fake_encoder.cc:80-89 | The last frame is forgotten, the debt is not |
| `FakeEncoder.FakeEncoder.SetRates` | ex-webrtc/test/fake_encoder.cc:244-269 | The two loops scale every rate that is set, or none |
| `FakeEncoder.FakeEncoder.SetMaxBitrate` | ex-webrtc/test/fake_encoder.cc:68-73 | The current rates are capped again under the new maximum |
| `FakeEncoderRates.AverageFits` | ex-webrtc/test/fake_encoder.cc:205-219 | Without 32-bit overflow an average is the largest whole number of bytes whose bits over a second of frames stay within the rate, rounded up to bytes, times the factor of the layer; the factors of 1 to 4 layers are 1; 2, 2; 4, 4, 2; 8, 8, 4, 2 |
| `FakeEncoderRates.FactorsShare` | ex-webrtc/test/fake_encoder.cc:28-40 | The inverses of these factors sum to one |
| `FakeEncoderRates.SizeFits` | ex-webrtc/test/fake_encoder.cc:201-228 | A delta layer without debt has that size, a layer of a key frame five times it, and a delta layer with debt at least half of it |
| `FakeEncoderRates.SecondOfFrames` | ex-webrtc/test/fake_encoder.cc:201-228 | Over a second of frames of one layer without debt the bits sent are at most rate + 7 and more than rate + 7 - 8 per frame |
| `FakeEncoderRates.FrameShape` | ex-webrtc/test/fake_encoder.cc:166-200 | One layer for each stream with a rate; a key frame exactly if asked for, listed in the frame types, or a layer is added; the temporal layer starts at 0 on a key frame and otherwise advances by one round its count |
| `FakeEncoderRates.SumAdds` | ex-webrtc/test/fake_encoder.cc:244-269 | The sum of rates adds up over the cells, one that is not set counting 0 |
| `FakeEncoderRates.KbpsRounds` | ex-webrtc/test/fake_encoder.cc:244-269 | The sum in kbps is that sum rounded down |
| `FakeEncoderLaws.DebtConserved` | ex-webrtc/test/fake_encoder.cc:201-228 | Over every run: bytes sent + debt before = bytes of the average rate + debt after |
| `FakeEncoderLaws.FrameConserves` | ex-webrtc/test/fake_encoder.cc:201-228 | The same for one frame |
| `FakeEncoderLaws.DeltaKeepsHalf` | ex-webrtc/test/fake_encoder.cc:216-227 | A delta layer keeps at least half its average; exactly half is paid while debt remains, nothing without debt |
| `FakeEncoderLaws.DebtShrinks` | ex-webrtc/test/fake_encoder.cc:216-227 | Over a run without key frames the debt goes down by exactly what the layers can pay, as long as it lasts |
| `FakeEncoderLaws.Repaid` | ex-webrtc/test/fake_encoder.cc:222-227 | A debt is gone after ceil(debt / floor(a/2)) delta layers with averages of at least a |
| `FakeEncoderLaws.CapHolds` | ex-webrtc/test/fake_encoder.cc:244-269 | The sum in kbps never exceeds a positive maximum and falls short by less than two; rates change if and only if the sum exceeds it |
| `FakeEncoderLaws.CellShare` | ex-webrtc/test/fake_encoder.cc:257-264 | Every capped rate is within one bps below its proportional share |
| `FakeEncoderLaws.CapSticks` | ex-webrtc/test/fake_encoder.cc:68-73 | Capping again under the same, a higher or no maximum changes nothing |
| `FrameMatcher.VideoFrameMatcher.EveryPair` | ex-webrtc/test/scenario/video_frame_matcher.cc:39-131 | Every pair of every layer, at any time: made the first time that a decode had settled its capture with those before it gone, or by Finalize; it carries the earliest lowest-scoring decode among the one current at capture and all those seen by then, where not wider, or none if there was none, with the number of earlier pairs that used it |
| `FrameMatcher.LayerExplains` | ex-webrtc/test/scenario/video_frame_matcher.cc:47-122 | The same for one layer |
| `FrameMatcher.PairMeaning` | ex-webrtc/test/scenario/video_frame_matcher.cc:47-97 | A pair that matches its capture up to some point of the history carries the earliest lowest-scoring candidate up to there, or none exactly if there is none |
| `FrameHistory.BestIsEarliestMinimum` | ex-webrtc/test/scenario/video_frame_matcher.cc:84-87 | The running comparison finds the earliest minimum |
| `FrameHistory.BestGrows` | ex-webrtc/test/scenario/video_frame_matcher.cc:76-91 | One more decode improves the best and unsettles the frame, or settles it |
| `FrameMatcher.KthUse` | ex-webrtc/test/scenario/video_frame_matcher.cc:118-118 | The k-th pair with a decoded frame carries repeated = k - 1 |
| `FrameMatcher.NotBeforeDecoded` | ex-webrtc/test/scenario/video_frame_matcher.cc:115-117 | No frame is rendered before it is decoded |
| `FrameMatcher.PairFields` | ex-webrtc/test/scenario/video_frame_matcher.cc:104-122 | A pair carries the captured frame, its id and time, and of its decode, if any, the frame, its id, its decode time and, as render time, the later of its render and decode times |
| `FrameMatcher.TimelyMatch` | ex-webrtc/test/scenario/video_frame_matcher.cc:72-97 | A pair made for the settled head of the queue is made at the first possible moment |
| `FrameMatcher.VideoLayer.Capture` | ex-webrtc/test/scenario/video_frame_matcher.cc:48-57 | The capture joins the queue with its history, candidates and id |
| `FrameMatcher.VideoLayer.Compare` | ex-webrtc/test/scenario/video_frame_matcher.cc:76-91 | The loop compares every queued capture with the decode |
| `FrameMatcher.VideoLayer.Decode` | ex-webrtc/test/scenario/video_frame_matcher.cc:72-97 | Exactly the settled captures at the head go out, now, and the head left is not settled |
| `FrameMatcher.VideoLayer.Drain` | ex-webrtc/test/scenario/video_frame_matcher.cc:92-97 | The loop emits the settled head, each pair with the whole history so far |
| `FrameMatcher.VideoLayer.HandleMatch` | ex-webrtc/test/scenario/video_frame_matcher.cc:104-122 | One pair more for the head, made with the whole history so far, with the decoded frame's use counted |
| `FrameMatcher.VideoLayer.Finalize` | ex-webrtc/test/scenario/video_frame_matcher.cc:126-129 | Everything queued goes out, with the whole history so far |
| `FrameMatcher.VideoFrameMatcher.OnCapturedFrame` | ex-webrtc/test/scenario/video_frame_matcher.cc:39-59 | Every layer gets the capture under one new id; no pair goes out, and nothing said of the earlier pairs changes |
| `FrameMatcher.VideoFrameMatcher.OnDecodedFrame` | ex-webrtc/test/scenario/video_frame_matcher.cc:61-98 | One layer gets the decode and emits exactly the captures at its head that this settles, with the whole history; no field of any other layer changes; an unknown layer starts here |
| `FrameMatcher.VideoFrameMatcher.RegisterLayer` | ex-webrtc/test/scenario/video_frame_matcher.cc:35-37 | A new layer starts at the next capture id |
| `FrameMatcher.VideoFrameMatcher.Finalize` | ex-webrtc/test/scenario/video_frame_matcher.cc:124-131 | In every layer all captures since it was registered have gone out once, with consecutive ids; those still queued go out with the whole history |
| `PairStatistics.FramesConserved` | ex-webrtc/test/scenario/stats_collection.cc:77-119 | Captured = lost + frozen + rendered; the skips recorded between rendered frames plus the current skip = lost + frozen |
| `PairStatistics.RenderCount` | ex-webrtc/test/scenario/stats_collection.cc:89-95 | On the matcher's pairs the rendered count is the number of distinct decoded frames |
| `PairStatistics.AggregateBalanced` | ex-webrtc/test/scenario/performance_stats.cc:32-44 | The sum over layers balances as every layer does |
| `QualityAnalyzer.VideoQualityAnalyzer.Stats` | ex-webrtc/test/scenario/stats_collection.cc:68-75 | Over the pairs of all layers, joined in the order of the ids: lost, frozen, captured and rendered counts are the numbers of pairs never decoded, shown again, all, and shown first; the pixel and resolution samples sum width * height and the longer side of those pairs, the skip samples the gaps of each layer. The cached sum is always that, and it balances |
| `PairStatistics.LayerReports` | ex-webrtc/test/scenario/stats_collection.cc:77-119 | For one layer: each counter is the number of pairs of its kind, each sample the sum over exactly those pairs |
| `PairStatistics.GapsLieBetween` | ex-webrtc/test/scenario/stats_collection.cc:89-96 | The recorded skips are the distances between consecutive rendered pairs, less one |
| `PairStatistics.TotalReports` | ex-webrtc/test/scenario/performance_stats.cc:16-44 | The sum over layers reports the layers' pairs joined: each counter is added to its own |
| `QualityAnalyzer.VideoQualityAnalyzer.SumReports` | ex-webrtc/test/scenario/stats_collection.cc:68-75 | So does the sum that the analyzer's layers give, at any time |
| `QualityAnalyzer.VideoQualityAnalyzer.SumBalances` | ex-webrtc/test/scenario/stats_collection.cc:68-75 | At any time captured = lost + frozen + rendered holds for the sum over all layers |
| `QualityAnalyzer.FedByMatcher` | ex-webrtc/test/scenario/stats_collection.cc:77-119 | Fed by the matcher, a layer counts as captured all its captures once nothing is queued, as rendered the distinct decoded frames shown, and the rest as lost or frozen |
| `QualityAnalyzer.VideoQualityAnalyzer.AddUp` | ex-webrtc/test/scenario/stats_collection.cc:70-72 | The loop adds the layers in the order of their ids |
| `QualityAnalyzer.VideoQualityAnalyzer.HandleFramePair` | ex-webrtc/test/scenario/stats_collection.cc:41-45 | One layer gets the pair, the others keep theirs, and the cache is dropped |
| `QualityAnalyzer.VideoLayerAnalyzer.HandleFramePair` | ex-webrtc/test/scenario/stats_collection.cc:77-119 | The counters and samples are those of the whole stream of pairs |
| `PairStatistics.ExpectedMore` | ex-webrtc/test/scenario/stats_collection.cc:81-96 | What one lost, frozen or rendered pair does to the statistics |
| `BandwidthChanger.BandwidthChanger.RunUntil` | scratch/webrtc-static.cc:110-130 | The event chain applies change i at its own time after the start, and leaves the device with the rate in force |
| `BandwidthChanger.BandwidthChanger.ResetBandwidth` | scratch/webrtc-static.cc:117-130 | One event applies the next change and schedules the one after it |
| `BandwidthChanger.BandwidthChanger.Start` | scratch/webrtc-static.cc:110-116 | The first change is scheduled |
| `BandwidthChanger.PunctualExactly` | scratch/webrtc-static.cc:110-130 | The changes take effect at their absolute times if and only if the chain starts at 0 |
| `BandwidthChanger.BandwidthChanger.TotalThroughput` | scratch/webrtc-static.cc:91-109 | The loop computes the sum over intervals, in whole seconds each; the last interval only after the last change |
| `BandwidthChanger.IntegralIsPerSecond` | scratch/webrtc-static.cc:91-109 | With changes in whole seconds that sum is the per-second sum of the rate in force up to stop, or up to the last change strictly before it |
| `BandwidthChanger.BitsPerSecond` | scratch/webrtc-static.cc:97-103 | The same for the intervals up to a change |
| `BandwidthChanger.BandwidthChanger.LowerBoundIndex` | scratch/webrtc-static.cc:132-136 | The number of changes strictly before a time |
| `BandwidthChanger.CountsAllExactly` | scratch/webrtc-static.cc:91-109 | With positive rates every whole second before stop is counted if and only if stop is after the last change or less than a second after the last change before it; never too much |
| `BandwidthChanger.Interval` | scratch/webrtc-static.cc:99-106 | Between two changes the rate in force is that of the earlier one |

## Left out

- The message queues of `SimulatedThread` live in a library class that is not part of this model; such a thread is a runner with the contract of a task queue, and only `Send` is modelled, without the test for a thread that is quitting.
- Locks, thread checks and current-thread setters inside the scheduler, which runs on one thread. The current task queue and the set of runners inside `RunReady` are parameters, since the setters restore them on every path.
- A post, send or thread operation on a runner that is not registered, the deletion of a runner by code that runs in it, and the reuse of a deleted one end the run as `Undefined`, about which nothing more is claimed than that such a use has happened.
- Runner objects exist from the start and creating one registers it. The order of memory addresses, names and priorities are not modelled.
- `ProcessThreadAttached` callbacks. What a module does in `Process()` and how long it asks to wait are parameters, indexed by the number of the call; waits below 1 ms, which keep a module due for ever, are excluded.
- A task is dropped once it has run; the answer of `Run()` that it wants to live on changes nothing that is modelled.
- Maps from time to tasks are lists in key order; times are unbounded integers in microseconds.
- SimulatedTime.SimulatedTimeController.RunReady: its order clause speaks of calls without due modules, which covers every task queue; on a process thread with due modules the modules go first and may post.
- SimulatedTime.SimulatedTimeController.RunSimulation: a delayed task of a process thread that `Start` has lost sight of is left out, as `RunnerTheorems.StartLosesExactly` says which; when skipped tasks and modules run is claimed for outside code that does not yield before the next firing, since a yield runs whatever is due; that a run ends normally is claimed for code that registers and deletes nobody.
- Sockets, packet contents, feedback to the call and the trace of the bandwidth estimate on the packet path. The memory model is sequential consistency, one step at a time.
- Sender.WebrtcSender.SendRtcp: an empty packet fails an assertion of the source and is excluded; the upper limit of 1500 bytes of both send methods is not modelled.
- The loss ratio is computed in floating point; the model proves only that its two counters are in order.
- Scores of the matcher are a parameter, any real-valued function of two pictures; scaling to thumbnails is part of it. Tasks posted to the matcher's queue run at once, in the order of the calls, and the layers are visited in any order.
- FrameMatcher.VideoFrameMatcher.RegisterLayer: registering a layer again, which drops its queue, is excluded.
- Pixel errors, delays, frame intervals, freeze durations and the log of the analyzer; of sample statistics only count and sum of integer samples are kept. `stats()` hands out a reference through which a caller could change the cache; the model hands out a value. With a thread configured the analyzer posts its work; the model runs it at once.
- FakeEncoder.FakeEncoder.NextFrame: layer sizes and the debt are unbounded; averages use the 32-bit products of the source, and `FakeEncoderRates` relates them to the bit rate when no product exceeds 32 bits. Streams have 1 to 4 temporal layers, at most four streams exist and the frame rate is at least 1, as the table and the divisions need.
- Rates of the allocation are unbounded naturals, floating-point frame rates, quality parameters, callbacks that fail, and the VP8 and multithreaded encoders are not modelled.
- FakeH264.FakeH264Encoder.EncodeHook: the image has at least one byte, since the source writes its first; the frame counter does not overflow. The packetizer between encoder and decoder is the Annex B stream of ITU-T H.264, written out.
- BandwidthChanger.IntegralIsPerSecond: speaks of changes in whole seconds; for others each interval is rounded down on its own. Times and bits are unbounded, and the device is there or not for a whole run.
- Topologies, sockets, file output, call clients, configuration, codec factories and frame generators: wrappers and plumbing.
