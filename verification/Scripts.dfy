/** What a queued task, a message handler or a module's Process() does to the scheduler while
    it runs: a finite tree of posts, yields, sends and runner operations. */
module Scripts {

  type Module = nat

  /** Calls that only a process thread answers. */
  datatype ThreadOp =
    | Start
    | Stop
    | WakeUp(m: Module)
    | RegisterModule(m: Module)
    | DeRegisterModule(m: Module)

  datatype Script =
    | Return
    | Post(to: nat, task: Script, next: Script)
    | PostDelayed(to: nat, ms: nat, task: Script, next: Script)
    | Yield(next: Script)
    | Send(to: nat, handler: Script, next: Script)
    | Create(id: nat, next: Script)
    | Delete(id: nat, next: Script)
    | Control(to: nat, op: ThreadOp, next: Script)

  /** A script that never yields, not even in a message handler. What it posts may. */
  predicate Calm(s: Script) {
    match s
    case Return => true
    case Post(_, _, next) => Calm(next)
    case PostDelayed(_, _, _, next) => Calm(next)
    case Yield(_) => false
    case Send(_, handler, next) => Calm(handler) && Calm(next)
    case Create(_, next) => Calm(next)
    case Delete(_, next) => Calm(next)
    case Control(_, _, next) => Calm(next)
  }

  /** The work in a script; a posted task costs one more than its own script. */
  function Size(s: Script): nat {
    match s
    case Return => 0
    case Post(_, task, next) => 2 + Size(task) + Size(next)
    case PostDelayed(_, _, task, next) => 2 + Size(task) + Size(next)
    case Yield(next) => 1 + Size(next)
    case Send(_, handler, next) => 1 + Size(handler) + Size(next)
    case Create(_, next) => 1 + Size(next)
    case Delete(_, next) => 1 + Size(next)
    case Control(_, _, next) => 1 + Size(next)
  }
}
