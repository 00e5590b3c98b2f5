/** The packet queues of the sender under real concurrency: any number of producer threads in
    SendRtp and SendRtcp, against the delivery events that the simulator thread runs one at a
    time. Every compare-and-swap, push, test and schedule is a step of its own. */
module SenderProtocol {
  import opened Numbers

  datatype Kind = Rtp | Rtcp

  datatype Packet = Packet(kind: Kind, payload: seq<bv8>)

  /** What goes to the network: a packet with its sequence number. */
  datatype Numbered = Numbered(packet: Packet, number: nat)

  /** Where a producer stands in SendRtp or SendRtcp. */
  datatype Producer =
    | Idle
    | Entering(p: Packet)      // spinning on the lock
    | Pushing(p: Packet)       // in the critical section, before the push
    | Leaving(kind: Kind)      // in the critical section, after the push
    | Testing(kind: Kind)      // about to read m_running
    | Scheduling(kind: Kind)   // has read true

  /** Where the simulator thread stands in DeliveryPacket. */
  datatype Delivery = Off | Enter(kind: Kind) | Pop(kind: Kind) | Leave(kind: Kind) | Send

  datatype Thread = Deliverer | Maker(id: nat)

  datatype Owner = Free | By(t: Thread)

  /** One locked queue. `pushed` is everything ever pushed, `owner` the thread in the critical
      section, `missed` whether a producer has found m_running false while packets were queued, and
      nobody has drained the queue since. */
  datatype Channel = Channel(lock: int, queue: seq<Packet>, pushed: seq<Packet>,
                             owner: Owner, missed: bool)

  datatype State = State(
    producers: seq<Producer>, delivery: Delivery, rtp: Channel, rtcp: Channel,
    running: bool, events: nat, sendQ: seq<Packet>, next: nat, sent: seq<Numbered>)

  const NEW_CHANNEL := Channel(0, [], [], Free, false)

  function Initial(n: nat, running: bool): State {
    State(seq(n, _ => Idle), Off, NEW_CHANNEL, NEW_CHANNEL, running, 0, [], 1, [])
  }

  function Chan(s: State, k: Kind): Channel {
    if k == Rtp then s.rtp else s.rtcp
  }

  function SetChan(s: State, k: Kind, c: Channel): State {
    if k == Rtp then s.(rtp := c) else s.(rtcp := c)
  }

  // ---------------------------------------------------------------- steps

  datatype Step =
    | Call(i: nat, p: Packet)
    | ProducerMove(i: nat)
    | DeliveryMove
    | SetRunning(on: bool)

  /** atomic_cas(&lock, from, to) */
  function CompareAndSwap(c: Channel, from: int, to: int): (bool, Channel) {
    if c.lock == from then (true, c.(lock := to)) else (false, c)
  }

  /** Entering spins: when the swap fails the thread stays where it is. */
  function Acquire(c: Channel, t: Thread): (bool, Channel) {
    var (ok, d) := CompareAndSwap(c, 0, 1);
    (ok, if ok then d.(owner := By(t)) else d)
  }

  function Release(c: Channel, t: Thread): (bool, Channel) {
    var (ok, d) := CompareAndSwap(c, 1, 0);
    (ok, if ok then d.(owner := Free) else d)
  }

  function MoveProducer(s: State, i: nat): State
    requires i < |s.producers|
  {
    match s.producers[i]
    case Idle => s
    case Entering(p) =>
      var (ok, c) := Acquire(Chan(s, p.kind), Maker(i));
      if ok then SetChan(s, p.kind, c).(producers := s.producers[i := Pushing(p)]) else s
    case Pushing(p) =>
      var c := Chan(s, p.kind);
      SetChan(s, p.kind, c.(queue := c.queue + [p], pushed := c.pushed + [p]))
        .(producers := s.producers[i := Leaving(p.kind)])
    case Leaving(k) =>
      var (ok, c) := Release(Chan(s, k), Maker(i));
      if ok then SetChan(s, k, c).(producers := s.producers[i := Testing(k)]) else s
    case Testing(k) =>
      if s.running then s.(producers := s.producers[i := Scheduling(k)])
      else
        var c := Chan(s, k);
        SetChan(s, k, c.(missed := c.missed || c.queue != [])).(producers := s.producers[i := Idle])
    case Scheduling(k) =>
      s.(producers := s.producers[i := Idle], events := s.events + 1)
  }

  /** The simulator starts a pending delivery event. */
  function StartDelivery(s: State): State {
    if s.events > 0 then s.(events := s.events - 1, delivery := Enter(Rtp), sendQ := []) else s
  }

  function EnterQueue(s: State, k: Kind): State {
    var (ok, c) := Acquire(Chan(s, k), Deliverer);
    if ok then SetChan(s, k, c).(delivery := Pop(k)) else s
  }

  function PopQueue(s: State, k: Kind): State {
    var c := Chan(s, k);
    if c.queue != [] then
      SetChan(s, k, c.(queue := c.queue[1..])).(sendQ := s.sendQ + [c.queue[0]])
    else
      SetChan(s, k, c.(missed := false)).(delivery := Leave(k))
  }

  function LeaveQueue(s: State, k: Kind): State {
    var (ok, c) := Release(Chan(s, k), Deliverer);
    if ok then SetChan(s, k, c).(delivery := if k == Rtp then Enter(Rtcp) else Send) else s
  }

  /** SendToNetwork of the front packet, or the end of the delivery. */
  function SendOne(s: State): State {
    if s.sendQ == [] then s.(delivery := Off)
    else s.(sendQ := s.sendQ[1..], next := (s.next + 1) % UINT64,
            sent := s.sent + [Numbered(s.sendQ[0], s.next)])
  }

  /** One step of the simulator thread, through DeliveryPacket. */
  function MoveDelivery(s: State): State {
    match s.delivery
    case Off => StartDelivery(s)
    case Enter(k) => EnterQueue(s, k)
    case Pop(k) => PopQueue(s, k)
    case Leave(k) => LeaveQueue(s, k)
    case Send => SendOne(s)
  }

  /** An empty RTP packet is dropped before it reaches the queue. */
  function Apply(s: State, step: Step): State {
    match step
    case Call(i, p) =>
      if i < |s.producers| && s.producers[i] == Idle && p.payload != []
      then s.(producers := s.producers[i := Entering(p)]) else s
    case ProducerMove(i) => if i < |s.producers| then MoveProducer(s, i) else s
    case DeliveryMove => MoveDelivery(s)
    case SetRunning(on) => s.(running := on)
  }

  function Execute(s: State, steps: seq<Step>): State
    decreases |steps|
  {
    if steps == [] then s else Execute(Apply(s, steps[0]), steps[1..])
  }

  // ---------------------------------------------------------------- invariant

  predicate InSection(p: Producer, k: Kind) {
    (p.Pushing? && p.p.kind == k) || (p.Leaving? && p.kind == k)
  }

  predicate DelivererInSection(d: Delivery, k: Kind) {
    (d.Pop? || d.Leave?) && d.kind == k
  }

  /** The lock word and the critical sections: the lock is taken exactly while one thread, its
      owner, is inside. */
  ghost predicate Locked(s: State, k: Kind) {
    var c := Chan(s, k);
    && c.lock == (if c.owner == Free then 0 else 1)
    && (c.owner.By? && c.owner.t.Maker? ==> c.owner.t.id < |s.producers|)
    && (forall i | 0 <= i < |s.producers| :: InSection(s.producers[i], k) <==> c.owner == By(Maker(i)))
    && (DelivererInSection(s.delivery, k) <==> c.owner == By(Deliverer))
  }

  /** A producer that has pushed and will schedule, unless it finds m_running false. */
  predicate AboutToSchedule(p: Producer, k: Kind) {
    (p.Leaving? || p.Testing? || p.Scheduling?) && p.kind == k
  }

  /** A delivery in progress that has yet to drain the queue. */
  predicate WillDrain(d: Delivery, k: Kind) {
    match d
    case Off => false
    case Enter(j) => j == Rtp || k == Rtcp
    case Pop(j) => j == Rtp || k == Rtcp
    case Leave(j) => j == Rtp && k == Rtcp
    case Send => false
  }

  ghost predicate SomeoneSchedules(ps: seq<Producer>, k: Kind) {
    exists i :: 0 <= i < |ps| && AboutToSchedule(ps[i], k)
  }

  ghost predicate Covered(s: State, k: Kind) {
    || s.events > 0
    || WillDrain(s.delivery, k)
    || Chan(s, k).missed
    || SomeoneSchedules(s.producers, k)
  }

  function OfKind(ps: seq<Packet>, k: Kind): seq<Packet> {
    if ps == [] then []
    else (if ps[0].kind == k then [ps[0]] else []) + OfKind(ps[1..], k)
  }

  function Packets(ns: seq<Numbered>): seq<Packet> {
    if ns == [] then [] else [ns[0].packet] + Packets(ns[1..])
  }

  /** Everything pushed on a queue has been sent, is being sent, or is still queued: in that
      order, once each. */
  ghost predicate Conserved(s: State, k: Kind) {
    && (forall i | 0 <= i < |Chan(s, k).queue| :: Chan(s, k).queue[i].kind == k)
    && Chan(s, k).pushed == OfKind(Packets(s.sent), k) + OfKind(s.sendQ, k) + Chan(s, k).queue
  }

  /** The i-th packet sent carries number i + 1, as a 64-bit counter started at 1. */
  ghost predicate NumberedInOrder(s: State) {
    && s.next == (|s.sent| + 1) % UINT64
    && forall i | 0 <= i < |s.sent| :: s.sent[i].number == (i + 1) % UINT64
  }

  ghost predicate ChannelInv(s: State, k: Kind) {
    && Locked(s, k)
    && Conserved(s, k)
    && (Chan(s, k).queue != [] ==> Covered(s, k))
    && (s.delivery == Leave(k) ==> Chan(s, k).queue == [])
    && (Chan(s, k).missed && s.delivery != Pop(k) ==> Chan(s, k).queue != [])
  }

  ghost predicate Inv(s: State) {
    && (forall k :: ChannelInv(s, k))
    && NumberedInOrder(s)
    && (s.delivery == Off ==> s.sendQ == [])
  }
}
