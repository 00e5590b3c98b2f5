/** Safety of the sender's protocol over every run: mutual exclusion, no stranded packet, and
    each stream sent once, in order, under dense sequence numbers. */
module SenderSafety {
  import opened Numbers
  import opened SenderProtocol

  // ---------------------------------------------------------------- the lock

  lemma ProducerLocked(s: State, i: nat, k: Kind)
    requires i < |s.producers| && Locked(s, k)
    ensures Locked(MoveProducer(s, i), k)
  {
    hide Locked;
    match s.producers[i]
    case Idle =>
    case Entering(_) => ProducerLockedByCas(s, i, k);
    case Leaving(_) => ProducerLockedByCas(s, i, k);
    case Pushing(_) => ProducerLockedByRest(s, i, k);
    case Testing(_) => ProducerLockedByRest(s, i, k);
    case Scheduling(_) => ProducerLockedByRest(s, i, k);
  }

  lemma ProducerLockedByCas(s: State, i: nat, k: Kind)
    requires i < |s.producers| && Locked(s, k) && (s.producers[i].Entering? || s.producers[i].Leaving?)
    ensures Locked(MoveProducer(s, i), k)
  {
    var t := MoveProducer(s, i);
    assert forall j | 0 <= j < |s.producers| && j != i :: t.producers[j] == s.producers[j];
    assert s.delivery == t.delivery;
  }

  lemma ProducerLockedByRest(s: State, i: nat, k: Kind)
    requires i < |s.producers| && Locked(s, k)
    requires s.producers[i].Pushing? || s.producers[i].Testing? || s.producers[i].Scheduling?
    ensures Locked(MoveProducer(s, i), k)
  {
    var t := MoveProducer(s, i);
    assert forall j | 0 <= j < |s.producers| && j != i :: t.producers[j] == s.producers[j];
    assert s.delivery == t.delivery;
  }

  lemma DeliveryLocked(s: State, k: Kind)
    requires Locked(s, k)
    ensures Locked(MoveDelivery(s), k)
  {
    hide MoveDelivery, EnterQueue, LeaveQueue, PopQueue, SendOne, StartDelivery, Locked;
    match s.delivery
    case Off => DeliveryLockedByOff(s, k);
    case Enter(j) => DeliveryLockedByEnter(s, j, k);
    case Pop(j) => DeliveryLockedByPop(s, j, k);
    case Leave(j) => DeliveryLockedByLeave(s, j, k);
    case Send => DeliveryLockedByOff(s, k);
  }

  lemma DeliveryLockedByOff(s: State, k: Kind)
    requires Locked(s, k) && (s.delivery == Off || s.delivery == Send)
    ensures Locked(MoveDelivery(s), k)
  {
  }

  lemma DeliveryLockedByEnter(s: State, j: Kind, k: Kind)
    requires Locked(s, k) && s.delivery == Enter(j)
    ensures Locked(MoveDelivery(s), k)
  {
  }

  lemma DeliveryLockedByPop(s: State, j: Kind, k: Kind)
    requires Locked(s, k) && s.delivery == Pop(j)
    ensures Locked(MoveDelivery(s), k)
  {
  }

  lemma DeliveryLockedByLeave(s: State, j: Kind, k: Kind)
    requires Locked(s, k) && s.delivery == Leave(j)
    ensures Locked(MoveDelivery(s), k)
  {
  }

  // ---------------------------------------------------------------- the streams

  lemma {:induction false} OfKindConcat(a: seq<Packet>, b: seq<Packet>, k: Kind)
    ensures OfKind(a + b, k) == OfKind(a, k) + OfKind(b, k)
  {
    if a == [] {
      assert a + b == b;
    } else {
      assert (a + b)[1..] == a[1..] + b && (a + b)[0] == a[0];
      OfKindConcat(a[1..], b, k);
      var first := if a[0].kind == k then [a[0]] else [];
      assert first + (OfKind(a[1..], k) + OfKind(b, k)) == (first + OfKind(a[1..], k)) + OfKind(b, k);
    }
  }

  lemma {:induction false} PacketsConcat(a: seq<Numbered>, b: seq<Numbered>)
    ensures Packets(a + b) == Packets(a) + Packets(b)
  {
    if a == [] {
      assert a + b == b;
    } else {
      assert (a + b)[1..] == a[1..] + b;
      PacketsConcat(a[1..], b);
    }
  }

  lemma OfKindOne(p: Packet, k: Kind)
    ensures OfKind([p], k) == if p.kind == k then [p] else []
  {
    assert [p][1..] == [];
  }

  lemma ProducerConserved(s: State, i: nat, k: Kind)
    requires i < |s.producers| && Conserved(s, k)
    ensures Conserved(MoveProducer(s, i), k)
  {
    hide OfKind, Packets, MoveProducer, Chan;
    ProducerStreams(s, i, k);
    var c, d := Chan(s, k), Chan(MoveProducer(s, i), k);
    if d.queue != c.queue {
      var more := [d.queue[|c.queue|]];
      var sent, sending := OfKind(Packets(s.sent), k), OfKind(s.sendQ, k);
      assert sent + sending + (c.queue + more) == (sent + sending + c.queue) + more;
    }
  }

  /** A producer only adds its packet at the end of its queue. */
  lemma ProducerStreams(s: State, i: nat, k: Kind)
    requires i < |s.producers|
    ensures var t := MoveProducer(s, i);
            var c, d := Chan(s, k), Chan(t, k);
            && t.sent == s.sent && t.sendQ == s.sendQ
            && ((d.queue == c.queue && d.pushed == c.pushed)
                || exists p: Packet :: p.kind == k && d.queue == c.queue + [p] && d.pushed == c.pushed + [p])
  {
    if s.producers[i].Pushing? {
      ProducerPushes(s, i, k);
    }
  }

  lemma ProducerPushes(s: State, i: nat, k: Kind)
    requires i < |s.producers| && s.producers[i].Pushing?
    ensures var c, d, p := Chan(s, k), Chan(MoveProducer(s, i), k), s.producers[i].p;
            if p.kind == k then d.queue == c.queue + [p] && d.pushed == c.pushed + [p]
            else d.queue == c.queue && d.pushed == c.pushed
  {
  }

  lemma DeliveryConserved(s: State, k: Kind)
    requires (forall j :: Conserved(s, j)) && (s.delivery == Off ==> s.sendQ == [])
    ensures Conserved(MoveDelivery(s), k)
  {
    hide OfKind, Packets;
    assert Conserved(s, k);
    match s.delivery
    case Pop(j) =>
      if Chan(s, j).queue != [] {
        PopConserved(s, j, k);
      }
    case Send =>
      if s.sendQ != [] {
        SendConserved(s, k);
      }
    case _ =>
  }

  lemma PopConserved(s: State, j: Kind, k: Kind)
    requires Conserved(s, k) && Conserved(s, j) && s.delivery == Pop(j) && Chan(s, j).queue != []
    ensures Conserved(MoveDelivery(s), k)
  {
    hide OfKind, Packets;
    var p := Chan(s, j).queue[0];
    OfKindConcat(s.sendQ, [p], k);
    OfKindOne(p, k);
  }

  lemma SendConserved(s: State, k: Kind)
    requires Conserved(s, k) && s.delivery == Send && s.sendQ != []
    ensures Conserved(MoveDelivery(s), k)
  {
    hide OfKind;
    var n := Numbered(s.sendQ[0], s.next);
    PacketsConcat(s.sent, [n]);
    assert Packets([n]) == [n.packet];
    OfKindConcat(Packets(s.sent), [n.packet], k);
    OfKindConcat([s.sendQ[0]], s.sendQ[1..], k);
    assert s.sendQ == [s.sendQ[0]] + s.sendQ[1..];
  }

  // ---------------------------------------------------------------- no stranded packet

  lemma ProducerCovered(s: State, i: nat, k: Kind)
    requires i < |s.producers|
    requires Chan(s, k).queue != [] ==> Covered(s, k)
    ensures Chan(MoveProducer(s, i), k).queue != [] ==> Covered(MoveProducer(s, i), k)
  {
    var t := MoveProducer(s, i);
    if Chan(t, k).queue != [] {
      if s.producers[i].Pushing? && s.producers[i].p.kind == k {
        assert AboutToSchedule(t.producers[i], k);
      } else if SomeoneSchedules(s.producers, k) {
        var j :| 0 <= j < |s.producers| && AboutToSchedule(s.producers[j], k);
        assert t.events > 0 || Chan(t, k).missed || AboutToSchedule(t.producers[j], k);
      }
    }
  }

  lemma DeliveryCovered(s: State, k: Kind)
    requires Chan(s, k).queue != [] ==> Covered(s, k)
    ensures Chan(MoveDelivery(s), k).queue != [] ==> Covered(MoveDelivery(s), k)
  {
    hide SomeoneSchedules;
    DeliveryProducers(s);
    match s.delivery
    case Pop(j) => PopCovered(s, j, k);
    case _ =>
  }

  lemma PopCovered(s: State, j: Kind, k: Kind)
    requires (Chan(s, k).queue != [] ==> Covered(s, k)) && s.delivery == Pop(j)
    ensures Chan(PopQueue(s, j), k).queue != [] ==> Covered(PopQueue(s, j), k)
  {
    hide SomeoneSchedules;
  }

  lemma DeliveryProducers(s: State)
    ensures MoveDelivery(s).producers == s.producers
  {
  }

  /** While delivery holds the lock nobody can push, so it leaves an empty queue behind. */
  lemma ProducerLeavesEmpty(s: State, i: nat, k: Kind)
    requires i < |s.producers| && Locked(s, k)
    requires s.delivery == Leave(k) ==> Chan(s, k).queue == []
    ensures s.delivery == Leave(k) ==> Chan(MoveProducer(s, i), k).queue == []
  {
    assert InSection(s.producers[i], k) <==> Chan(s, k).owner == By(Maker(i));
  }

  lemma ProducerMisses(s: State, i: nat, k: Kind)
    requires i < |s.producers|
    requires Chan(s, k).missed && s.delivery != Pop(k) ==> Chan(s, k).queue != []
    ensures var t := MoveProducer(s, i);
            Chan(t, k).missed && s.delivery != Pop(k) ==> Chan(t, k).queue != []
  {
  }

  // ---------------------------------------------------------------- every step, every run

  lemma ProducerKeeps(s: State, i: nat)
    requires Inv(s) && i < |s.producers|
    ensures Inv(MoveProducer(s, i))
  {
    hide Locked, Conserved, Covered, Chan;
    forall k
      ensures ChannelInv(MoveProducer(s, i), k)
    {
      assert ChannelInv(s, k);
      ProducerLocked(s, i, k);
      ProducerConserved(s, i, k);
      ProducerCovered(s, i, k);
      ProducerLeavesEmpty(s, i, k);
      ProducerMisses(s, i, k);
      ProducerDelivery(s, i);
    }
    ProducerDelivery(s, i);
  }

  lemma ProducerDelivery(s: State, i: nat)
    requires i < |s.producers|
    ensures var t := MoveProducer(s, i);
            t.delivery == s.delivery && t.sendQ == s.sendQ && t.sent == s.sent && t.next == s.next
  {
  }

  lemma DeliveryKeeps(s: State)
    requires Inv(s)
    ensures Inv(MoveDelivery(s))
  {
    hide Locked, Conserved, Covered, MoveDelivery, Chan;
    var t := MoveDelivery(s);
    DeliveryNumbers(s);
    forall k
      ensures ChannelInv(t, k)
    {
      assert ChannelInv(s, k);
      forall j
        ensures Conserved(s, j)
      {
        assert ChannelInv(s, j);
      }
      DeliveryLocked(s, k);
      DeliveryConserved(s, k);
      DeliveryCovered(s, k);
      DeliveryDrains(s, k);
    }
  }

  lemma DeliveryNumbers(s: State)
    requires NumberedInOrder(s) && (s.delivery == Off ==> s.sendQ == [])
    ensures NumberedInOrder(MoveDelivery(s))
    ensures MoveDelivery(s).delivery == Off ==> MoveDelivery(s).sendQ == []
  {
    hide EnterQueue, LeaveQueue, PopQueue, SendOne, StartDelivery;
    match s.delivery
    case Enter(k) => EnterOnly(s, k);
    case Pop(k) => PopOnly(s, k);
    case Leave(k) => LeaveOnly(s, k);
    case Send => SendNumbers(s);
    case Off => StartNumbers(s);
  }

  lemma SendNumbers(s: State)
    requires NumberedInOrder(s)
    ensures NumberedInOrder(SendOne(s))
    ensures SendOne(s).delivery == Off ==> SendOne(s).sendQ == [] || s.delivery == Off
  {
    if s.sendQ != [] {
      var t := SendOne(s);
      assert t.next == (|s.sent| + 2) % UINT64 by {
        NextWraps(|s.sent| + 1);
      }
      assert forall i | 0 <= i < |s.sent| :: t.sent[i] == s.sent[i];
    }
  }

  lemma NextWraps(n: nat)
    ensures (n % UINT64 + 1) % UINT64 == (n + 1) % UINT64
  {
  }

  lemma StartNumbers(s: State)
    ensures var t := StartDelivery(s);
            t.sent == s.sent && t.next == s.next && (t.sendQ == [] || t.sendQ == s.sendQ)
  {
  }

  lemma PopOnly(s: State, k: Kind)
    requires s.delivery == Pop(k)
    ensures var t := PopQueue(s, k); t.sent == s.sent && t.next == s.next && t.delivery != Off
  {
  }

  lemma LeaveOnly(s: State, k: Kind)
    requires s.delivery == Leave(k)
    ensures var t := LeaveQueue(s, k); t.sent == s.sent && t.next == s.next && t.delivery != Off
  {
  }

  lemma EnterOnly(s: State, k: Kind)
    requires s.delivery == Enter(k)
    ensures var t := EnterQueue(s, k); t.sent == s.sent && t.next == s.next && t.delivery != Off
  {
  }

  /** A drain leaves the queue only when it is empty, and nobody has missed anything then. */
  lemma DeliveryDrains(s: State, k: Kind)
    requires s.delivery == Leave(k) ==> Chan(s, k).queue == []
    requires Chan(s, k).missed && s.delivery != Pop(k) ==> Chan(s, k).queue != []
    ensures var t := MoveDelivery(s);
            && (t.delivery == Leave(k) ==> Chan(t, k).queue == [])
            && (Chan(t, k).missed && t.delivery != Pop(k) ==> Chan(t, k).queue != [])
  {
    hide EnterQueue, LeaveQueue, PopQueue;
    match s.delivery
    case Enter(j) => DrainsByEnter(s, j, k);
    case Pop(j) => DrainsByPop(s, j, k);
    case Leave(j) => DrainsByLeave(s, j, k);
    case _ =>
  }

  lemma DrainsByEnter(s: State, j: Kind, k: Kind)
    requires s.delivery == Enter(j) && (Chan(s, k).missed ==> Chan(s, k).queue != [])
    ensures var t := EnterQueue(s, j);
            !t.delivery.Leave? && (Chan(t, k).missed && t.delivery != Pop(k) ==> Chan(t, k).queue != [])
  {
  }

  lemma DrainsByPop(s: State, j: Kind, k: Kind)
    requires s.delivery == Pop(j) && (Chan(s, k).missed && j != k ==> Chan(s, k).queue != [])
    ensures var t := PopQueue(s, j);
            && (t.delivery == Leave(k) ==> Chan(t, k).queue == [])
            && (Chan(t, k).missed && t.delivery != Pop(k) ==> Chan(t, k).queue != [])
  {
  }

  lemma DrainsByLeave(s: State, j: Kind, k: Kind)
    requires s.delivery == Leave(j) && (j == k ==> Chan(s, k).queue == [])
    requires Chan(s, k).missed ==> Chan(s, k).queue != []
    ensures var t := LeaveQueue(s, j);
            && (t.delivery == Leave(k) ==> Chan(t, k).queue == [])
            && (Chan(t, k).missed && t.delivery != Pop(k) ==> Chan(t, k).queue != [])
  {
  }

  lemma ApplyKeeps(s: State, step: Step)
    requires Inv(s)
    ensures Inv(Apply(s, step))
  {
    hide OfKind, Packets;
    match step
    case Call(i, p) => CallKeeps(s, i, p);
    case ProducerMove(i) =>
      if i < |s.producers| {
        ProducerKeeps(s, i);
      }
    case DeliveryMove => DeliveryKeeps(s);
    case SetRunning(on) => RunningKeeps(s, on);
  }

  lemma RunningKeeps(s: State, on: bool)
    requires Inv(s)
    ensures Inv(s.(running := on))
  {
    hide OfKind, Packets;
    var t := s.(running := on);
    forall k
      ensures ChannelInv(t, k)
    {
      assert ChannelInv(s, k);
    }
  }

  lemma CallKeeps(s: State, i: nat, p: Packet)
    requires Inv(s)
    ensures Inv(Apply(s, Call(i, p)))
  {
    hide OfKind, Packets;
    var t := Apply(s, Call(i, p));
    forall k
      ensures ChannelInv(t, k)
    {
      assert ChannelInv(s, k);
      if Chan(s, k).queue != [] && SomeoneSchedules(s.producers, k) {
        var j :| 0 <= j < |s.producers| && AboutToSchedule(s.producers[j], k);
        assert t.producers[j] == s.producers[j];
      }
    }
  }

  lemma InitialInv(n: nat, running: bool)
    ensures Inv(Initial(n, running))
  {
    forall k
      ensures ChannelInv(Initial(n, running), k)
    {
    }
  }

  /** Every run keeps the invariant. */
  lemma {:induction false} RunInv(s: State, steps: seq<Step>)
    requires Inv(s)
    ensures Inv(Execute(s, steps))
    decreases |steps|
  {
    hide Inv, Apply;
    if steps != [] {
      ApplyKeeps(s, steps[0]);
      RunInv(Apply(s, steps[0]), steps[1..]);
    }
  }

  /** Two threads are never inside the critical section of the same queue. */
  lemma MutualExclusion(n: nat, running: bool, steps: seq<Step>, k: Kind)
    ensures var s := Execute(Initial(n, running), steps);
            && (forall i, j | 0 <= i < j < |s.producers| ::
                  !(InSection(s.producers[i], k) && InSection(s.producers[j], k)))
            && (DelivererInSection(s.delivery, k) ==>
                  forall i | 0 <= i < |s.producers| :: !InSection(s.producers[i], k))
            && (Chan(s, k).lock == 0 <==>
                  && !DelivererInSection(s.delivery, k)
                  && forall i | 0 <= i < |s.producers| :: !InSection(s.producers[i], k))
  {
    hide InSection, DelivererInSection, Conserved, Covered, NumberedInOrder, Execute, Initial;
    InitialInv(n, running);
    RunInv(Initial(n, running), steps);
    var s := Execute(Initial(n, running), steps);
    assert ChannelInv(s, k) && Locked(s, k);
    var c := Chan(s, k);
    if c.owner.By? && c.owner.t.Maker? {
      assert InSection(s.producers[c.owner.t.id], k);
    }
  }

  predicate Quiescent(s: State) {
    s.events == 0 && s.delivery == Off && forall i | 0 <= i < |s.producers| :: s.producers[i] == Idle
  }

  /** m_running is never switched off. */
  predicate NeverStopped(steps: seq<Step>) {
    forall i | 0 <= i < |steps| :: steps[i] != SetRunning(false)
  }

  lemma MissedOnlyStopped(s: State, step: Step, k: Kind)
    requires s.running && !Chan(s, k).missed && step != SetRunning(false)
    ensures Apply(s, step).running && !Chan(Apply(s, step), k).missed
  {
  }

  lemma {:induction false} NeverMissed(s: State, steps: seq<Step>, k: Kind)
    requires s.running && !Chan(s, k).missed && NeverStopped(steps)
    ensures !Chan(Execute(s, steps), k).missed
    decreases |steps|
  {
    hide Apply, Chan;
    if steps != [] {
      MissedOnlyStopped(s, steps[0], k);
      NeverMissed(Apply(s, steps[0]), steps[1..], k);
    }
  }

  /** While m_running stays true, a packet that waits in a queue is about to be fetched: a delivery
      event is pending, a delivery has yet to drain the queue, or a producer will schedule one. */
  lemma NoStrandedPacket(n: nat, steps: seq<Step>, k: Kind)
    requires NeverStopped(steps)
    ensures var s := Execute(Initial(n, true), steps);
            Chan(s, k).queue != [] ==>
              s.events > 0 || WillDrain(s.delivery, k) || SomeoneSchedules(s.producers, k)
  {
    hide Locked, Conserved, SomeoneSchedules, WillDrain, Execute, Initial, NumberedInOrder;
    InitialInv(n, true);
    RunInv(Initial(n, true), steps);
    InitialMissed(n, k);
    NeverMissed(Initial(n, true), steps, k);
    assert ChannelInv(Execute(Initial(n, true), steps), k);
  }

  /** Whatever happens to m_running, in every reachable state: a packet waits that nobody
      will fetch if and only if nobody will come and a producer has found m_running false while packets
      were queued. */
  lemma StrandedExactly(n: nat, running: bool, steps: seq<Step>, k: Kind)
    ensures var s := Execute(Initial(n, running), steps);
            var coming := s.events > 0 || WillDrain(s.delivery, k) || SomeoneSchedules(s.producers, k);
            && (Chan(s, k).queue != [] && !coming <==> Chan(s, k).missed && !coming)
            && (Quiescent(s) ==> (Chan(s, k).queue != [] <==> Chan(s, k).missed))
  {
    hide Locked, Conserved, SomeoneSchedules, Execute, Initial, NumberedInOrder;
    InitialInv(n, running);
    RunInv(Initial(n, running), steps);
    var s := Execute(Initial(n, running), steps);
    assert ChannelInv(s, k);
    if Quiescent(s) {
      NobodyComes(s, k);
    }
  }

  lemma NobodyComes(s: State, k: Kind)
    requires Quiescent(s)
    ensures s.events == 0 && !WillDrain(s.delivery, k) && !SomeoneSchedules(s.producers, k)
  {
  }

  lemma InitialMissed(n: nat, k: Kind)
    ensures Initial(n, true).running && !Chan(Initial(n, true), k).missed
  {
  }

  /** In every reachable state each stream has been sent once, in push order, and the i-th packet
      on the network carries number i + 1. */
  lemma StreamsInOrder(n: nat, running: bool, steps: seq<Step>, k: Kind)
    ensures var s := Execute(Initial(n, running), steps);
            && OfKind(Packets(s.sent), k) <= Chan(s, k).pushed
            && Chan(s, k).pushed == OfKind(Packets(s.sent), k) + OfKind(s.sendQ, k) + Chan(s, k).queue
            && forall i | 0 <= i < |s.sent| :: s.sent[i].number == (i + 1) % UINT64
  {
    hide Locked, Covered, OfKind, Packets, Execute, Initial;
    InitialInv(n, running);
    RunInv(Initial(n, running), steps);
    assert ChannelInv(Execute(Initial(n, running), steps), k);
  }

  /** When everything has come to rest and m_running was never off, everything pushed was sent. */
  lemma AllSentAtRest(n: nat, steps: seq<Step>, k: Kind)
    requires NeverStopped(steps) && Quiescent(Execute(Initial(n, true), steps))
    ensures var s := Execute(Initial(n, true), steps);
            Chan(s, k).queue == [] && OfKind(Packets(s.sent), k) == Chan(s, k).pushed
  {
    hide Locked, Covered, Packets, Execute, Initial;
    var s := Execute(Initial(n, true), steps);
    NoStrandedPacket(n, steps, k);
    StreamsInOrder(n, true, steps, k);
    InitialInv(n, true);
    RunInv(Initial(n, true), steps);
    assert s.sendQ == [];
  }

  /** Without that, a packet can be stranded: a producer finds m_running false after its push. */
  lemma StoppedStrands(payload: seq<bv8>)
    requires payload != []
    ensures var p := Packet(Rtp, payload);
            var move := ProducerMove(0);
            var s := Execute(Initial(1, true), [Call(0, p), move, move, move, SetRunning(false), move]);
            Quiescent(s) && s.rtp.queue == [p] && s.sent == []
  {
    var p, move := Packet(Rtp, payload), ProducerMove(0);
    var s0 := Initial(1, true);
    var s1 := Apply(s0, Call(0, p));
    var s2 := Apply(s1, ProducerMove(0));
    var s3 := Apply(s2, ProducerMove(0));
    var s4 := Apply(s3, ProducerMove(0));
    var s5 := Apply(s4, SetRunning(false));
    var s6 := Apply(s5, ProducerMove(0));
    assert s1.producers == [Entering(p)] && s2.producers == [Pushing(p)] && s3.producers == [Leaving(Rtp)];
    assert s4.producers == [Testing(Rtp)] && s6.producers == [Idle];
    assert Execute(s0, [Call(0, p), move, move, move, SetRunning(false), move]) == s6 by {
      hide Apply, Initial;
      Unroll(s0, Call(0, p), [move, move, move, SetRunning(false), move]);
      Unroll(s1, move, [move, move, SetRunning(false), move]);
      Unroll(s2, move, [move, SetRunning(false), move]);
      Unroll(s3, move, [SetRunning(false), move]);
      Unroll(s4, SetRunning(false), [move]);
      Unroll(s5, move, []);
    }
  }

  lemma Unroll(s: State, step: Step, rest: seq<Step>)
    ensures Execute(s, [step] + rest) == Execute(Apply(s, step), rest)
  {
    assert ([step] + rest)[1..] == rest;
  }

  // ---------------------------------------------------------------- switching m_running off

  /** m_running is not switched on again; everything else may happen. */
  predicate StaysOff(steps: seq<Step>) {
    forall i | 0 <= i < |steps| :: steps[i] != SetRunning(true)
  }

  /** A call of SendRtp or SendRtcp that will push a packet on the queue. */
  predicate Accepts(s: State, step: Step, k: Kind) {
    && step.Call? && step.i < |s.producers| && s.producers[step.i] == Idle
    && step.p.payload != [] && step.p.kind == k
  }

  /** One of the steps is such a call. */
  predicate CallToCome(s: State, steps: seq<Step>, k: Kind)
    decreases |steps|
  {
    steps != [] && (Accepts(s, steps[0], k) || CallToCome(Apply(s, steps[0]), steps[1..], k))
  }

  /** A producer that has yet to push on the queue. */
  predicate BeforePush(p: Producer, k: Kind) {
    (p.Entering? || p.Pushing?) && p.p.kind == k
  }

  ghost predicate PushToCome(s: State, k: Kind) {
    exists i :: 0 <= i < |s.producers| && BeforePush(s.producers[i], k)
  }

  /** A delivery event is pending, one that has yet to drain the queue is in progress, or a producer has
      read true and will schedule one. */
  ghost predicate DrainToCome(s: State, k: Kind) {
    || s.events > 0
    || WillDrain(s.delivery, k)
    || exists i :: 0 <= i < |s.producers| && s.producers[i].Scheduling?
  }

  /** A new call changes nothing but that its push is to come. */
  lemma CallStep(s: State, step: Step, k: Kind)
    requires step.Call?
    ensures var t := Apply(s, step);
            && t.running == s.running && Chan(t, k).queue == Chan(s, k).queue && DrainToCome(t, k) == DrainToCome(s, k)
            && (PushToCome(t, k) <==> PushToCome(s, k) || Accepts(s, step, k))
  {
    var t, i := Apply(s, step), step.i;
    if t != s {
      assert forall j | 0 <= j < |s.producers| && j != i :: t.producers[j] == s.producers[j];
      CallPushes(s, step, k);
      CallDrains(s, step, k);
    }
  }

  lemma CallPushes(s: State, step: Step, k: Kind)
    requires step.Call? && Apply(s, step) != s
    ensures PushToCome(Apply(s, step), k) <==> PushToCome(s, k) || Accepts(s, step, k)
  {
    var t, i := Apply(s, step), step.i;
    if PushToCome(s, k) {
      var j :| 0 <= j < |s.producers| && BeforePush(s.producers[j], k);
      assert BeforePush(t.producers[j], k);
    }
    assert BeforePush(t.producers[i], k) <==> Accepts(s, step, k);
  }

  lemma CallDrains(s: State, step: Step, k: Kind)
    requires step.Call? && Apply(s, step) != s
    ensures DrainToCome(Apply(s, step), k) == DrainToCome(s, k)
  {
    var t, i := Apply(s, step), step.i;
    if exists j :: 0 <= j < |s.producers| && s.producers[j].Scheduling? {
      var j :| 0 <= j < |s.producers| && s.producers[j].Scheduling?;
      assert t.producers[j].Scheduling?;
    }
  }

  /** No drain to come: none will, and a push to come becomes a packet that stays. */
  lemma NoDrainStep(s: State, step: Step, k: Kind)
    requires !s.running && step != SetRunning(true) && !DrainToCome(s, k)
    ensures var t := Apply(s, step);
            && !t.running && !DrainToCome(t, k)
            && (Chan(t, k).queue != [] || PushToCome(t, k)
                <==> Chan(s, k).queue != [] || PushToCome(s, k) || Accepts(s, step, k))
  {
    hide PushToCome, DrainToCome, Chan, MoveProducer, MoveDelivery;
    match step
    case Call(_, _) => CallStep(s, step, k);
    case SetRunning(_) => SameButRunning(s, Apply(s, step), k);
    case ProducerMove(_) | DeliveryMove => NoDrainTurn(s, step, k);
  }

  lemma SameButRunning(s: State, t: State, k: Kind)
    requires t == s.(running := t.running)
    ensures Chan(t, k) == Chan(s, k) && PushToCome(t, k) == PushToCome(s, k) && DrainToCome(t, k) == DrainToCome(s, k)
  {
  }

  lemma NoDrainTurn(s: State, step: Step, k: Kind)
    requires !s.running && (step.ProducerMove? || step.DeliveryMove?) && !DrainToCome(s, k)
    ensures var t := Apply(s, step);
            && !t.running && !DrainToCome(t, k)
            && (Chan(t, k).queue != [] || PushToCome(t, k) <==> Chan(s, k).queue != [] || PushToCome(s, k))
  {
    hide MoveProducer, MoveDelivery;
    if step.DeliveryMove? {
      NoDrainDelivery(s, k);
    } else if step.i < |s.producers| {
      NoDrainProducer(s, step.i, k);
    }
  }

  lemma NoDrainDelivery(s: State, k: Kind)
    requires !s.running && !DrainToCome(s, k)
    ensures var t := MoveDelivery(s);
            && !t.running && !DrainToCome(t, k)
            && Chan(t, k).queue == Chan(s, k).queue && PushToCome(t, k) == PushToCome(s, k)
  {
    assert MoveDelivery(s).producers == s.producers;
  }

  lemma NoDrainProducer(s: State, i: nat, k: Kind)
    requires !s.running && i < |s.producers| && !DrainToCome(s, k)
    ensures var t := MoveProducer(s, i);
            && !t.running && !DrainToCome(t, k)
            && (Chan(t, k).queue != [] || PushToCome(t, k) <==> Chan(s, k).queue != [] || PushToCome(s, k))
  {
    var t := MoveProducer(s, i);
    NoDrainMove(s, i, k);
    hide MoveProducer, Chan;
    if PushToCome(s, k) {
      var j :| 0 <= j < |s.producers| && BeforePush(s.producers[j], k);
      assert BeforePush(t.producers[j], k) || Chan(t, k).queue != [];
    }
  }

  lemma NoDrainMove(s: State, i: nat, k: Kind)
    requires !s.running && i < |s.producers| && !s.producers[i].Scheduling?
    ensures var t := MoveProducer(s, i);
            && !t.running && |t.producers| == |s.producers| && t.events == s.events && t.delivery == s.delivery
            && (forall j | 0 <= j < |s.producers| && j != i :: t.producers[j] == s.producers[j])
            && !t.producers[i].Scheduling?
            && (BeforePush(t.producers[i], k) ==> BeforePush(s.producers[i], k))
            && (BeforePush(s.producers[i], k) ==> BeforePush(t.producers[i], k) || Chan(t, k).queue != [])
            && (Chan(s, k).queue != [] ==> Chan(t, k).queue != [])
            && (Chan(t, k).queue != [] ==> Chan(s, k).queue != [] || BeforePush(s.producers[i], k))
  {
  }

  /** No push to come: none will, and a drain to come empties the queue. */
  lemma NoPushStep(s: State, step: Step, k: Kind)
    requires !s.running && step != SetRunning(true) && !Accepts(s, step, k)
    requires !PushToCome(s, k) && (Chan(s, k).queue == [] || DrainToCome(s, k))
    ensures var t := Apply(s, step);
            !t.running && !PushToCome(t, k) && (Chan(t, k).queue == [] || DrainToCome(t, k))
  {
    hide MoveProducer, MoveDelivery, PushToCome, DrainToCome, Chan;
    match step
    case Call(_, _) => CallStep(s, step, k);
    case SetRunning(_) => SameButRunning(s, Apply(s, step), k);
    case DeliveryMove => NoPushDelivery(s, k);
    case ProducerMove(i) =>
      if i < |s.producers| {
        NoPushProducer(s, i, k);
      }
  }

  lemma NoPushDelivery(s: State, k: Kind)
    requires !s.running && !PushToCome(s, k) && (Chan(s, k).queue == [] || DrainToCome(s, k))
    ensures var t := MoveDelivery(s);
            !t.running && !PushToCome(t, k) && (Chan(t, k).queue == [] || DrainToCome(t, k))
  {
    hide EnterQueue, PopQueue, LeaveQueue, PushToCome, DrainToCome;
    match s.delivery
    case Off => DrainStarts(s, k);
    case Enter(j) => NoPushEnter(s, j, k);
    case Pop(j) => NoPushPop(s, j, k);
    case Leave(j) => NoPushLeave(s, j, k);
    case Send => NoPushSend(s, k);
  }

  /** What a step of the simulator thread must keep. */
  ghost predicate DrainKept(s: State, t: State, k: Kind) {
    && t.running == s.running && PushToCome(t, k) == PushToCome(s, k)
    && (Chan(s, k).queue == [] || DrainToCome(s, k) ==> Chan(t, k).queue == [] || DrainToCome(t, k))
  }

  lemma DrainStarts(s: State, k: Kind)
    requires s.delivery == Off
    ensures DrainKept(s, StartDelivery(s), k)
  {
  }

  lemma NoPushEnter(s: State, j: Kind, k: Kind)
    requires s.delivery == Enter(j)
    ensures DrainKept(s, EnterQueue(s, j), k)
  {
  }

  lemma NoPushPop(s: State, j: Kind, k: Kind)
    requires s.delivery == Pop(j)
    ensures DrainKept(s, PopQueue(s, j), k)
  {
  }

  lemma NoPushLeave(s: State, j: Kind, k: Kind)
    requires s.delivery == Leave(j)
    ensures DrainKept(s, LeaveQueue(s, j), k)
  {
  }

  lemma NoPushSend(s: State, k: Kind)
    requires s.delivery == Send
    ensures DrainKept(s, SendOne(s), k)
  {
  }

  lemma NoPushProducer(s: State, i: nat, k: Kind)
    requires !s.running && i < |s.producers| && !PushToCome(s, k) && (Chan(s, k).queue == [] || DrainToCome(s, k))
    ensures var t := MoveProducer(s, i);
            !t.running && !PushToCome(t, k) && (Chan(t, k).queue == [] || DrainToCome(t, k))
  {
    var t := MoveProducer(s, i);
    NoPushMove(s, i, k);
    hide MoveProducer, Chan;
    if exists j :: 0 <= j < |s.producers| && s.producers[j].Scheduling? {
      var j :| 0 <= j < |s.producers| && s.producers[j].Scheduling?;
      assert t.events > 0 || t.producers[j].Scheduling?;
    }
  }

  lemma NoPushMove(s: State, i: nat, k: Kind)
    requires !s.running && i < |s.producers| && !BeforePush(s.producers[i], k)
    ensures var t := MoveProducer(s, i);
            && !t.running && |t.producers| == |s.producers|
            && (forall j | 0 <= j < |s.producers| && j != i :: t.producers[j] == s.producers[j])
            && !BeforePush(t.producers[i], k) && Chan(t, k).queue == Chan(s, k).queue
            && t.delivery == s.delivery && t.events >= s.events
            && (s.producers[i].Scheduling? ==> t.events > 0)
  {
  }

  lemma {:induction false} NoDrainRun(s: State, rest: seq<Step>, k: Kind)
    requires !s.running && StaysOff(rest) && !DrainToCome(s, k)
    ensures var t := Execute(s, rest);
            Chan(t, k).queue != [] || PushToCome(t, k)
            <==> Chan(s, k).queue != [] || PushToCome(s, k) || CallToCome(s, rest, k)
    decreases |rest|
  {
    hide Apply, DrainToCome, PushToCome, Chan, Accepts;
    if rest != [] {
      NoDrainStep(s, rest[0], k);
      NoDrainRun(Apply(s, rest[0]), rest[1..], k);
    }
  }

  lemma {:induction false} NoPushRun(s: State, rest: seq<Step>, k: Kind)
    requires !s.running && StaysOff(rest) && !CallToCome(s, rest, k)
    requires !PushToCome(s, k) && (Chan(s, k).queue == [] || DrainToCome(s, k))
    ensures var t := Execute(s, rest);
            Chan(t, k).queue == [] || DrainToCome(t, k)
    decreases |rest|
  {
    hide Apply, DrainToCome, PushToCome, Chan, Accepts;
    if rest != [] {
      NoPushStep(s, rest[0], k);
      NoPushRun(Apply(s, rest[0]), rest[1..], k);
    }
  }

  lemma NothingToCome(s: State, k: Kind)
    requires Quiescent(s)
    ensures !PushToCome(s, k) && !DrainToCome(s, k)
  {
  }

  /** What can be told when m_running is switched off, in any state, whatever the threads do until all
      is at rest, as long as it is not switched on again: unless both a push and a drain are still to
      come, a packet is left behind if and only if no drain is to come and a packet is queued or yet to
      be pushed, by a call under way or a later one. */
  lemma SwitchedOff(s: State, rest: seq<Step>, k: Kind)
    requires var off := Apply(s, SetRunning(false));
             && StaysOff(rest) && Quiescent(Execute(off, rest))
             && !((PushToCome(s, k) || CallToCome(off, rest, k)) && DrainToCome(s, k))
    ensures var off := Apply(s, SetRunning(false));
            Chan(Execute(off, rest), k).queue != []
            <==> !DrainToCome(s, k) && (Chan(s, k).queue != [] || PushToCome(s, k) || CallToCome(off, rest, k))
  {
    hide Execute, Quiescent, PushToCome, DrainToCome, Chan, CallToCome;
    var off := Apply(s, SetRunning(false));
    SameButRunning(s, off, k);
    NothingToCome(Execute(off, rest), k);
    if DrainToCome(s, k) {
      NoPushRun(off, rest, k);
    } else {
      NoDrainRun(off, rest, k);
    }
  }
}
