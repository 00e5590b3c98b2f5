/** The sender as one thread sees it, its DeliveryPacket as a loop, and the proof that a delivery
    of the concurrent protocol that nobody disturbs does exactly that. */
module Sender {
  import opened Numbers
  import opened SenderProtocol
  import opened SenderSafety

  /** The packets with consecutive numbers, from `next` on. */
  function Number(ps: seq<Packet>, next: nat): seq<Numbered> {
    if ps == [] then [] else [Numbered(ps[0], next)] + Number(ps[1..], (next + 1) % UINT64)
  }

  /** The counter after `n` packets. */
  function After(next: nat, n: nat): nat
    decreases n
  {
    if n == 0 then next else After((next + 1) % UINT64, n - 1)
  }

  lemma {:induction false} AfterIsSum(next: nat, n: nat)
    requires next < UINT64
    ensures After(next, n) == (next + n) % UINT64
    decreases n
  {
    if n == 0 {
      assert next % UINT64 == next;
    } else {
      AfterIsSum((next + 1) % UINT64, n - 1);
      Wraps(next, n - 1);
    }
  }

  lemma Wraps(next: nat, n: nat)
    requires next < UINT64
    ensures ((next + 1) % UINT64 + n) % UINT64 == (next + 1 + n) % UINT64
  {
    if next + 1 == UINT64 {
      assert (n + UINT64) % UINT64 == n % UINT64;
    }
  }

  function Wrap(kind: Kind, payloads: seq<seq<bv8>>): seq<Packet> {
    seq(|payloads|, i requires 0 <= i < |payloads| => Packet(kind, payloads[i]))
  }

  /** The packets of a delivery: the payloads of both queues as they were pushed, RTP before RTCP, under
      consecutive numbers of 64 bits. */
  ghost predicate Carries(ns: seq<Numbered>, rtp: seq<seq<bv8>>, rtcp: seq<seq<bv8>>, next: nat) {
    && |ns| == |rtp| + |rtcp|
    && (forall k | 0 <= k < |rtp| :: ns[k].packet.kind == Rtp && ns[k].packet.payload == rtp[k])
    && (forall k | 0 <= k < |rtcp| ::
          ns[|rtp| + k].packet.kind == Rtcp && ns[|rtp| + k].packet.payload == rtcp[k])
    && (forall k | 0 <= k < |ns| :: ns[k].number == (next + k) % 0x1_0000_0000_0000_0000)
  }

  lemma {:induction false} NumberAt(ps: seq<Packet>, next: nat, k: nat)
    requires k < |ps| && next < UINT64
    ensures |Number(ps, next)| == |ps| && Number(ps, next)[k] == Numbered(ps[k], (next + k) % UINT64)
    decreases |ps|
  {
    var after := (next + 1) % UINT64;
    assert Number(ps, next) == [Numbered(ps[0], next)] + Number(ps[1..], after);
    if |ps| == 1 {
      assert Number(ps[1..], after) == [];
    } else {
      NumberAt(ps[1..], after, if k == 0 then 0 else k - 1);
    }
    if k == 0 {
      assert (next + 0) % UINT64 == next;
    } else {
      Wraps(next, k - 1);
    }
  }

  lemma NumberCarries(rtp: seq<seq<bv8>>, rtcp: seq<seq<bv8>>, next: nat)
    requires next < UINT64
    ensures Carries(Number(Wrap(Rtp, rtp) + Wrap(Rtcp, rtcp), next), rtp, rtcp, next)
  {
    hide Number;
    var ps := Wrap(Rtp, rtp) + Wrap(Rtcp, rtcp);
    var ns := Number(ps, next);
    NumberLength(ps, next);
    forall k | 0 <= k < |ps|
      ensures ns[k] == Numbered(ps[k], (next + k) % UINT64)
    {
      NumberAt(ps, next, k);
    }
  }

  lemma NumberLength(ps: seq<Packet>, next: nat)
    requires next < UINT64
    ensures |Number(ps, next)| == |ps|
  {
    if ps != [] {
      NumberAt(ps, next, 0);
    }
  }

  class WebrtcSender {
    var running: bool
    var rtpQ: seq<seq<bv8>>
    var rtcpQ: seq<seq<bv8>>
    var seqNo: nat
    var scheduled: nat
    var network: seq<Numbered>

    ghost predicate Valid()
      reads this
    {
      seqNo < UINT64
    }

    constructor ()
      ensures Valid() && !running && rtpQ == [] && rtcpQ == [] && seqNo == 1 && scheduled == 0 && network == []
    {
      running, rtpQ, rtcpQ, seqNo, scheduled, network := false, [], [], 1, 0, [];
    }

    method SendRtp(packet: seq<bv8>) returns (ok: bool)
      modifies `rtpQ, `scheduled
      ensures ok
      ensures rtpQ == if packet == [] then old(rtpQ) else old(rtpQ) + [packet]
      ensures scheduled == old(scheduled) + if packet != [] && running then 1 else 0
    {
      if |packet| == 0 {
        return true;
      }
      rtpQ := rtpQ + [packet];
      if running {
        scheduled := scheduled + 1;
      }
      return true;
    }

    method SendRtcp(packet: seq<bv8>) returns (ok: bool)
      requires packet != []
      modifies `rtcpQ, `scheduled
      ensures ok && rtcpQ == old(rtcpQ) + [packet]
      ensures scheduled == old(scheduled) + if running then 1 else 0
    {
      rtcpQ := rtcpQ + [packet];
      if running {
        scheduled := scheduled + 1;
      }
      return true;
    }

    method SendToNetwork(p: Packet)
      requires Valid()
      modifies `seqNo, `network
      ensures Valid()
      ensures network == old(network) + [Numbered(p, old(seqNo))]
      ensures seqNo == (old(seqNo) + 1) % UINT64
    {
      network := network + [Numbered(p, seqNo)];
      seqNo := (seqNo + 1) % UINT64;
    }

    /** Everything queued goes out, RTP before RTCP, each in push order, densely numbered. */
    method DeliveryPacket()
      requires Valid()
      modifies `rtpQ, `rtcpQ, `seqNo, `network
      ensures Valid() && rtpQ == [] && rtcpQ == []
      ensures network == old(network) + Number(Wrap(Rtp, old(rtpQ)) + Wrap(Rtcp, old(rtcpQ)), old(seqNo))
      ensures old(network) <= network
      ensures Carries(network[|old(network)|..], old(rtpQ), old(rtcpQ), old(seqNo))
      ensures seqNo == (old(seqNo) + |old(rtpQ)| + |old(rtcpQ)|) % UINT64
    {
      hide Carries;
      NumberCarries(rtpQ, rtcpQ, seqNo);
      var sendQ: seq<Packet> := [];
      while rtpQ != []
        invariant sendQ + Wrap(Rtp, rtpQ) == Wrap(Rtp, old(rtpQ))
        decreases |rtpQ|
        modifies `rtpQ
      {
        assert Wrap(Rtp, rtpQ) == [Packet(Rtp, rtpQ[0])] + Wrap(Rtp, rtpQ[1..]);
        sendQ := sendQ + [Packet(Rtp, rtpQ[0])];
        rtpQ := rtpQ[1..];
      }
      assert sendQ == sendQ + Wrap(Rtp, rtpQ);
      ghost var first := sendQ;
      while rtcpQ != []
        invariant sendQ + Wrap(Rtcp, rtcpQ) == first + Wrap(Rtcp, old(rtcpQ))
        decreases |rtcpQ|
        modifies `rtcpQ
      {
        assert Wrap(Rtcp, rtcpQ) == [Packet(Rtcp, rtcpQ[0])] + Wrap(Rtcp, rtcpQ[1..]);
        sendQ := sendQ + [Packet(Rtcp, rtcpQ[0])];
        rtcpQ := rtcpQ[1..];
      }
      assert sendQ == sendQ + Wrap(Rtcp, rtcpQ);
      AfterIsSum(seqNo, |sendQ|);
      SendAll(sendQ);
    }

    /** The last loop of DeliveryPacket. */
    method SendAll(packets: seq<Packet>)
      requires Valid()
      modifies `seqNo, `network
      ensures Valid()
      ensures network == old(network) + Number(packets, old(seqNo))
      ensures seqNo == After(old(seqNo), |packets|)
    {
      var sendQ := packets;
      while sendQ != []
        invariant Valid()
        invariant network + Number(sendQ, seqNo) == old(network) + Number(packets, old(seqNo))
        invariant After(seqNo, |sendQ|) == After(old(seqNo), |packets|)
        decreases |sendQ|
      {
        var packet := sendQ[0];
        ghost var rest := Number(sendQ[1..], (seqNo + 1) % UINT64);
        assert network + ([Numbered(packet, seqNo)] + rest) == (network + [Numbered(packet, seqNo)]) + rest;
        sendQ := sendQ[1..];
        SendToNetwork(packet);
      }
    }
  }

  // ---------------------------------------------------------------- the atomic view

  /** `n` steps of the simulator thread with no producer in between. */
  function Turns(s: State, n: nat): State
    decreases n
  {
    if n == 0 then s else Turns(MoveDelivery(s), n - 1)
  }

  lemma {:induction false} TurnsAreSteps(s: State, n: nat)
    ensures Turns(s, n) == Execute(s, seq(n, _ => DeliveryMove))
    decreases n
  {
    hide MoveDelivery;
    if n > 0 {
      TurnsAreSteps(MoveDelivery(s), n - 1);
      assert seq(n, _ => DeliveryMove)[1..] == seq(n - 1, _ => DeliveryMove);
    }
  }

  lemma {:induction false} TurnsAdd(s: State, m: nat, n: nat)
    ensures Turns(s, m + n) == Turns(Turns(s, m), n)
    decreases m
  {
    hide MoveDelivery;
    if m > 0 {
      TurnsAdd(MoveDelivery(s), m - 1, n);
    }
  }

  /** The state once delivery has drained queue `k` under the lock. */
  function Drained(s: State, k: Kind): State {
    SetChan(s, k, Chan(s, k).(queue := [], missed := false))
      .(sendQ := s.sendQ + Chan(s, k).queue, delivery := Leave(k))
  }

  lemma {:induction false} TurnsPop(s: State, k: Kind)
    requires s.delivery == Pop(k)
    ensures Turns(s, |Chan(s, k).queue| + 1) == Drained(s, k)
    decreases |Chan(s, k).queue|
  {
    var q := Chan(s, k).queue;
    if q == [] {
      assert Turns(s, 1) == MoveDelivery(s);
      assert s.sendQ + q == s.sendQ;
    } else {
      var t := MoveDelivery(s);
      TurnsPop(t, k);
      assert (s.sendQ + [q[0]]) + q[1..] == s.sendQ + q;
      assert Drained(t, k) == Drained(s, k);
    }
  }

  lemma {:induction false} TurnsSend(s: State)
    requires s.delivery == Send
    ensures Turns(s, |s.sendQ| + 1)
         == s.(delivery := Off, sendQ := [], sent := s.sent + Number(s.sendQ, s.next), next := After(s.next, |s.sendQ|))
    decreases |s.sendQ|
  {
    if s.sendQ == [] {
      assert Turns(s, 1) == MoveDelivery(s);
    } else {
      var t := MoveDelivery(s);
      TurnsSend(t);
      var rest := Number(t.sendQ, t.next);
      assert (s.sent + [Numbered(s.sendQ[0], s.next)]) + rest == s.sent + ([Numbered(s.sendQ[0], s.next)] + rest);
    }
  }

  /** What DeliveryPacket, as one action, does to the protocol's state. */
  function Delivered(s: State): State
    requires s.events > 0
  {
    var ps := s.rtp.queue + s.rtcp.queue;
    s.(events := s.events - 1,
       rtp := s.rtp.(queue := [], missed := false), rtcp := s.rtcp.(queue := [], missed := false),
       sent := s.sent + Number(ps, s.next), next := After(s.next, |ps|))
  }

  /** One queue fetched: in, drained under the lock, out again. */
  function Fetched(s: State, k: Kind): State {
    Drained(s, k).(delivery := if k == Rtp then Enter(Rtcp) else Send)
  }

  lemma FetchQueue(s: State, k: Kind)
    requires s.delivery == Enter(k) && Chan(s, k).lock == 0 && Chan(s, k).owner == Free
    ensures Turns(s, |Chan(s, k).queue| + 3) == Fetched(s, k)
  {
    hide Turns;
    var n := |Chan(s, k).queue|;
    var a := MoveDelivery(s);
    OneTurn(s);
    TurnsPop(a, k);
    OneTurn(Drained(a, k));
    TurnsAdd(s, 1, n + 1);
    TurnsAdd(s, n + 2, 1);
  }

  lemma OneTurn(s: State)
    ensures Turns(s, 1) == MoveDelivery(s)
  {
  }

  /** A delivery event that runs while both locks are free and no producer interferes reaches, in
      so many steps, the state that DeliveryPacket as one action reaches. */
  lemma DeliveryIsAtomic(s: State)
    requires s.events > 0 && s.delivery == Off && s.sendQ == []
    requires s.rtp.lock == 0 && s.rtp.owner == Free && s.rtcp.lock == 0 && s.rtcp.owner == Free
    ensures Turns(s, 8 + 2 * (|s.rtp.queue| + |s.rtcp.queue|)) == Delivered(s)
  {
    hide Turns, Number, After;
    var n, m := |s.rtp.queue|, |s.rtcp.queue|;
    var a := StartDelivery(s);
    OneTurn(s);
    FetchQueue(a, Rtp);
    var b := Fetched(a, Rtp);
    TurnsAdd(s, 1, n + 3);
    FetchQueue(b, Rtcp);
    var c := Fetched(b, Rtcp);
    TurnsAdd(s, n + 4, m + 3);
    assert c.sendQ == s.rtp.queue + s.rtcp.queue;
    TurnsSend(c);
    TurnsAdd(s, n + m + 7, n + m + 1);
  }

  /** m_running is off, one producer has yet to push, and a delivery event is pending. */
  function Waiting(p: Packet): State {
    Initial(1, false).(producers := [Entering(p)], events := 1)
  }

  /** The producer enters, pushes, leaves and finds m_running false. */
  function Pushed(s: State): State
    requires |s.producers| == 1
  {
    MoveProducer(MoveProducer(MoveProducer(MoveProducer(s, 0), 0), 0), 0)
  }

  /** Where both a push and a drain are still to come, their order decides: a packet pushed before the
      delivery is sent, one pushed after it stays. */
  lemma OrderDecides(p: Packet)
    ensures var s := Waiting(p);
            var early, late := Turns(Pushed(s), 10), Turns(s, 8);
            && PushToCome(s, p.kind) && DrainToCome(s, p.kind)
            && early.sent == [Numbered(p, 1)] && Chan(early, p.kind).queue == [] && Quiescent(early)
            && late.producers == s.producers
            && Pushed(late).sent == [] && Chan(Pushed(late), p.kind).queue == [p] && Quiescent(Pushed(late))
  {
    assert BeforePush(Waiting(p).producers[0], p.kind);
    hide Turns, Pushed;
    PushedEarly(p);
    PushedLate(p);
  }

  lemma PushedEarly(p: Packet)
    ensures var early := Turns(Pushed(Waiting(p)), 10);
            early.sent == [Numbered(p, 1)] && Chan(early, p.kind).queue == [] && Quiescent(early)
  {
    hide Turns, Pushed, Delivered;
    var t := Pushed(Waiting(p));
    OnePacket(p);
    DeliveryIsAtomic(t);
    assert Turns(t, 10) == Delivered(t);
    OneDelivered(t, p);
  }

  /** After the push the packet is all that is queued. */
  lemma OnePacket(p: Packet)
    ensures var t := Pushed(Waiting(p));
            && t.rtp.queue + t.rtcp.queue == [p] && |t.rtp.queue| + |t.rtcp.queue| == 1
            && t.events == 1 && t.delivery == Off && t.sendQ == [] && t.sent == [] && t.next == 1
            && t.producers == [Idle]
            && t.rtp.lock == 0 && t.rtp.owner == Free && t.rtcp.lock == 0 && t.rtcp.owner == Free
  {
    hide Pushed;
    PushedState(Waiting(p), p);
  }

  lemma OneDelivered(t: State, p: Packet)
    requires t.rtp.queue + t.rtcp.queue == [p] && t.events == 1 && t.delivery == Off
    requires t.sent == [] && t.next == 1 && t.producers == [Idle]
    ensures var early := Delivered(t);
            early.sent == [Numbered(p, 1)] && Chan(early, p.kind).queue == [] && Quiescent(early)
  {
    assert [p][1..] == [];
    assert Number([p], 1) == [Numbered(p, 1)];
  }

  lemma PushedLate(p: Packet)
    ensures var late := Turns(Waiting(p), 8);
            && late.producers == [Entering(p)]
            && Pushed(late).sent == [] && Chan(Pushed(late), p.kind).queue == [p] && Quiescent(Pushed(late))
  {
    hide Turns, Pushed;
    var s := Waiting(p);
    DeliveryIsAtomic(s);
    assert s.rtp.queue + s.rtcp.queue == [];
    PushedState(Delivered(s), p);
  }

  lemma PushedState(s: State, p: Packet)
    requires s.producers == [Entering(p)] && !s.running && Chan(s, p.kind).lock == 0
    ensures var c := Chan(s, p.kind);
            && Pushed(s).producers == [Idle] && Pushed(s).delivery == s.delivery
            && Pushed(s) == SetChan(s, p.kind,
                 Channel(0, c.queue + [p], c.pushed + [p], Free, true)).(producers := [Idle])
  {
  }

  /** On such a state the protocol and the class agree about the network. */
  lemma DeliveryMatchesClass(s: State, rtp: seq<seq<bv8>>, rtcp: seq<seq<bv8>>)
    requires s.events > 0 && s.next < UINT64
    requires s.rtp.queue == Wrap(Rtp, rtp) && s.rtcp.queue == Wrap(Rtcp, rtcp)
    ensures Delivered(s).sent == s.sent + Number(Wrap(Rtp, rtp) + Wrap(Rtcp, rtcp), s.next)
    ensures Delivered(s).next == (s.next + |rtp| + |rtcp|) % UINT64
  {
    AfterIsSum(s.next, |rtp| + |rtcp|);
  }
}
