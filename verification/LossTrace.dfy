/** The receiver's loss trace, and what its counters say about the packets that never arrived. */
module LossTrace {
  import opened Numbers
  import opened SenderProtocol
  import opened SenderSafety
  import opened Timestamps
  import WebrtcTag

  const UINT32 := 0x1_0000_0000
  const LAST := UINT32 - 1

  /** m_maxSeq is 64 bits wide, m_expectSeq and m_lossPkts wrap at 32 bits. */
  datatype Counters = Counters(maxSeq: nat, expectSeq: nat, lossPkts: nat)

  const FRESH := Counters(0, 1, 0)

  function Receive(c: Counters, number: nat): Counters {
    var m := if number > c.maxSeq then number else c.maxSeq;
    if number >= c.expectSeq
    then Counters(m, (number + 1) % UINT32, (c.lossPkts + number - c.expectSeq) % UINT32)
    else Counters(m, c.expectSeq, c.lossPkts)
  }

  function ReceiveAll(arrivals: seq<nat>): Counters {
    if arrivals == [] then FRESH
    else Receive(ReceiveAll(arrivals[..|arrivals| - 1]), arrivals[|arrivals| - 1])
  }

  class WebrtcTrace {
    var maxSeq: nat
    var expectSeq: nat
    var lossPkts: nat
    ghost var arrivals: seq<nat>

    ghost function Value(): Counters
      reads this
    {
      Counters(maxSeq, expectSeq, lossPkts)
    }

    ghost predicate Valid()
      reads this
    {
      Value() == ReceiveAll(arrivals)
    }

    constructor ()
      ensures Valid() && arrivals == []
    {
      maxSeq, expectSeq, lossPkts, arrivals := 0, 1, 0, [];
    }

    method OnReceiptPktInfo(number: nat)
      requires Valid() && number < UINT32
      modifies this
      ensures Valid() && arrivals == old(arrivals) + [number]
    {
      ghost var seen := arrivals;
      if number > maxSeq {
        maxSeq := number;
      }
      if number >= expectSeq {
        lossPkts := (lossPkts + (number - expectSeq)) % UINT32;
        expectSeq := (number + 1) % UINT32;
      }
      arrivals := arrivals + [number];
      assert arrivals[..|arrivals| - 1] == seen;
    }
  }

  // ---------------------------------------------------------------- what the counters mean

  function MaxOf(arrivals: seq<nat>): nat {
    if arrivals == [] then 0
    else
      var m := MaxOf(arrivals[..|arrivals| - 1]);
      if arrivals[|arrivals| - 1] > m then arrivals[|arrivals| - 1] else m
  }

  /** How many arrivals exceeded everything before them. */
  function NewMaxima(arrivals: seq<nat>): nat {
    if arrivals == [] then 0
    else
      var init, last := arrivals[..|arrivals| - 1], arrivals[|arrivals| - 1];
      NewMaxima(init) + if last > MaxOf(init) then 1 else 0
  }

  /** The numbers from 1 on that have arrived. */
  function Received(arrivals: seq<nat>): set<nat> {
    if arrivals == [] then {}
    else
      var rest := Received(arrivals[..|arrivals| - 1]);
      if arrivals[|arrivals| - 1] == 0 then rest else rest + {arrivals[|arrivals| - 1]}
  }

  /** The numbers up to the largest arrival that never arrived. */
  function NeverReceived(arrivals: seq<nat>): set<nat> {
    Below(MaxOf(arrivals) + 1) - {0} - Received(arrivals)
  }

  /** No number arrives for the first time after a larger one. */
  predicate FirstsInOrder(arrivals: seq<nat>) {
    arrivals == [] ||
    var init, last := arrivals[..|arrivals| - 1], arrivals[|arrivals| - 1];
    FirstsInOrder(init) && (last == 0 || last > MaxOf(init) || last in Received(init))
  }

  lemma {:induction false} ReceivedBounds(arrivals: seq<nat>)
    ensures forall x | x in Received(arrivals) :: 1 <= x <= MaxOf(arrivals)
    ensures NewMaxima(arrivals) <= MaxOf(arrivals)
  {
    if arrivals != [] {
      ReceivedBounds(arrivals[..|arrivals| - 1]);
    }
  }

  /** Below the 32-bit limit: the expected number follows the largest, and the losses are the
      largest number less the arrivals that were new maxima. */
  lemma {:induction false} LossIsExact(arrivals: seq<nat>)
    requires forall i | 0 <= i < |arrivals| :: arrivals[i] < LAST
    ensures var c := ReceiveAll(arrivals);
            c.maxSeq == MaxOf(arrivals) < LAST && c.expectSeq == c.maxSeq + 1
            && c.lossPkts == c.maxSeq - NewMaxima(arrivals)
  {
    if arrivals != [] {
      var init := arrivals[..|arrivals| - 1];
      LossIsExact(init);
      ReceivedBounds(init);
    }
  }

  /** The largest 32-bit number breaks this for good: m_expectSeq wraps to 0 and can never again
      be one more than m_maxSeq. */
  lemma {:induction false} ExpectFollowsExactly(arrivals: seq<nat>)
    requires forall i | 0 <= i < |arrivals| :: arrivals[i] < UINT32
    ensures var c := ReceiveAll(arrivals);
            c.expectSeq == c.maxSeq + 1 <==> LAST !in arrivals
  {
    if LAST in arrivals {
      ExpectStaysBelow(arrivals);
    } else {
      LossIsExact(arrivals);
    }
  }

  lemma {:induction false} ExpectStaysBelow(arrivals: seq<nat>)
    requires forall i | 0 <= i < |arrivals| :: arrivals[i] < UINT32
    ensures ReceiveAll(arrivals).expectSeq < UINT32
    ensures LAST in arrivals ==> ReceiveAll(arrivals).maxSeq == LAST
    ensures ReceiveAll(arrivals).maxSeq < UINT32
  {
    if arrivals != [] {
      var init := arrivals[..|arrivals| - 1];
      ExpectStaysBelow(init);
      assert arrivals == init + [arrivals[|arrivals| - 1]];
    }
  }

  lemma {:induction false} MaximaAmongReceived(arrivals: seq<nat>)
    ensures NewMaxima(arrivals) <= |Received(arrivals)|
    ensures NewMaxima(arrivals) == |Received(arrivals)| <==> FirstsInOrder(arrivals)
  {
    if arrivals != [] {
      var init, last := arrivals[..|arrivals| - 1], arrivals[|arrivals| - 1];
      MaximaAmongReceived(init);
      ReceivedBounds(init);
      if last == 0 || last in Received(init) {
        assert Received(arrivals) == Received(init);
        assert last <= MaxOf(init);
      } else {
        assert Received(arrivals) == Received(init) + {last};
        assert |Received(arrivals)| == |Received(init)| + 1;
      }
    }
  }

  lemma NeverReceivedCount(arrivals: seq<nat>)
    ensures |NeverReceived(arrivals)| == MaxOf(arrivals) - |Received(arrivals)|
  {
    ReceivedBounds(arrivals);
    var all := Below(MaxOf(arrivals) + 1) - {0};
    assert Received(arrivals) <= all;
    assert |all - Received(arrivals)| == |all| - |Received(arrivals)|;
  }

  /** The trace never counts too few losses, and it counts them exactly if and only if no number
      arrives for the first time after a larger one. */
  lemma LossAgainstTruth(arrivals: seq<nat>)
    requires forall i | 0 <= i < |arrivals| :: arrivals[i] < LAST
    ensures ReceiveAll(arrivals).lossPkts >= |NeverReceived(arrivals)|
    ensures ReceiveAll(arrivals).lossPkts == |NeverReceived(arrivals)| <==> FirstsInOrder(arrivals)
  {
    LossIsExact(arrivals);
    MaximaAmongReceived(arrivals);
    NeverReceivedCount(arrivals);
  }

  /** The ratio of the two that is written at the end is below one. */
  lemma LossBelowMaximum(arrivals: seq<nat>)
    requires forall i | 0 <= i < |arrivals| :: arrivals[i] < LAST
    requires ReceiveAll(arrivals).maxSeq != 0
    ensures ReceiveAll(arrivals).lossPkts < ReceiveAll(arrivals).maxSeq
  {
    LossIsExact(arrivals);
    SomeMaximum(arrivals);
  }

  lemma {:induction false} SomeMaximum(arrivals: seq<nat>)
    ensures MaxOf(arrivals) > 0 ==> NewMaxima(arrivals) > 0
  {
    if arrivals != [] {
      SomeMaximum(arrivals[..|arrivals| - 1]);
    }
  }

  // ---------------------------------------------------------------- end to end

  /** What a network that drops packets but does not reorder them delivers. */
  function Surviving(sent: seq<Numbered>, kept: seq<bool>): seq<nat>
    requires |kept| == |sent|
  {
    if sent == [] then []
    else
      var n := |sent| - 1;
      Surviving(sent[..n], kept[..n]) + if kept[n] then [sent[n].number] else []
  }

  function Drops(kept: seq<bool>): nat {
    if kept == [] then 0
    else Drops(kept[..|kept| - 1]) + if kept[|kept| - 1] then 0 else 1
  }

  /** Every arrival is a new maximum, each packet has arrived or been dropped, and nothing sent after the
      last arrival has survived. */
  predicate Accounts(a: seq<nat>, kept: seq<bool>) {
    && MaxOf(a) <= |kept| && FirstsInOrder(a) && NewMaxima(a) == |a|
    && (forall i | 0 <= i < |a| :: 1 <= a[i] <= |kept|)
    && |a| + Drops(kept) == |kept|
    && (forall i | MaxOf(a) <= i < |kept| :: !kept[i])
  }

  lemma NothingSent()
    ensures Accounts([], [])
  {
  }

  lemma AccountsMore(b: seq<nat>, kept: seq<bool>, keep: bool)
    requires Accounts(b, kept)
    ensures Accounts(if keep then b + [|kept| + 1] else b, kept + [keep])
  {
    hide MaxOf, FirstsInOrder, NewMaxima;
    assert (kept + [keep])[..|kept|] == kept;
    if keep {
      NextSurvives(b, |kept|);
    }
  }

  lemma {:induction false} SurvivingCounts(sent: seq<Numbered>, kept: seq<bool>)
    requires |kept| == |sent| && forall i | 0 <= i < |sent| :: sent[i].number == i + 1
    ensures Accounts(Surviving(sent, kept), kept)
    decreases |sent|
  {
    hide Accounts;
    if sent == [] {
      NothingSent();
    } else {
      var n := |sent| - 1;
      var b := Surviving(sent[..n], kept[..n]);
      SurvivingCounts(sent[..n], kept[..n]);
      AccountsMore(b, kept[..n], kept[n]);
      assert kept == kept[..n] + [kept[n]];
      assert Surviving(sent, kept) == if kept[n] then b + [n + 1] else b;
    }
  }

  lemma NextSurvives(b: seq<nat>, n: nat)
    requires MaxOf(b) <= n && FirstsInOrder(b)
    ensures MaxOf(b + [n + 1]) == n + 1 && FirstsInOrder(b + [n + 1]) && NewMaxima(b + [n + 1]) == NewMaxima(b) + 1
  {
    assert (b + [n + 1])[..|b|] == b;
  }

  lemma {:induction false} DropsOfTail(kept: seq<bool>, m: nat)
    requires m <= |kept| && forall i | m <= i < |kept| :: !kept[i]
    ensures Drops(kept) == Drops(kept[..m]) + |kept| - m
    decreases |kept|
  {
    if m < |kept| {
      var n := |kept| - 1;
      DropsOfTail(kept[..n], m);
      assert kept[..n][..m] == kept[..m];
    } else {
      assert kept[..m] == kept;
    }
  }

  /** From the sender's locked queues to the receiver's counter: after any run of the sender's
      protocol, if the network drops packets but keeps their order, the loss count is exactly the
      number of dropped packets sent before the last one that arrived, and exactly the number of
      packets that never arrived. */
  lemma EndToEnd(n: nat, running: bool, steps: seq<Step>, kept: seq<bool>)
    requires var sent := Execute(Initial(n, running), steps).sent;
             |sent| < LAST && |kept| == |sent|
    ensures var a := Surviving(Execute(Initial(n, running), steps).sent, kept);
            && MaxOf(a) <= |kept|
            && ReceiveAll(a).lossPkts == Drops(kept[..MaxOf(a)]) == |NeverReceived(a)|
            && (forall i | MaxOf(a) <= i < |kept| :: !kept[i])
  {
    hide Execute, Initial;
    StreamsInOrder(n, running, steps, Rtp);
    var sent := Execute(Initial(n, running), steps).sent;
    var a := Surviving(sent, kept);
    SurvivingCounts(sent, kept);
    LossIsExact(a);
    LossAgainstTruth(a);
    DropsOfTail(kept, MaxOf(a));
  }

  /** The tags on the packets that arrive, each with the millisecond at which it was sent. */
  function Tags(numbers: seq<nat>, times: seq<nat>): seq<seq<WebrtcTag.byte>>
    requires |times| == |numbers|
  {
    seq(|numbers|, i requires 0 <= i < |numbers| => WebrtcTag.Written(numbers[i], times[i]))
  }

  /** What the receiver reads from them, in 32 bits; None when a tag runs out of bytes. */
  function Read(tags: seq<seq<WebrtcTag.byte>>): Option<seq<nat>> {
    if tags == [] then Some([])
    else
      var n := |tags| - 1;
      match Read(tags[..n])
      case None => None
      case Some(numbers) =>
        match WebrtcTag.ReadBack(tags[n])
        case None => None
        case Some(f) => Some(numbers + [f.sequence % UINT32])
  }

  /** The numbers arrive if and only if no packet was sent in the first millisecond of the simulation. */
  lemma {:induction false} TagsCarryExactly(numbers: seq<nat>, times: seq<nat>)
    requires |times| == |numbers|
    requires forall i | 0 <= i < |numbers| :: 1 <= numbers[i] < UINT32 && times[i] < UINT64
    ensures Read(Tags(numbers, times)) == Some(numbers) <==> forall i | 0 <= i < |times| :: times[i] != 0
    ensures Read(Tags(numbers, times)).None? <==> exists i :: 0 <= i < |times| && times[i] == 0
  {
    hide WebrtcTag.ReadBack, WebrtcTag.Written;
    if numbers != [] {
      var n := |numbers| - 1;
      TagsCarryExactly(numbers[..n], times[..n]);
      assert Tags(numbers, times)[..n] == Tags(numbers[..n], times[..n]);
      WebrtcTag.RoundTripExactly(numbers[n], times[n]);
      assert numbers == numbers[..n] + [numbers[n]];
      assert times == times[..n] + [times[n]];
    }
  }

  /** The same through the tags: sent from the first millisecond on, the numbers read from the tags are
      those sent, so the loss count is exact from the sender's queues to the receiver's counter. */
  lemma EndToEndThroughTags(n: nat, running: bool, steps: seq<Step>, kept: seq<bool>, times: seq<nat>)
    requires var sent := Execute(Initial(n, running), steps).sent;
             |sent| < LAST && |kept| == |sent| && |times| == |Surviving(sent, kept)|
    requires forall i | 0 <= i < |times| :: 1 <= times[i] < UINT64
    ensures var a := Surviving(Execute(Initial(n, running), steps).sent, kept);
            && Read(Tags(a, times)) == Some(a) && MaxOf(a) <= |kept|
            && ReceiveAll(Read(Tags(a, times)).value).lossPkts == Drops(kept[..MaxOf(a)]) == |NeverReceived(a)|
  {
    hide Execute, Initial, Read, Tags, NeverReceived, ReceiveAll, Drops;
    var sent := Execute(Initial(n, running), steps).sent;
    var a := Surviving(sent, kept);
    EndToEnd(n, running, steps, kept);
    StreamsInOrder(n, running, steps, Rtp);
    SurvivingCounts(sent, kept);
    TagsCarryExactly(a, times);
  }
}
