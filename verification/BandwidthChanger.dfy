/** A link whose rate follows a list of changes: the chain of events that applies them, and the
    separate integral that says how many bits the link could carry. Times are in nanoseconds. */
module BandwidthChanger {
  import opened Timestamps

  const SECOND := 1_000_000_000

  datatype Change = Change(time: nat, bps: nat)

  /** What the code asserts of its list. */
  predicate Increasing(info: seq<Change>) {
    forall i, j | 0 <= i < j < |info| :: info[i].time < info[j].time
  }

  predicate WholeSeconds(info: seq<Change>) {
    forall i | 0 <= i < |info| :: info[i].time % SECOND == 0
  }

  /** The rate in force at time t: that of the latest change not after t. */
  function RateAt(initial: nat, info: seq<Change>, t: nat): nat {
    if info == [] then initial
    else if info[|info| - 1].time <= t then info[|info| - 1].bps
    else RateAt(initial, info[..|info| - 1], t)
  }

  /** The bits of the seconds from, ..., to - 1, each at the rate in force when it starts. */
  function PerSecond(initial: nat, info: seq<Change>, from: nat, upTo: nat): nat
    decreases upTo
  {
    if upTo <= from then 0 else PerSecond(initial, info, from, upTo - 1) + RateAt(initial, info, (upTo - 1) * SECOND)
  }

  /** Time::GetMilliSeconds()/1000 */
  function WholeSecondsIn(d: nat): nat {
    d / 1_000_000 / 1000
  }

  /** How many changes come strictly before `point`. */
  function IndexBefore(info: seq<Change>, point: nat): (k: nat)
    ensures k <= |info|
  {
    if info == [] then 0
    else if info[|info| - 1].time < point then |info|
    else IndexBefore(info[..|info| - 1], point)
  }

  /** When the interval before change k begins, and the rate in force in it. */
  function Begin(info: seq<Change>, k: nat): nat
    requires k <= |info|
  {
    if k == 0 then 0 else info[k - 1].time
  }

  function RateBefore(initial: nat, info: seq<Change>, k: nat): nat
    requires k <= |info|
  {
    if k == 0 then initial else info[k - 1].bps
  }

  /** The bits of an interval that starts at change k - 1: whole seconds only. */
  function IntervalBits(initial: nat, info: seq<Change>, k: nat, end: nat): nat
    requires k <= |info| && Begin(info, k) <= end
  {
    RateBefore(initial, info, k) * WholeSecondsIn(end - Begin(info, k))
  }

  /** The bits of the intervals that end at the first k changes. */
  function Bits(initial: nat, info: seq<Change>, k: nat): nat
    requires Increasing(info) && k <= |info|
  {
    if k == 0 then 0 else Bits(initial, info, k - 1) + IntervalBits(initial, info, k - 1, info[k - 1].time)
  }

  /** The last interval counts only when `stop` is after the last change, and nothing does when no
      change comes before it. */
  function Integral(initial: nat, info: seq<Change>, stop: nat): nat
    requires Increasing(info)
  {
    var k := IndexBefore(info, stop);
    Bits(initial, info, k)
    + if 0 < k == |info| && Begin(info, k) <= stop then IntervalBits(initial, info, k, stop) else 0
  }

  /** The second up to which the integral counts when asked for `stop`. */
  function Horizon(info: seq<Change>, stop: nat): nat {
    var k := IndexBefore(info, stop);
    if k == 0 then 0
    else if k == |info| then stop / SECOND
    else info[k - 1].time / SECOND
  }

  /** The rate of a device after these SetDataRate calls. */
  function DeviceRate(initial: nat, applied: seq<Change>): nat {
    if applied == [] then initial else applied[|applied| - 1].bps
  }

  class BandwidthChanger {
    const initialRate: nat
    const info: seq<Change>
    const hasDevice: bool
    var index: nat
    /** The absolute time of the scheduled event. */
    var timer: Option<nat>
    /** Every SetDataRate on the device, with its time. */
    var applied: seq<Change>

    constructor (initial: nat, info: seq<Change>, hasDevice: bool)
      ensures initialRate == initial && this.info == info && this.hasDevice == hasDevice
      ensures index == 0 && timer == None && applied == []
    {
      initialRate, this.info, this.hasDevice := initial, info, hasDevice;
      index, timer, applied := 0, None, [];
    }

    /** Started at `began`, with the first `index` changes applied and the next one scheduled. */
    ghost predicate Following(began: nat)
      reads this
    {
      && Increasing(info) && index <= |info|
      && applied == Shifted(info[..index], began)
      && timer == if index < |info| then Some(began + info[index].time) else None
    }

    method Start(now: nat)
      requires Increasing(info) && index == 0 && timer == None && applied == []
      modifies `timer
      ensures Following(now)
    {
      if |info| > 0 {
        timer := Some(now + info[index].time);
      }
    }

    /** The event of the timer, at the time it was scheduled for. */
    method ResetBandwidth(ghost began: nat)
      requires Following(began) && timer.Some?
      modifies this
      ensures hasDevice ==> Following(began) && index == old(index) + 1
      ensures !hasDevice ==> timer == None && index == old(index) && applied == old(applied)
    {
      var now := timer.value;
      timer := None;
      if hasDevice {
        ghost var k := index;
        applied := applied + [Change(now, info[index].bps)];
        index := index + 1;
        if index < |info| {
          var next := info[index].time - info[index - 1].time;
          timer := Some(now + next);
        }
        assert info[..k + 1] == info[..k] + [info[k]];
      }
    }

    /** The simulation up to and including `stop`: the events in order. Started at 0, the device then
        has the rate in force at `stop`. */
    method RunUntil(stop: nat, ghost began: nat)
      requires Following(began) && hasDevice
      requires index > 0 ==> began + info[index - 1].time <= stop
      modifies this
      ensures Following(began) && old(index) <= index
      ensures index < |info| ==> stop < began + info[index].time
      ensures index > 0 ==> began + info[index - 1].time <= stop
      ensures began == 0 ==> DeviceRate(initialRate, applied) == RateAt(initialRate, info, stop)
    {
      while timer.Some? && timer.value <= stop
        invariant Following(began) && old(index) <= index
        invariant index > 0 ==> began + info[index - 1].time <= stop
        decreases |info| - index
      {
        ResetBandwidth(began);
      }
      if began == 0 {
        RateIs(initialRate, info, index, stop);
      }
    }

    method LowerBoundIndex(point: nat) returns (k: nat)
      requires Increasing(info)
      ensures k == IndexBefore(info, point)
    {
      k := 0;
      while k < |info| && info[k].time < point
        invariant k <= |info| && forall i | 0 <= i < k :: info[i].time < point
      {
        k := k + 1;
      }
      IndexIsCount(info, point, k);
    }

    method TotalThroughput(stop: nat) returns (channelBit: nat)
      requires Increasing(info)
      ensures channelBit == Integral(initialRate, info, stop)
    {
      hide Bits, IntervalBits, WholeSecondsIn, IndexBefore;
      var last := LowerBoundIndex(stop);
      IndexFacts(info, stop);
      BitsNone(initialRate, info);
      if last == 0 {
        return 0;
      }
      var bit := 0;
      for i := 0 to last
        invariant bit == Bits(initialRate, info, i)
      {
        BitsMore(initialRate, info, i);
        if i == 0 {
          bit := bit + initialRate * WholeSecondsIn(info[0].time);
        } else {
          bit := bit + info[i - 1].bps * WholeSecondsIn(info[i].time - info[i - 1].time);
        }
      }
      if stop > info[|info| - 1].time {
        LastIndex(info, stop);
        BitsLast(initialRate, info, |info|, stop);
        bit := bit + info[|info| - 1].bps * WholeSecondsIn(stop - info[|info| - 1].time);
      }
      return bit;
    }
  }

  lemma BitsNone(initial: nat, info: seq<Change>)
    requires Increasing(info)
    ensures Bits(initial, info, 0) == 0
  {}

  lemma BitsMore(initial: nat, info: seq<Change>, i: nat)
    requires Increasing(info) && i < |info|
    ensures Bits(initial, info, i + 1)
         == Bits(initial, info, i)
            + if i == 0 then initial * WholeSecondsIn(info[0].time)
              else info[i - 1].bps * WholeSecondsIn(info[i].time - info[i - 1].time)
  {
    hide WholeSecondsIn;
  }

  lemma BitsLast(initial: nat, info: seq<Change>, k: nat, end: nat)
    requires 0 < k <= |info| && info[k - 1].time <= end
    ensures IntervalBits(initial, info, k, end) == info[k - 1].bps * WholeSecondsIn(end - info[k - 1].time)
  {
    hide WholeSecondsIn;
  }

  lemma LastIndex(info: seq<Change>, stop: nat)
    requires info != []
    ensures stop > info[|info| - 1].time <==> IndexBefore(info, stop) == |info|
  {}

  function Shifted(changes: seq<Change>, shift: nat): seq<Change> {
    seq(|changes|, i requires 0 <= i < |changes| => Change(shift + changes[i].time, changes[i].bps))
  }

  lemma {:induction false} IndexIsCount(info: seq<Change>, point: nat, k: nat)
    requires Increasing(info) && k <= |info|
    requires forall i | 0 <= i < k :: info[i].time < point
    requires k < |info| ==> point <= info[k].time
    ensures IndexBefore(info, point) == k
  {
    if info != [] && k < |info| {
      IndexIsCount(info[..|info| - 1], point, k);
    }
  }

  lemma {:induction false} RateIs(initial: nat, info: seq<Change>, k: nat, t: nat)
    requires Increasing(info) && k <= |info|
    requires k > 0 ==> info[k - 1].time <= t
    requires k < |info| ==> t < info[k].time
    ensures RateAt(initial, info, t) == if k == 0 then initial else info[k - 1].bps
  {
    if info != [] && k < |info| {
      RateIs(initial, info[..|info| - 1], k, t);
    }
  }

  lemma {:induction false} Constant(initial: nat, info: seq<Change>, from: nat, upTo: nat, rate: nat)
    requires from <= upTo && forall s | from <= s < upTo :: RateAt(initial, info, s * SECOND) == rate
    ensures PerSecond(initial, info, 0, upTo) == PerSecond(initial, info, 0, from) + rate * (upTo - from)
    decreases upTo
  {
    if from < upTo {
      Constant(initial, info, from, upTo - 1, rate);
      assert rate * (upTo - from) == rate * (upTo - 1 - from) + rate;
    }
  }

  /** Between a change and the next, or before the first, the rate does not change. */
  lemma Interval(initial: nat, info: seq<Change>, k: nat, end: nat)
    requires Increasing(info) && WholeSeconds(info) && k <= |info| && Begin(info, k) <= end
    requires k < |info| ==> end <= info[k].time
    ensures PerSecond(initial, info, 0, end / SECOND)
         == PerSecond(initial, info, 0, Begin(info, k) / SECOND) + IntervalBits(initial, info, k, end)
  {
    var rate, from, upTo := RateBefore(initial, info, k), Begin(info, k) / SECOND, end / SECOND;
    forall s | from <= s < upTo ensures RateAt(initial, info, s * SECOND) == rate {
      RateIs(initial, info, k, s * SECOND);
    }
    Constant(initial, info, from, upTo, rate);
    assert WholeSecondsIn(end - Begin(info, k)) == upTo - from;
  }

  lemma {:induction false} BitsPerSecond(initial: nat, info: seq<Change>, k: nat)
    requires Increasing(info) && WholeSeconds(info) && k <= |info|
    ensures Bits(initial, info, k) == PerSecond(initial, info, 0, Begin(info, k) / SECOND)
    decreases k
  {
    if k > 0 {
      BitsPerSecond(initial, info, k - 1);
      Interval(initial, info, k - 1, info[k - 1].time);
    }
  }

  /** With changes in whole seconds the integral is the sum of the rate in force in each second up to
      its horizon. */
  lemma IntegralIsPerSecond(initial: nat, info: seq<Change>, stop: nat)
    requires Increasing(info) && WholeSeconds(info)
    ensures Integral(initial, info, stop) == PerSecond(initial, info, 0, Horizon(info, stop))
  {
    var k := IndexBefore(info, stop);
    IndexFacts(info, stop);
    BitsPerSecond(initial, info, k);
    if 0 < k == |info| {
      Interval(initial, info, k, stop);
    }
  }

  /** Every change takes effect at its own absolute time if and only if the chain is started at 0. */
  lemma PunctualExactly(info: seq<Change>, k: nat, began: nat)
    requires 0 < k <= |info|
    ensures Shifted(info[..k], began) == info[..k] <==> began == 0
  {
    if began == 0 {
      assert forall i | 0 <= i < k :: Shifted(info[..k], began)[i] == info[..k][i];
    } else {
      assert Shifted(info[..k], began)[0] != info[..k][0];
    }
  }

  lemma {:induction false} PerSecondSplits(initial: nat, info: seq<Change>, mid: nat, upTo: nat)
    requires mid <= upTo
    ensures PerSecond(initial, info, 0, upTo) == PerSecond(initial, info, 0, mid) + PerSecond(initial, info, mid, upTo)
    decreases upTo
  {
    if mid < upTo {
      PerSecondSplits(initial, info, mid, upTo - 1);
    }
  }

  lemma {:induction false} RatePositive(initial: nat, info: seq<Change>, t: nat)
    requires initial > 0 && forall i | 0 <= i < |info| :: info[i].bps > 0
    ensures RateAt(initial, info, t) > 0
  {
    if info != [] {
      RatePositive(initial, info[..|info| - 1], t);
    }
  }

  lemma {:induction false} IndexFacts(info: seq<Change>, point: nat)
    requires Increasing(info)
    ensures var k := IndexBefore(info, point);
            (k > 0 ==> info[k - 1].time < point) && (k < |info| ==> point <= info[k].time)
  {
    if info != [] {
      IndexFacts(info[..|info| - 1], point);
    }
  }

  /** With positive rates and whole seconds, the integral counts every whole second before `stop` if
      and only if `stop` is after the last change, or less than a second after the last change before
      it (less than a second at all, where there is none). Otherwise it counts too little. */
  lemma CountsAllExactly(initial: nat, info: seq<Change>, stop: nat)
    requires Increasing(info) && WholeSeconds(info)
    requires initial > 0 && forall i | 0 <= i < |info| :: info[i].bps > 0
    ensures var k := IndexBefore(info, stop);
            && Integral(initial, info, stop) <= PerSecond(initial, info, 0, stop / SECOND)
            && (Integral(initial, info, stop) == PerSecond(initial, info, 0, stop / SECOND)
                <==> 0 < k == |info| || stop - Begin(info, k) < SECOND)
  {
    var k := IndexBefore(info, stop);
    var h, all := Horizon(info, stop), stop / SECOND;
    IndexFacts(info, stop);
    IntegralIsPerSecond(initial, info, stop);
    PerSecondSplits(initial, info, h, all);
    if h < all {
      RatePositive(initial, info, (all - 1) * SECOND);
    }
  }
}
