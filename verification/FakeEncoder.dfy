/** The fake encoder's frame sizes, with the byte debt that key frames leave behind, and the cap on
    its rate allocation. */
module FakeEncoder {
  import opened Timestamps

  const UINT32 := 0x1_0000_0000

  // ---------------------------------------------------------------- rate allocations

  const SPATIAL := 5
  const TEMPORAL := 4

  /** The bit rate of each spatial and temporal layer, where one is set. */
  type Grid = g: seq<Option<nat>> | |g| == SPATIAL * TEMPORAL witness seq(SPATIAL * TEMPORAL, _ => None)

  function GetBitrate(g: Grid, spatial: nat, temporal: nat): nat
    requires spatial < SPATIAL && temporal < TEMPORAL
  {
    var cell := g[spatial * TEMPORAL + temporal];
    if cell.Some? then cell.value else 0
  }

  function SumBps(cells: seq<Option<nat>>): nat {
    if cells == [] then 0
    else SumBps(cells[..|cells| - 1])
         + if cells[|cells| - 1].Some? then cells[|cells| - 1].value else 0
  }

  /** Rounded down. */
  function SumKbps(cells: seq<Option<nat>>): nat {
    SumBps(cells) / 1000
  }

  /** A rate in proportion max : kbps, rounded down. */
  function Proportion(bps: nat, max: nat, kbps: nat): nat
    requires kbps > 0
  {
    bps * max / kbps
  }

  function Share(cell: Option<nat>, max: nat, kbps: nat): Option<nat>
    requires kbps > 0
  {
    match cell
    case None => None
    case Some(b) => Some(Proportion(b, max, kbps))
  }

  function Scaled(cells: seq<Option<nat>>, max: nat, kbps: nat): (r: seq<Option<nat>>)
    requires kbps > 0
    ensures |r| == |cells|
  {
    seq(|cells|, i requires 0 <= i < |cells| => Share(cells[i], max, kbps))
  }

  /** What SetRates makes of an allocation under a maximum; a maximum that is not positive is none. */
  function Capped(g: Grid, max: int): Grid {
    if 0 < max < SumKbps(g) then Scaled(g, max, SumKbps(g)) else g
  }

  // ---------------------------------------------------------------- frames

  const KEYFRAME_SIZE_FACTOR := 5

  /** Four factors for each possible number of layers. */
  const TEMPORAL_LAYER_RATE_FACTOR: seq<nat> :=
    [1, 0, 0, 0,
     2, 2, 0, 0,
     4, 4, 2, 0,
     8, 8, 4, 2]

  datatype FrameType = Key | Delta

  datatype SpatialLayer = SpatialLayer(size: nat, temporalId: nat)

  datatype FrameInfo = FrameInfo(keyframe: bool, layers: seq<SpatialLayer>)

  /** One call of NextFrame: temporalLayers has an entry for each simulcast stream. */
  datatype Request = Request(
    keyframe: bool,
    frameTypes: Option<seq<FrameType>>,
    rates: Grid,
    temporalLayers: seq<nat>,
    framerate: nat)
  {
    /** What the arrays and divisions of the code need. */
    predicate Valid() {
      && |temporalLayers| <= 4 && framerate > 0
      && forall i | 0 <= i < |temporalLayers| :: 1 <= temporalLayers[i] <= TEMPORAL
    }
  }

  function RateFactor(n: nat, i: nat): nat
    requires i < n <= 4
  {
    TEMPORAL_LAYER_RATE_FACTOR[4 * (n - 1) + i]
  }

  /** The product of two 32-bit unsigned numbers. */
  function Product32(a: nat, b: nat): nat {
    a * b % UINT32
  }

  function Quotient(a: nat, b: nat): nat
    requires b > 0
  {
    a / b
  }

  /** The average size of layer i of n. */
  function Average(rates: Grid, framerate: nat, n: nat, i: nat, temporalId: nat): nat
    requires i < n <= 4 && temporalId < TEMPORAL && framerate > 0
  {
    var bits := Product32((GetBitrate(rates, i, temporalId) + 7) % UINT32, RateFactor(n, i));
    Quotient(bits, 8 * framerate)
  }

  function TemporalId(last: seq<SpatialLayer>, r: Request, i: nat): (t: nat)
    requires r.Valid() && i < |r.temporalLayers|
    ensures t < TEMPORAL
  {
    if i < |last| then (last[i].temporalId + 1) % r.temporalLayers[i] else 0
  }

  /** The temporal layers of the streams among the first n that have a rate. */
  function TemporalIds(last: seq<SpatialLayer>, r: Request, n: nat): (ts: seq<nat>)
    requires r.Valid() && n <= |r.temporalLayers|
    ensures |ts| <= n && forall i | 0 <= i < |ts| :: ts[i] < TEMPORAL
  {
    if n == 0 then []
    else TemporalIds(last, r, n - 1)
         + if GetBitrate(r.rates, n - 1, 0) > 0 then [TemporalId(last, r, n - 1)] else []
  }

  function Sum(xs: seq<nat>): nat {
    if xs == [] then 0 else Sum(xs[..|xs| - 1]) + xs[|xs| - 1]
  }

  /** The most that layers of these averages can pay: half of each. */
  function Payable(averages: seq<nat>): nat {
    if averages == [] then 0 else Payable(averages[..|averages| - 1]) + averages[|averages| - 1] / 2
  }

  function Min(a: nat, b: nat): nat {
    if b < a then b else a
  }

  function Left(debt: nat, paid: nat): nat {
    if paid < debt then debt - paid else 0
  }

  datatype State = State(last: FrameInfo, debt: nat)

  predicate IsKey(s: State, r: Request)
    requires r.Valid()
  {
    || r.keyframe
    || (r.frameTypes.Some? && Key in r.frameTypes.value)
    || |s.last.layers| < |TemporalIds(s.last.layers, r, |r.temporalLayers|)|
  }

  function Ids(s: State, r: Request): (ts: seq<nat>)
    requires r.Valid()
    ensures |ts| <= 4 && forall i | 0 <= i < |ts| :: ts[i] < TEMPORAL
  {
    var ts := TemporalIds(s.last.layers, r, |r.temporalLayers|);
    if IsKey(s, r) then seq(|ts|, _ => 0) else ts
  }

  function Averages(s: State, r: Request): (xs: seq<nat>)
    requires r.Valid()
    ensures |xs| == |Ids(s, r)|
  {
    var ts := Ids(s, r);
    seq(|ts|, i requires 0 <= i < |ts| => Average(r.rates, r.framerate, |ts|, i, ts[i]))
  }

  /** The size of layer i, when the layers before it have paid what they can. */
  function SizeOf(key: bool, averages: seq<nat>, debt: nat, i: nat): nat
    requires i < |averages|
  {
    if key then KEYFRAME_SIZE_FACTOR * averages[i]
    else averages[i] - Min(averages[i] / 2, Left(debt, Payable(averages[..i])))
  }

  function Sized(key: bool, averages: seq<nat>, debt: nat, i: nat, blank: SpatialLayer): SpatialLayer
    requires i < |averages|
  {
    SpatialLayer(SizeOf(key, averages, debt, i), if key then 0 else blank.temporalId)
  }

  function DebtAfter(key: bool, averages: seq<nat>, debt: nat): nat {
    if key then debt + (KEYFRAME_SIZE_FACTOR - 1) * Sum(averages) else Left(debt, Payable(averages))
  }

  function Next(s: State, r: Request): State
    requires r.Valid()
  {
    var key, ts, averages := IsKey(s, r), Ids(s, r), Averages(s, r);
    State(
      FrameInfo(key, seq(|ts|, i requires 0 <= i < |ts| => SpatialLayer(SizeOf(key, averages, s.debt, i), ts[i]))),
      DebtAfter(key, averages, s.debt))
  }

  lemma ScaledOn(g: Grid, max: nat, kbps: nat, k: nat)
    requires kbps > 0 && k < |g|
    ensures g[k].Some? ==>
              (Scaled(g, max, kbps)[..k] + g[k..])[k := Some(Proportion(g[k].value, max, kbps))] ==
                Scaled(g, max, kbps)[..k + 1] + g[k + 1..]
    ensures g[k].None? ==> Scaled(g, max, kbps)[..k] + g[k..] == Scaled(g, max, kbps)[..k + 1] + g[k + 1..]
  {}

  /** One layer at a time: what it pays depends on the debt that the layers before it left. */
  lemma LayerOn(key: bool, averages: seq<nat>, debt: nat, i: nat)
    requires i < |averages|
    ensures var left := DebtAfter(key, averages[..i], debt);
            var payment := Min(averages[i] / 2, left);
            && DebtAfter(key, averages[..i + 1], debt)
               == (if key then left + (KEYFRAME_SIZE_FACTOR - 1) * averages[i] else left - payment)
            && SizeOf(key, averages, debt, i)
               == (if key then KEYFRAME_SIZE_FACTOR * averages[i] else averages[i] - payment)
  {
    assert averages[..i + 1][..i] == averages[..i];
  }

  // ---------------------------------------------------------------- the code

  class FakeEncoder {
    var maxTargetBitrateKbps: int
    var currentRates: Grid
    var pendingKeyframe: bool
    var lastFrameInfo: FrameInfo
    var debtBytes: nat

    ghost function Value(): State
      reads this
    {
      State(lastFrameInfo, debtBytes)
    }

    constructor ()
      ensures maxTargetBitrateKbps == -1 && pendingKeyframe
      ensures Value() == State(FrameInfo(false, []), 0)
    {
      maxTargetBitrateKbps, currentRates, pendingKeyframe := -1, seq(SPATIAL * TEMPORAL, _ => None), true;
      lastFrameInfo, debtBytes := FrameInfo(false, []), 0;
    }

    /** The last frame is forgotten; the debt is not. */
    method InitEncode(startBitrateKbps: nat)
      modifies `currentRates, `pendingKeyframe, `lastFrameInfo
      ensures pendingKeyframe && Value() == State(FrameInfo(false, []), old(debtBytes))
      ensures currentRates == old(currentRates)[0 := Some(startBitrateKbps * 1000)]
    {
      currentRates := currentRates[0 := Some(startBitrateKbps * 1000)];
      pendingKeyframe := true;
      lastFrameInfo := FrameInfo(false, []);
    }

    method SetMaxBitrate(maxKbps: int)
      requires maxKbps >= -1
      modifies `maxTargetBitrateKbps, `currentRates
      ensures maxTargetBitrateKbps == maxKbps
      ensures currentRates == Capped(old(currentRates), maxKbps)
    {
      maxTargetBitrateKbps := maxKbps;
      SetRates(currentRates);
    }

    method SetRates(parameters: Grid)
      modifies `currentRates
      ensures currentRates == Capped(parameters, maxTargetBitrateKbps)
    {
      currentRates := parameters;
      var kbps := SumKbps(parameters);
      if maxTargetBitrateKbps > 0 && kbps > maxTargetBitrateKbps {
        hide Capped, SumBps, Scaled, Share, Proportion;
        ghost var goal := Scaled(parameters, maxTargetBitrateKbps, kbps);
        for spatial := 0 to SPATIAL
          invariant currentRates == goal[..spatial * TEMPORAL] + parameters[spatial * TEMPORAL..]
        {
          for temporal := 0 to TEMPORAL
            invariant var k := spatial * TEMPORAL + temporal;
                      currentRates == goal[..k] + parameters[k..]
          {
            var k := spatial * TEMPORAL + temporal;
            if currentRates[k].Some? {
              var bitrate := GetBitrate(currentRates, spatial, temporal);
              bitrate := Proportion(bitrate, maxTargetBitrateKbps, kbps);
              currentRates := currentRates[k := Some(bitrate)];
            }
            ScaledOn(parameters, maxTargetBitrateKbps, kbps, k);
          }
        }
      }
    }

    method NextFrame(r: Request) returns (frame: FrameInfo)
      requires r.Valid()
      modifies `lastFrameInfo, `debtBytes
      ensures Value() == Next(old(Value()), r)
      ensures frame == lastFrameInfo
    {
      ghost var was := Value();
      var keyframe := r.keyframe;
      if r.frameTypes.Some? {
        var types := r.frameTypes.value;
        for k := 0 to |types|
          invariant !keyframe ==> Key !in types[..k]
          invariant keyframe ==> r.keyframe || Key in types
        {
          if types[k] == Key {
            keyframe := true;
            break;
          }
        }
      }
      var layers: seq<SpatialLayer> := [];
      for i := 0 to |r.temporalLayers|
        invariant layers == Blank(TemporalIds(lastFrameInfo.layers, r, i))
      {
        if GetBitrate(r.rates, i, 0) > 0 {
          var temporalId := if |lastFrameInfo.layers| > i
            then (lastFrameInfo.layers[i].temporalId + 1) % r.temporalLayers[i]
            else 0;
          layers := layers + [SpatialLayer(0, temporalId)];
        }
      }
      if |lastFrameInfo.layers| < |layers| {
        keyframe := true;
      }
      assert keyframe == IsKey(was, r);
      layers := SizeLayers(keyframe, layers, r);
      frame := FrameInfo(keyframe, layers);
      lastFrameInfo := frame;
    }

    /** The loop that gives every layer its size. */
    method SizeLayers(keyframe: bool, blank: seq<SpatialLayer>, r: Request) returns (layers: seq<SpatialLayer>)
      requires r.Valid() && keyframe == IsKey(Value(), r)
      requires blank == Blank(TemporalIds(lastFrameInfo.layers, r, |r.temporalLayers|))
      modifies `debtBytes
      ensures layers == Next(old(Value()), r).last.layers
      ensures debtBytes == Next(old(Value()), r).debt
    {
      ghost var was := Value();
      hide Next, DebtAfter, SizeOf, Average, Averages, IsKey, Blank, Ids, TemporalIds;
      hide Left, Payable, Sum, Request.Valid;
      ghost var averages := Averages(was, r);
      NothingSized(was, r, blank);
      layers := blank;
      for i := 0 to |layers|
        invariant |layers| == |blank|
        invariant debtBytes == DebtAfter(keyframe, averages[..i], was.debt)
        invariant forall k | i <= k < |blank| :: layers[k] == blank[k]
        invariant forall k | 0 <= k < i :: layers[k] == Sized(keyframe, averages, was.debt, k, blank[k])
      {
        var layer := layers[i];
        AverageOf(was, r, blank, i);
        if keyframe {
          layer := layer.(temporalId := 0);
          var average := Average(r.rates, r.framerate, |layers|, i, 0);
          debtBytes := debtBytes + (KEYFRAME_SIZE_FACTOR - 1) * average;
          layer := layer.(size := KEYFRAME_SIZE_FACTOR * average);
        } else {
          var average := Average(r.rates, r.framerate, |layers|, i, layer.temporalId);
          layer := layer.(size := average);
          if debtBytes > 0 {
            var payment := if debtBytes < average / 2 then debtBytes else average / 2;
            debtBytes := debtBytes - payment;
            layer := layer.(size := layer.size - payment);
          }
        }
        LayerOn(keyframe, averages, was.debt, i);
        layers := layers[i := layer];
      }
      assert averages[..|layers|] == averages;
      LayersMatch(was, r, blank, layers);
    }
  }

  lemma NothingSized(s: State, r: Request, blank: seq<SpatialLayer>)
    requires r.Valid() && blank == Blank(TemporalIds(s.last.layers, r, |r.temporalLayers|))
    ensures |Averages(s, r)| == |blank|
    ensures Averages(s, r)[..0] == [] && DebtAfter(IsKey(s, r), [], s.debt) == s.debt
  {}

  lemma AverageOf(s: State, r: Request, blank: seq<SpatialLayer>, i: nat)
    requires r.Valid() && blank == Blank(TemporalIds(s.last.layers, r, |r.temporalLayers|)) && i < |blank|
    ensures |blank| <= 4 && blank[i].temporalId < TEMPORAL && r.framerate > 0
    ensures Averages(s, r)[i]
         == Average(r.rates, r.framerate, |blank|, i, if IsKey(s, r) then 0 else blank[i].temporalId)
  {}

  lemma LayersMatch(s: State, r: Request, blank: seq<SpatialLayer>, layers: seq<SpatialLayer>)
    requires r.Valid() && blank == Blank(TemporalIds(s.last.layers, r, |r.temporalLayers|)) && |layers| == |blank|
    requires forall k | 0 <= k < |layers| ::
               layers[k] == Sized(IsKey(s, r), Averages(s, r), s.debt, k, blank[k])
    ensures Next(s, r).last.layers == layers
    ensures Next(s, r).debt == DebtAfter(IsKey(s, r), Averages(s, r), s.debt)
  {
    hide SizeOf, IsKey, DebtAfter;
  }

  /** Layers that have a temporal layer but no size yet. */
  function Blank(ts: seq<nat>): (layers: seq<SpatialLayer>)
    ensures |layers| == |ts|
  {
    seq(|ts|, i requires 0 <= i < |ts| => SpatialLayer(0, ts[i]))
  }
}
