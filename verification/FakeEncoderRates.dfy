/** What the encoder's frames amount to in bits: how large a layer is for its bit rate and frame rate,
    which frames are key frames, and which temporal layer a frame belongs to. */
module FakeEncoderRates {
  import opened Timestamps
  import opened FakeEncoder
  import opened FakeEncoderLaws

  /** The rate that an allocation sets for a spatial and a temporal layer; 0 when it sets none. */
  function RateOf(rates: Grid, spatial: nat, temporal: nat): (rate: nat)
    requires spatial < 5 && temporal < 4
    ensures rates[4 * spatial + temporal] == Some(rate) || (rates[4 * spatial + temporal].None? && rate == 0)
  {
    match rates[4 * spatial + temporal]
    case Some(rate) => rate
    case None => 0
  }

  /** By how much the rate of layer i of n is multiplied. */
  predicate FactorIs(n: nat, i: nat, f: nat) {
    || (n == 1 && i == 0 && f == 1)
    || (n == 2 && i < 2 && f == 2)
    || (n == 3 && i < 2 && f == 4) || (n == 3 && i == 2 && f == 2)
    || (n == 4 && i < 2 && f == 8) || (n == 4 && i == 2 && f == 4) || (n == 4 && i == 3 && f == 2)
  }

  lemma FactorFound(n: nat, i: nat)
    requires i < n <= 4
    ensures FactorIs(n, i, RateFactor(n, i))
  {
  }

  function Eighths(fs: seq<nat>): nat
    requires forall i | 0 <= i < |fs| :: fs[i] > 0
  {
    if fs == [] then 0 else 8 / fs[0] + Eighths(fs[1..])
  }

  /** The inverses of the factors of n layers sum to one. */
  lemma FactorsShare(n: nat, fs: seq<nat>)
    requires 1 <= n == |fs| && forall i | 0 <= i < n :: fs[i] > 0 && FactorIs(n, i, fs[i])
    ensures Eighths(fs) == 8
  {
    assert FactorIs(n, 0, fs[0]) && FactorIs(n, n - 1, fs[n - 1]);
    if n == 1 {
      assert fs == [1];
      EighthsOf(1, []);
    } else if n == 2 {
      assert fs == [2] + [2];
      EighthsOf(2, []);
      EighthsOf(2, [2]);
    } else if n == 3 {
      assert fs == [4] + [4, 2];
      HalfAndQuarter();
      EighthsOf(4, [4, 2]);
    } else {
      assert fs == [8] + [8, 4, 2];
      HalfAndQuarter();
      EighthsOf(8, [4, 2]);
      EighthsOf(8, [8, 4, 2]);
      assert [8] + [4, 2] == [8, 4, 2];
    }
  }

  lemma EighthsOf(f: nat, fs: seq<nat>)
    requires f > 0 && forall i | 0 <= i < |fs| :: fs[i] > 0
    ensures Eighths([f] + fs) == 8 / f + Eighths(fs)
    ensures [f] + [] == [f] && Eighths([]) == 0
  {
    assert ([f] + fs)[1..] == fs;
  }

  lemma HalfAndQuarter()
    ensures Eighths([4, 2]) == 6
  {
    EighthsOf(2, []);
    EighthsOf(4, [2]);
    assert [4] + [2] == [4, 2];
  }

  /** `a` bytes are what a frame may take at this rate: the largest whole number whose bits, over as many
      frames as there are in a second, stay within the rate, the rate rounded up to bytes and multiplied by
      the layer's factor. */
  predicate Fits(a: nat, rate: nat, f: nat, framerate: nat) {
    8 * framerate * a <= (rate + 7) * f < 8 * framerate * (a + 1)
  }

  /** No product exceeds 32 bits. */
  predicate Small(rate: nat, f: nat) {
    (rate + 7) * f < 0x1_0000_0000 && rate + 7 < 0x1_0000_0000
  }

  lemma QuotientFits(bits: nat, framerate: nat)
    requires framerate > 0
    ensures var a := Quotient(bits, 8 * framerate);
            8 * framerate * a <= bits < 8 * framerate * (a + 1)
  {
    var d, a := 8 * framerate, Quotient(bits, 8 * framerate);
    assert bits == d * a + bits % d;
    assert d * (a + 1) == d * a + d;
  }

  lemma AverageFits(rates: Grid, framerate: nat, n: nat, i: nat, t: nat, f: nat)
    requires i < n <= 4 && t < 4 && framerate > 0 && FactorIs(n, i, f) && Small(RateOf(rates, i, t), f)
    ensures Fits(Average(rates, framerate, n, i, t), RateOf(rates, i, t), f, framerate)
  {
    FactorFound(n, i);
    var rate := RateOf(rates, i, t);
    assert GetBitrate(rates, i, t) == rate;
    assert (rate + 7) % UINT32 == rate + 7;
    assert Product32(rate + 7, f) == (rate + 7) * f;
    QuotientFits((rate + 7) * f, framerate);
  }

  // ---------------------------------------------------------------- sizes

  lemma LayerAverage(s: State, r: Request, i: nat)
    requires r.Valid() && i < |Next(s, r).last.layers|
    ensures var n, t := |Next(s, r).last.layers|, Next(s, r).last.layers[i].temporalId;
            && n == |Averages(s, r)| <= 4 && t < 4 && i < 4
            && Averages(s, r)[i] == Average(r.rates, r.framerate, n, i, t)
            && (IsKey(s, r) ==> t == 0)
  {
    hide IsKey, SizeOf, DebtAfter, Average, TemporalIds;
  }

  /** The size of every layer: a delta layer without debt takes what fits its rate, a key frame five times
      that, and a delta layer with debt at least half. */
  lemma SizeFits(s: State, r: Request, i: nat, f: nat)
    requires r.Valid() && i < |Next(s, r).last.layers| <= 4 && FactorIs(|Next(s, r).last.layers|, i, f)
    requires Next(s, r).last.layers[i].temporalId < 4
    requires Small(RateOf(r.rates, i, Next(s, r).last.layers[i].temporalId), f)
    ensures var frame := Next(s, r).last;
            var layer := frame.layers[i];
            var rate := RateOf(r.rates, i, layer.temporalId);
            && (frame.keyframe ==> exists a: nat :: layer.size == 5 * a && Fits(a, rate, f, r.framerate))
            && (!frame.keyframe && s.debt == 0 ==> Fits(layer.size, rate, f, r.framerate))
            && (!frame.keyframe ==>
                  exists a: nat :: a - a / 2 <= layer.size <= a && Fits(a, rate, f, r.framerate))
  {
    hide Average, Averages, IsKey, Fits, Ids, TemporalIds, Payable;
    LayerAverage(s, r, i);
    LayerSized(s, r, i);
    var a := Averages(s, r)[i];
    AverageFits(r.rates, r.framerate, |Next(s, r).last.layers|, i, Next(s, r).last.layers[i].temporalId, f);
    assert Next(s, r).last.keyframe == IsKey(s, r);
    if !IsKey(s, r) {
      DeltaKeepsHalf(s, r, i);
    }
  }

  // ---------------------------------------------------------------- one layer over a second

  /** The same single stream with one temporal layer, frame after frame, nobody asking for a key frame. */
  function Repeated(r: Request, n: nat): (es: seq<Event>)
    ensures |es| == n && forall e | e in es :: e == Frame(r)
  {
    seq(n, _ => Frame(r))
  }

  predicate OneStream(r: Request) {
    && r.temporalLayers == [1] && RateOf(r.rates, 0, 0) > 0 && r.framerate > 0
    && !r.keyframe && (r.frameTypes.Some? ==> forall t | t in r.frameTypes.value :: t.Delta?)
  }

  lemma OneStreamFrame(s: State, r: Request)
    requires OneStream(r) && s.last.layers != [] && s.debt == 0
    ensures r.Valid() && !IsKey(s, r)
    ensures var t := Next(s, r);
            && |t.last.layers| == 1 && t.debt == 0
            && t.last.layers[0] == SpatialLayer(Average(r.rates, r.framerate, 1, 0, 0), 0)
  {
    var l := s.last.layers;
    assert TemporalIds(l, r, 0) == [];
    assert GetBitrate(r.rates, 0, 0) == RateOf(r.rates, 0, 0);
    assert TemporalIds(l, r, 1) == [TemporalId(l, r, 0)] == [0];
    var averages := Averages(s, r);
    assert averages == [Average(r.rates, r.framerate, 1, 0, 0)];
    hide Average;
  }

  lemma {:induction false} OneStreamBytes(s: State, r: Request, n: nat)
    requires OneStream(r) && r.Valid() && s.last.layers != [] && s.debt == 0
    ensures Bytes(s, Repeated(r, n)) == Times(n, Average(r.rates, r.framerate, 1, 0, 0))
    decreases n
  {
    hide Average, Next, Averages, Repeated;
    var es, a := Repeated(r, n), Average(r.rates, r.framerate, 1, 0, 0);
    if n == 0 {
      assert Bytes(s, es) == 0;
    } else {
      OneStreamFrame(s, r);
      var t := Next(s, r);
      OneStreamBytes(t, r, n - 1);
      RepeatedLess(r, n);
      OneSize(t.last.layers);
      assert es[0] == Frame(r);
      assert Bytes(s, es) == Sizes(t.last.layers) + Bytes(t, es[1..]);
    }
  }

  lemma RepeatedLess(r: Request, n: nat)
    requires n > 0
    ensures Repeated(r, n) != [] && Repeated(r, n)[0] == Frame(r) && Repeated(r, n)[1..] == Repeated(r, n - 1)
  {
  }

  lemma OneSize(layers: seq<SpatialLayer>)
    requires |layers| == 1
    ensures Sizes(layers) == layers[0].size
  {
    assert layers[..0] == [];
  }

  /** Over a second of frames of a single layer without debt, the bits sent are the bit rate, give or take
      the rounding: never more than seven bits above it, and less than a byte per frame below that. */
  lemma SecondOfFrames(s: State, r: Request)
    requires OneStream(r) && r.Valid() && s.last.layers != [] && s.debt == 0 && Small(RateOf(r.rates, 0, 0), 1)
    ensures var rate, bits := RateOf(r.rates, 0, 0), 8 * Bytes(s, Repeated(r, r.framerate));
            rate + 7 - 8 * r.framerate < bits <= rate + 7
  {
    hide Average, Bytes;
    var a := Average(r.rates, r.framerate, 1, 0, 0);
    AverageFits(r.rates, r.framerate, 1, 0, 0, 1);
    OneStreamBytes(s, r, r.framerate);
    assert 8 * r.framerate * (a + 1) == 8 * r.framerate * a + 8 * r.framerate;
    assert 8 * r.framerate * a == 8 * Times(r.framerate, a);
  }

  // ---------------------------------------------------------------- key frames and temporal layers

  /** The streams with a rate, in order. */
  ghost predicate Streams(r: Request, js: seq<nat>)
    requires r.Valid()
  {
    && (forall j :: j in js <==> 0 <= j < |r.temporalLayers| && RateOf(r.rates, j, 0) > 0)
    && (forall a, b | 0 <= a < b < |js| :: js[a] < js[b])
  }

  function StreamsBelow(r: Request, n: nat): seq<nat>
    requires r.Valid() && n <= |r.temporalLayers|
  {
    if n == 0 then []
    else StreamsBelow(r, n - 1) + if RateOf(r.rates, n - 1, 0) > 0 then [n - 1] else []
  }

  lemma {:induction false} StreamsAre(r: Request, n: nat)
    requires r.Valid() && n <= |r.temporalLayers|
    ensures var js := StreamsBelow(r, n);
            && (forall j :: j in js <==> 0 <= j < n && RateOf(r.rates, j, 0) > 0)
            && (forall a, b | 0 <= a < b < |js| :: js[a] < js[b])
            && (forall k | 0 <= k < |js| :: js[k] < n)
  {
    hide RateOf;
    if n > 0 {
      StreamsAre(r, n - 1);
    }
  }

  lemma {:induction false} StreamsHaveIds(last: seq<SpatialLayer>, r: Request, n: nat)
    requires r.Valid() && n <= |r.temporalLayers|
    ensures var js, ts := StreamsBelow(r, n), TemporalIds(last, r, n);
            |ts| == |js| && forall k | 0 <= k < |js| :: js[k] < n && ts[k] == TemporalId(last, r, js[k])
  {
    hide TemporalId, RateOf;
    if n > 0 {
      StreamsHaveIds(last, r, n - 1);
      SameRate(r.rates, n - 1);
    }
  }

  lemma SameRate(rates: Grid, j: nat)
    requires j < 5
    ensures GetBitrate(rates, j, 0) == RateOf(rates, j, 0)
  {
  }

  /** What a frame looks like, `js` being the streams with a rate: one layer for each; a key frame exactly
      if it is asked for, listed in the frame types, or a layer is added. On a key frame every layer starts
      at temporal layer 0; otherwise it goes on by one from the last frame, round the stream's number of
      temporal layers. */
  ghost predicate Follows(s: State, r: Request, frame: FrameInfo, js: seq<nat>) {
    && |frame.layers| == |js|
    && (frame.keyframe <==>
          || r.keyframe
          || (r.frameTypes.Some? && exists k :: 0 <= k < |r.frameTypes.value| && r.frameTypes.value[k] == Key)
          || |s.last.layers| < |js|)
    && forall k | 0 <= k < |js| ::
         && js[k] < |r.temporalLayers|
         && if frame.keyframe || js[k] >= |s.last.layers| then frame.layers[k].temporalId == 0
            else GoesRound(s.last.layers[js[k]].temporalId, frame.layers[k].temporalId, r.temporalLayers[js[k]])
  }

  /** `t` follows `last` in the round of the numbers below `count`. */
  ghost predicate GoesRound(last: nat, t: nat, count: nat) {
    t < count && exists rounds: nat :: last + 1 == t + rounds * count
  }

  lemma FrameShape(s: State, r: Request) returns (js: seq<nat>)
    requires r.Valid()
    ensures Streams(r, js) && Follows(s, r, Next(s, r).last, js)
  {
    hide RateOf, StreamsBelow, TemporalIds, TemporalId, SizeOf, DebtAfter, Averages, GoesRound;
    js := StreamsBelow(r, |r.temporalLayers|);
    StreamsAre(r, |r.temporalLayers|);
    StreamsHaveIds(s.last.layers, r, |r.temporalLayers|);
    forall k | 0 <= k < |js|
      ensures var t := TemporalId(s.last.layers, r, js[k]);
              if js[k] >= |s.last.layers| then t == 0
              else GoesRound(s.last.layers[js[k]].temporalId, t, r.temporalLayers[js[k]])
    {
      TemporalRound(s.last.layers, r, js[k]);
    }
  }

  lemma TemporalRound(last: seq<SpatialLayer>, r: Request, j: nat)
    requires r.Valid() && j < |r.temporalLayers|
    ensures var t := TemporalId(last, r, j);
            if j >= |last| then t == 0 else GoesRound(last[j].temporalId, t, r.temporalLayers[j])
  {
    if j < |last| {
      var count, next := r.temporalLayers[j], last[j].temporalId + 1;
      var rounds: nat := next / count;
      assert next == next % count + rounds * count;
    }
  }

  // ---------------------------------------------------------------- sums of rates

  lemma {:induction false} SumAdds(a: seq<Option<nat>>, b: seq<Option<nat>>)
    ensures SumBps(a + b) == SumBps(a) + SumBps(b)
    ensures forall x: nat :: SumBps([Some(x)]) == x
    ensures SumBps([None]) == 0 && SumBps([]) == 0
  {
    if b == [] {
      assert a + b == a;
    } else {
      var n := |b| - 1;
      assert (a + b)[..|a| + n] == a + b[..n];
      SumAdds(a, b[..n]);
    }
  }

  lemma KbpsRounds(g: seq<Option<nat>>)
    ensures 1000 * SumKbps(g) <= SumBps(g) < 1000 * (SumKbps(g) + 1)
  {
  }
}
