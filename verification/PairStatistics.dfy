/** The statistics of a stream of frame pairs, layer by layer and summed up: how they are computed, and
    what they mean in words of the pairs alone. */
module PairStatistics {
  import opened Timestamps
  import opened FrameHistory
  import opened FrameMatcher

  /** What SampleStats keeps of integer samples. */
  datatype Samples = Samples(count: nat, sum: nat)
  {
    function Add(x: nat): Samples { Samples(count + 1, sum + x) }

    function Plus(that: Samples): Samples { Samples(count + that.count, sum + that.sum) }
  }

  const NO_SAMPLES := Samples(0, 0)

  datatype VideoFramesStats = VideoFramesStats(count: nat, pixels: Samples, resolution: Samples)
  {
    function Plus(that: VideoFramesStats): VideoFramesStats {
      VideoFramesStats(count + that.count, pixels.Plus(that.pixels), resolution.Plus(that.resolution))
    }

    function AddFrameInfo(frame: VideoFrame): VideoFramesStats {
      VideoFramesStats(count + 1, pixels.Add(frame.width * frame.height),
                       resolution.Add(if frame.width < frame.height then frame.height else frame.width))
    }
  }

  const NO_FRAMES := VideoFramesStats(0, NO_SAMPLES, NO_SAMPLES)

  datatype VideoQualityStats = VideoQualityStats(
    lostCount: nat,
    freezeCount: nat,
    capture: VideoFramesStats,
    render: VideoFramesStats,
    skippedBetweenRendered: Samples)
  {
    function Plus(that: VideoQualityStats): VideoQualityStats {
      VideoQualityStats(lostCount + that.lostCount, freezeCount + that.freezeCount, capture.Plus(that.capture),
                        render.Plus(that.render), skippedBetweenRendered.Plus(that.skippedBetweenRendered))
    }
  }

  const NO_STATS := VideoQualityStats(0, 0, NO_FRAMES, NO_FRAMES, NO_SAMPLES)

  // ---------------------------------------------------------------- what the counters count

  datatype Fate = Lost | Frozen | Rendered

  function FateOf(p: VideoFramePair): Fate {
    if p.decoded.None? then Lost else if p.repeated > 0 then Frozen else Rendered
  }

  function Count(ps: seq<VideoFramePair>, fate: Fate): nat {
    if ps == [] then 0
    else Count(ps[..|ps| - 1], fate) + if FateOf(ps[|ps| - 1]) == fate then 1 else 0
  }

  /** How many pairs there are since the last rendered one. */
  function Gap(ps: seq<VideoFramePair>): nat {
    if ps == [] || FateOf(ps[|ps| - 1]).Rendered? then 0 else Gap(ps[..|ps| - 1]) + 1
  }

  /** For each rendered pair, how many pairs lie between it and the rendered one before. */
  function Gaps(ps: seq<VideoFramePair>): seq<nat> {
    if ps == [] then []
    else if FateOf(ps[|ps| - 1]).Rendered? then Gaps(ps[..|ps| - 1]) + [Gap(ps[..|ps| - 1])]
    else Gaps(ps[..|ps| - 1])
  }

  function SumOf(xs: seq<nat>): nat {
    if xs == [] then 0 else SumOf(xs[..|xs| - 1]) + xs[|xs| - 1]
  }

  /** The frame statistics of the captured, or of the rendered, frames of a stream of pairs. */
  function CapturedStats(ps: seq<VideoFramePair>): VideoFramesStats {
    if ps == [] then NO_FRAMES else CapturedStats(ps[..|ps| - 1]).AddFrameInfo(ps[|ps| - 1].captured)
  }

  function RenderedStats(ps: seq<VideoFramePair>): VideoFramesStats {
    if ps == [] then NO_FRAMES
    else
      var rest, p := RenderedStats(ps[..|ps| - 1]), ps[|ps| - 1];
      if FateOf(p).Rendered? then rest.AddFrameInfo(p.decoded.value) else rest
  }

  function Expected(ps: seq<VideoFramePair>): VideoQualityStats {
    VideoQualityStats(Count(ps, Lost), Count(ps, Frozen), CapturedStats(ps), RenderedStats(ps),
                      Samples(|Gaps(ps)|, SumOf(Gaps(ps))))
  }

  lemma SumOfMore(xs: seq<nat>, x: nat)
    ensures SumOf(xs + [x]) == SumOf(xs) + x
  {
    assert (xs + [x])[..|xs|] == xs;
  }

  /** What one more pair does to the statistics and to the gap. */
  lemma ExpectedMore(ps: seq<VideoFramePair>, p: VideoFramePair)
    ensures var s := Expected(ps).(capture := Expected(ps).capture.AddFrameInfo(p.captured));
            match FateOf(p)
            case Lost => Expected(ps + [p]) == s.(lostCount := s.lostCount + 1) && Gap(ps + [p]) == Gap(ps) + 1
            case Frozen => Expected(ps + [p]) == s.(freezeCount := s.freezeCount + 1) && Gap(ps + [p]) == Gap(ps) + 1
            case Rendered =>
              && Expected(ps + [p]) == s.(render := s.render.AddFrameInfo(p.decoded.value),
                                          skippedBetweenRendered := s.skippedBetweenRendered.Add(Gap(ps)))
              && Gap(ps + [p]) == 0
  {
    hide VideoFramesStats.AddFrameInfo;
    assert (ps + [p])[..|ps|] == ps;
    SumOfMore(Gaps(ps), Gap(ps));
    hide SumOf;
  }

  /** The sum of the statistics of the layers with these ids, added in this order. */
  function Total(m: map<int, VideoQualityStats>, ids: seq<int>): VideoQualityStats
    requires forall i | 0 <= i < |ids| :: ids[i] in m
  {
    if ids == [] then NO_STATS else Total(m, ids[..|ids| - 1]).Plus(m[ids[|ids| - 1]])
  }

  // ---------------------------------------------------------------- conservation

  predicate Balanced(s: VideoQualityStats) {
    && s.capture.count == s.lostCount + s.freezeCount + s.render.count
    && s.skippedBetweenRendered.count == s.render.count
    && s.skippedBetweenRendered.sum <= s.lostCount + s.freezeCount
  }

  lemma {:induction false} GapsConserved(ps: seq<VideoFramePair>)
    ensures SumOf(Gaps(ps)) + Gap(ps) == Count(ps, Lost) + Count(ps, Frozen)
    ensures |Gaps(ps)| == RenderedStats(ps).count == Count(ps, Rendered)
  {
    if ps != [] {
      var init := ps[..|ps| - 1];
      GapsConserved(init);
      SumOfMore(Gaps(init), Gap(init));
    }
  }

  lemma {:induction false} EveryPairCounted(ps: seq<VideoFramePair>)
    ensures Count(ps, Lost) + Count(ps, Frozen) + Count(ps, Rendered) == |ps| == CapturedStats(ps).count
  {
    if ps != [] {
      EveryPairCounted(ps[..|ps| - 1]);
    }
  }

  /** Every captured frame is lost, frozen or rendered; and what lies between rendered frames is what
      was lost or frozen. */
  lemma FramesConserved(ps: seq<VideoFramePair>)
    ensures Balanced(Expected(ps))
    ensures Expected(ps).capture.count == |ps|
    ensures Expected(ps).skippedBetweenRendered.sum + Gap(ps) == Expected(ps).lostCount + Expected(ps).freezeCount
  {
    GapsConserved(ps);
    EveryPairCounted(ps);
    hide Count, Gaps, Gap, SumOf, CapturedStats, RenderedStats;
  }

  lemma BalancedPlus(a: VideoQualityStats, b: VideoQualityStats)
    requires Balanced(a) && Balanced(b)
    ensures Balanced(a.Plus(b))
  {}

  /** The aggregate balances because every layer does. */
  lemma {:induction false} AggregateBalanced(m: map<int, VideoQualityStats>, ids: seq<int>)
    requires forall i | 0 <= i < |ids| :: ids[i] in m && Balanced(m[ids[i]])
    ensures Balanced(Total(m, ids))
  {
    if ids != [] {
      var n := |ids| - 1;
      AggregateBalanced(m, ids[..n]);
      BalancedPlus(Total(m, ids[..n]), m[ids[n]]);
      hide Balanced, VideoQualityStats.Plus;
    }
  }

  /** The decoded frames that a stream of pairs shows. */
  function Shown(ps: seq<VideoFramePair>): set<nat> {
    if ps == [] then {}
    else Shown(ps[..|ps| - 1]) + if ps[|ps| - 1].decoded.Some? then {ps[|ps| - 1].decodeId} else {}
  }

  lemma {:induction false} UsedIsShown(ps: seq<VideoFramePair>, id: nat)
    ensures Uses(ps, id) > 0 <==> id in Shown(ps)
  {
    if ps != [] {
      UsedIsShown(ps[..|ps| - 1], id);
    }
  }

  lemma NumberedPrefix(ps: seq<VideoFramePair>, n: nat)
    requires Numbered(ps) && n <= |ps|
    ensures Numbered(ps[..n])
  {
    forall k | 0 <= k < n
      ensures ps[..n][k].repeated == if ps[..n][k].decoded.Some? then Uses(ps[..n][..k], ps[..n][k].decodeId) else 0
    {
      assert ps[..n][..k] == ps[..k];
    }
  }

  /** On the matcher's pairs, the rendered frames are the distinct decoded frames. */
  lemma {:induction false} RenderedAreDistinct(ps: seq<VideoFramePair>)
    requires Numbered(ps)
    ensures Count(ps, Rendered) == |Shown(ps)|
  {
    if ps != [] {
      var n := |ps| - 1;
      var init, p := ps[..n], ps[n];
      NumberedPrefix(ps, n);
      assert p.decoded.Some? ==> p.repeated == Uses(init, p.decodeId);
      hide Numbered, Uses;
      RenderedAreDistinct(init);
      UsedIsShown(init, p.decodeId);
      if p.decoded.Some? && p.decodeId in Shown(init) {
        assert Shown(ps) == Shown(init);
      }
    }
  }

  /** What the analyzer counts as rendered, fed by the matcher. */
  lemma RenderCount(ps: seq<VideoFramePair>)
    requires Numbered(ps)
    ensures Expected(ps).render.count == |Shown(ps)|
  {
    GapsConserved(ps);
    RenderedAreDistinct(ps);
    hide Count, Gaps, Gap, SumOf, CapturedStats, RenderedStats, Shown, Numbered;
  }

  // ---------------------------------------------------------------- counting and adding

  /** The pairs with a property. */
  function Chosen(ps: seq<VideoFramePair>, f: VideoFramePair -> bool): seq<VideoFramePair> {
    if ps == [] then []
    else Chosen(ps[..|ps| - 1], f) + if f(ps[|ps| - 1]) then [ps[|ps| - 1]] else []
  }

  function Added(ps: seq<VideoFramePair>, f: VideoFramePair -> nat): nat {
    if ps == [] then 0 else Added(ps[..|ps| - 1], f) + f(ps[|ps| - 1])
  }

  predicate NeverDecoded(p: VideoFramePair) {
    p.decoded.None?
  }

  predicate ShownAgain(p: VideoFramePair) {
    p.decoded.Some? && p.repeated > 0
  }

  predicate ShownFirst(p: VideoFramePair) {
    p.decoded.Some? && p.repeated == 0
  }

  function CapturedArea(p: VideoFramePair): nat {
    p.captured.width * p.captured.height
  }

  function CapturedSide(p: VideoFramePair): (side: nat)
    ensures side == p.captured.width || side == p.captured.height
    ensures side >= p.captured.width && side >= p.captured.height
  {
    if p.captured.width >= p.captured.height then p.captured.width else p.captured.height
  }

  function DecodedArea(p: VideoFramePair): nat {
    if p.decoded.Some? then p.decoded.value.width * p.decoded.value.height else 0
  }

  function DecodedSide(p: VideoFramePair): (side: nat)
    ensures p.decoded.Some? ==> side == p.decoded.value.width || side == p.decoded.value.height
    ensures p.decoded.Some? ==> side >= p.decoded.value.width && side >= p.decoded.value.height
  {
    if p.decoded.None? then 0
    else if p.decoded.value.width >= p.decoded.value.height then p.decoded.value.width
    else p.decoded.value.height
  }

  lemma {:induction false} ChosenConcat(a: seq<VideoFramePair>, b: seq<VideoFramePair>, f: VideoFramePair -> bool)
    ensures Chosen(a + b, f) == Chosen(a, f) + Chosen(b, f)
  {
    if b == [] {
      assert a + b == a;
    } else {
      var n := |b| - 1;
      assert (a + b)[..|a| + n] == a + b[..n];
      ChosenConcat(a, b[..n], f);
    }
  }

  lemma {:induction false} AddedConcat(a: seq<VideoFramePair>, b: seq<VideoFramePair>, f: VideoFramePair -> nat)
    ensures Added(a + b, f) == Added(a, f) + Added(b, f)
  {
    if b == [] {
      assert a + b == a;
    } else {
      var n := |b| - 1;
      assert (a + b)[..|a| + n] == a + b[..n];
      AddedConcat(a, b[..n], f);
    }
  }

  /** One more pair. */
  lemma ChosenMore(ps: seq<VideoFramePair>, p: VideoFramePair, f: VideoFramePair -> bool)
    ensures Chosen(ps + [p], f) == if f(p) then Chosen(ps, f) + [p] else Chosen(ps, f)
  {
    assert (ps + [p])[..|ps|] == ps;
  }

  lemma AddedMore(ps: seq<VideoFramePair>, p: VideoFramePair, f: VideoFramePair -> nat)
    ensures Added(ps + [p], f) == Added(ps, f) + f(p)
  {
    assert (ps + [p])[..|ps|] == ps;
  }

  // ---------------------------------------------------------------- one layer

  /** The positions of the pairs that show a decoded frame for the first time. */
  function RenderedAt(ps: seq<VideoFramePair>): (at: seq<nat>)
    ensures forall k | 0 <= k < |at| :: at[k] < |ps|
  {
    if ps == [] then []
    else RenderedAt(ps[..|ps| - 1]) + if ShownFirst(ps[|ps| - 1]) then [|ps| - 1] else []
  }

  /** The gap before a rendered pair is the number of pairs since the rendered one before it. */
  lemma {:induction false} GapsLieBetween(ps: seq<VideoFramePair>)
    ensures |Gaps(ps)| == |RenderedAt(ps)| == |Chosen(ps, ShownFirst)|
    ensures forall k | 0 <= k < |Gaps(ps)| :: RenderedAt(ps)[k] == Gaps(ps)[k] + Behind(RenderedAt(ps)[..k])
    ensures |ps| == Gap(ps) + Behind(RenderedAt(ps))
  {
    hide Chosen, Behind, Gaps, Gap, RenderedAt;
    if ps == [] {
      ChosenNone();
    } else {
      var n := |ps| - 1;
      var init, p := ps[..n], ps[n];
      assert ps == init + [p];
      GapsLieBetween(init);
      ChosenMore(init, p, ShownFirst);
      OneGapMore(init, p);
      var at, gaps := RenderedAt(init), Gaps(init);
      if ShownFirst(p) {
        assert (at + [n])[..|at|] == at;
        forall k | 0 <= k < |gaps|
          ensures (at + [n])[k] == (gaps + [Gap(init)])[k] + Behind((at + [n])[..k])
        {
          assert (at + [n])[..k] == at[..k];
        }
      }
    }
  }

  /** How many pairs there are up to and including the last rendered one. */
  function Behind(at: seq<nat>): nat {
    if at == [] then 0 else at[|at| - 1] + 1
  }

  lemma OneGapMore(ps: seq<VideoFramePair>, p: VideoFramePair)
    ensures Gaps(ps + [p]) == if ShownFirst(p) then Gaps(ps) + [Gap(ps)] else Gaps(ps)
    ensures Gap(ps + [p]) == if ShownFirst(p) then 0 else Gap(ps) + 1
    ensures RenderedAt(ps + [p]) == if ShownFirst(p) then RenderedAt(ps) + [|ps|] else RenderedAt(ps)
    ensures Behind(RenderedAt(ps) + [|ps|]) == |ps| + 1
  {
    hide Gaps, Gap, RenderedAt;
    GapsOf(ps, p);
    GapOf(ps, p);
    RenderedOf(ps, p);
  }

  lemma GapsOf(ps: seq<VideoFramePair>, p: VideoFramePair)
    ensures Gaps(ps + [p]) == if ShownFirst(p) then Gaps(ps) + [Gap(ps)] else Gaps(ps)
  {
    hide Gap;
    assert (ps + [p])[..|ps|] == ps;
  }

  lemma GapOf(ps: seq<VideoFramePair>, p: VideoFramePair)
    ensures Gap(ps + [p]) == if ShownFirst(p) then 0 else Gap(ps) + 1
  {
    assert (ps + [p])[..|ps|] == ps;
  }

  lemma RenderedOf(ps: seq<VideoFramePair>, p: VideoFramePair)
    ensures RenderedAt(ps + [p]) == if ShownFirst(p) then RenderedAt(ps) + [|ps|] else RenderedAt(ps)
  {
    assert (ps + [p])[..|ps|] == ps;
  }

  lemma ChosenNone()
    ensures Chosen([], ShownFirst) == [] && Gaps([]) == [] && Gap([]) == 0
    ensures RenderedAt([]) == [] && Behind([]) == 0
  {
  }

  /** The counters and samples of a stream of pairs, each said in words of the pairs alone. */
  ghost predicate Reports(s: VideoQualityStats, ps: seq<VideoFramePair>, skipped: nat) {
    && s.lostCount == |Chosen(ps, NeverDecoded)| && s.freezeCount == |Chosen(ps, ShownAgain)|
    && s.capture.count == |ps| && s.render.count == |Chosen(ps, ShownFirst)|
    && s.capture.pixels == Samples(|ps|, Added(ps, CapturedArea))
    && s.capture.resolution == Samples(|ps|, Added(ps, CapturedSide))
    && s.render.pixels == Samples(s.render.count, Added(Chosen(ps, ShownFirst), DecodedArea))
    && s.render.resolution == Samples(s.render.count, Added(Chosen(ps, ShownFirst), DecodedSide))
    && s.skippedBetweenRendered == Samples(s.render.count, skipped)
  }

  lemma ReportsNothing()
    ensures Reports(NO_STATS, [], 0) && Reports(Expected([]), [], 0) && Gaps([]) == [] && SumOf([]) == 0
  {
  }

  /** What the analyzer of a layer holds is what its pairs are. */
  lemma {:induction false} LayerReports(ps: seq<VideoFramePair>)
    ensures Reports(Expected(ps), ps, SumOf(Gaps(ps)))
  {
    if ps == [] {
      ReportsNothing();
    } else {
      var n := |ps| - 1;
      var init, p := ps[..n], ps[n];
      LayerReports(init);
      assert ps == init + [p];
      ReportsMore(init, p);
    }
  }

  lemma ReportsMore(ps: seq<VideoFramePair>, p: VideoFramePair)
    requires Reports(Expected(ps), ps, SumOf(Gaps(ps)))
    ensures Reports(Expected(ps + [p]), ps + [p], SumOf(Gaps(ps + [p])))
  {
    hide Expected, Chosen, Added, Gaps, SumOf, Gap;
    ExpectedMore(ps, p);
    GapsMore(ps, p);
    ChosenMore(ps, p, NeverDecoded);
    ChosenMore(ps, p, ShownAgain);
    ChosenMore(ps, p, ShownFirst);
    AddedMore(ps, p, CapturedArea);
    AddedMore(ps, p, CapturedSide);
    AddedMore(Chosen(ps, ShownFirst), p, DecodedArea);
    AddedMore(Chosen(ps, ShownFirst), p, DecodedSide);
  }

  lemma GapsMore(ps: seq<VideoFramePair>, p: VideoFramePair)
    ensures SumOf(Gaps(ps + [p])) == SumOf(Gaps(ps)) + if ShownFirst(p) then Gap(ps) else 0
  {
    hide Gaps, Gap, RenderedAt;
    OneGapMore(ps, p);
    SumOfMore(Gaps(ps), Gap(ps));
  }

  // ---------------------------------------------------------------- all layers

  /** The pairs of the layers with these ids, one layer after the other. */
  function Joined(m: map<int, seq<VideoFramePair>>, ids: seq<int>): seq<VideoFramePair>
    requires forall i | 0 <= i < |ids| :: ids[i] in m
  {
    if ids == [] then [] else Joined(m, ids[..|ids| - 1]) + m[ids[|ids| - 1]]
  }

  /** The gaps of each layer, added up over the layers. */
  function AllGaps(m: map<int, seq<VideoFramePair>>, ids: seq<int>): nat
    requires forall i | 0 <= i < |ids| :: ids[i] in m
  {
    if ids == [] then 0 else AllGaps(m, ids[..|ids| - 1]) + SumOf(Gaps(m[ids[|ids| - 1]]))
  }

  lemma ReportsPlus(s: VideoQualityStats, a: seq<VideoFramePair>, g: nat, t: VideoQualityStats,
        b: seq<VideoFramePair>, h: nat)
    requires Reports(s, a, g) && Reports(t, b, h)
    ensures Reports(s.Plus(t), a + b, g + h)
  {
    hide Chosen, Added;
    ChosenConcat(a, b, NeverDecoded);
    ChosenConcat(a, b, ShownAgain);
    ChosenConcat(a, b, ShownFirst);
    AddedConcat(a, b, CapturedArea);
    AddedConcat(a, b, CapturedSide);
    AddedConcat(Chosen(a, ShownFirst), Chosen(b, ShownFirst), DecodedArea);
    AddedConcat(Chosen(a, ShownFirst), Chosen(b, ShownFirst), DecodedSide);
  }

  /** The sum over the layers reports on their pairs joined. */
  lemma {:induction false} TotalReports(stats: map<int, VideoQualityStats>, pairs: map<int, seq<VideoFramePair>>,
        ids: seq<int>)
    requires forall i | 0 <= i < |ids| ::
               ids[i] in stats && ids[i] in pairs && stats[ids[i]] == Expected(pairs[ids[i]])
    ensures Reports(Total(stats, ids), Joined(pairs, ids), AllGaps(pairs, ids))
  {
    hide Reports, Expected, VideoQualityStats.Plus, Gaps, SumOf;
    if ids == [] {
      ReportsNothing();
    } else {
      var n := |ids| - 1;
      TotalReports(stats, pairs, ids[..n]);
      LayerReports(pairs[ids[n]]);
      ReportsPlus(Total(stats, ids[..n]), Joined(pairs, ids[..n]), AllGaps(pairs, ids[..n]),
                  stats[ids[n]], pairs[ids[n]], SumOf(Gaps(pairs[ids[n]])));
    }
  }
}
