/** The quality analyzer that the frame matcher feeds: counters and integer samples for each layer,
    and their cached sum. */
module QualityAnalyzer {
  import opened Timestamps
  import opened FrameHistory
  import opened FrameMatcher
  import opened PairStatistics

  // ---------------------------------------------------------------- the code

  class VideoLayerAnalyzer {
    var stats: VideoQualityStats
    var skipCount: nat
    ghost var pairs: seq<VideoFramePair>

    ghost predicate Valid()
      reads this
    {
      stats == Expected(pairs) && skipCount == Gap(pairs)
    }

    constructor ()
      ensures Valid() && pairs == []
    {
      stats, skipCount, pairs := NO_STATS, 0, [];
    }

    method HandleFramePair(sample: VideoFramePair)
      requires Valid() && sample.captureTime.Micros?
      requires FateOf(sample).Rendered? ==> sample.renderTime.Micros?
      modifies this
      ensures Valid() && pairs == old(pairs) + [sample]
    {
      hide VideoFramesStats.AddFrameInfo, Expected, Gap;
      ExpectedMore(pairs, sample);
      pairs := pairs + [sample];
      HandleCapturedFrame(sample);
      if sample.decoded.None? {
        stats := stats.(lostCount := stats.lostCount + 1);
        skipCount := skipCount + 1;
      } else {
        if sample.repeated != 0 {
          stats := stats.(freezeCount := stats.freezeCount + 1);
          skipCount := skipCount + 1;
        } else {
          HandleRenderedFrame(sample);
        }
      }
    }

    method HandleCapturedFrame(sample: VideoFramePair)
      requires sample.captureTime.Micros?
      modifies `stats
      ensures stats == old(stats).(capture := old(stats).capture.AddFrameInfo(sample.captured))
    {
      stats := stats.(capture := stats.capture.AddFrameInfo(sample.captured));
    }

    method HandleRenderedFrame(sample: VideoFramePair)
      requires sample.decoded.Some? && sample.renderTime.Micros?
      modifies `stats, `skipCount
      ensures skipCount == 0
      ensures stats == old(stats).(render := old(stats).render.AddFrameInfo(sample.decoded.value),
                                   skippedBetweenRendered := old(stats).skippedBetweenRendered.Add(old(skipCount)))
    {
      stats := stats.(render := stats.render.AddFrameInfo(sample.decoded.value));
      stats := stats.(skippedBetweenRendered := stats.skippedBetweenRendered.Add(skipCount));
      skipCount := 0;
    }
  }

  /** The keys of an ordered map. */
  ghost predicate Ascending(ids: seq<int>) {
    forall i, j | 0 <= i < j < |ids| :: ids[i] < ids[j]
  }

  function Inserted(ids: seq<int>, id: int): (r: seq<int>)
    ensures forall x :: x in r <==> x in ids || x == id
  {
    if ids == [] || id < ids[0] then [id] + ids
    else if id == ids[0] then ids
    else [ids[0]] + Inserted(ids[1..], id)
  }

  lemma {:induction false} InsertedAscending(ids: seq<int>, id: int)
    requires Ascending(ids)
    ensures Ascending(Inserted(ids, id))
  {
    if ids != [] && id > ids[0] {
      InsertedAscending(ids[1..], id);
      var r := Inserted(ids[1..], id);
      forall j | 0 <= j < |r| ensures ids[0] < r[j] {
        assert r[j] in r;
        if r[j] != id {
          var k :| 0 <= k < |ids| - 1 && ids[1..][k] == r[j];
          assert ids[k + 1] == r[j];
        }
      }
    }
  }

  class VideoQualityAnalyzer {
    /** The layers' analyzers, and their ids in ascending order. */
    var layerAnalyzers: map<int, VideoLayerAnalyzer>
    var ids: seq<int>
    var cached: Option<VideoQualityStats>

    ghost function LayerStats(): map<int, VideoQualityStats>
      reads this, layerAnalyzers.Values
    {
      map id | id in layerAnalyzers :: layerAnalyzers[id].stats
    }

    ghost function LayerPairs(): map<int, seq<VideoFramePair>>
      reads this, layerAnalyzers.Values
    {
      map id | id in layerAnalyzers :: layerAnalyzers[id].pairs
    }

    ghost predicate Keyed()
      reads this
    {
      && Ascending(ids)
      && (forall i | 0 <= i < |ids| :: ids[i] in layerAnalyzers)
      && (forall id | id in layerAnalyzers :: id in ids)
    }

    ghost predicate Valid()
      reads this, layerAnalyzers.Values
    {
      && Keyed()
      && (forall id | id in layerAnalyzers :: layerAnalyzers[id].Valid())
      && (forall i, j | i in layerAnalyzers && j in layerAnalyzers && i != j :: layerAnalyzers[i] != layerAnalyzers[j])
      && (cached.Some? ==> cached.value == Total(LayerStats(), ids))
    }

    constructor ()
      ensures Valid() && layerAnalyzers == map[]
    {
      layerAnalyzers, ids, cached := map[], [], None;
    }

    /** One pair for one layer, which starts with its first pair. */
    method HandleFramePair(layerId: int, sample: VideoFramePair)
      requires Valid() && sample.captureTime.Micros?
      requires FateOf(sample).Rendered? ==> sample.renderTime.Micros?
      modifies this, layerAnalyzers.Values
      ensures Valid() && layerAnalyzers.Keys == old(layerAnalyzers.Keys) + {layerId}
      ensures layerAnalyzers[layerId].pairs
           == (if layerId in old(layerAnalyzers) then old(layerAnalyzers[layerId].pairs) else []) + [sample]
      ensures forall id | id in old(layerAnalyzers) && id != layerId ::
                && layerAnalyzers[id] == old(layerAnalyzers[id])
                && layerAnalyzers[id].pairs == old(layerAnalyzers[id].pairs)
    {
      hide Expected, Ascending, Inserted, Total;
      if layerId !in layerAnalyzers {
        var analyzer := new VideoLayerAnalyzer();
        InsertedAscending(ids, layerId);
        layerAnalyzers := layerAnalyzers[layerId := analyzer];
        ids := Inserted(ids, layerId);
        assert forall i | 0 <= i < |ids| :: ids[i] in ids;
      }
      layerAnalyzers[layerId].HandleFramePair(sample);
      cached := None;
    }

    /** The cached sum is always the fresh one. */
    method Stats() returns (s: VideoQualityStats)
      requires Valid()
      modifies `cached
      ensures Valid() && cached == Some(s) && s == Total(LayerStats(), ids) && Balanced(s)
      ensures LayerStats() == old(LayerStats()) && LayerPairs() == old(LayerPairs())
      ensures forall i | 0 <= i < |ids| :: ids[i] in LayerPairs()
      ensures Reports(s, Joined(LayerPairs(), ids), AllGaps(LayerPairs(), ids))
    {
      hide Expected, Total, Ascending, Balanced, Reports;
      SumBalances();
      SumReports();
      if cached.None? {
        ghost var all := LayerStats();
        var sum := AddUp();
        cached := Some(sum);
        assert LayerStats() == all;
      }
      s := cached.value;
    }

    /** The sum of the layers balances as each of them does. */
    lemma SumBalances()
      requires Valid()
      ensures Balanced(Total(LayerStats(), ids))
    {
      hide Balanced, Total, Ascending;
      var all := LayerStats();
      forall i | 0 <= i < |ids|
        ensures ids[i] in all && Balanced(all[ids[i]])
      {
        LayerBalances(ids[i]);
      }
      AggregateBalanced(all, ids);
    }

    /** It counts and adds up the pairs of all layers. */
    lemma SumReports()
      requires Valid()
      ensures forall i | 0 <= i < |ids| :: ids[i] in LayerPairs()
      ensures Reports(Total(LayerStats(), ids), Joined(LayerPairs(), ids), AllGaps(LayerPairs(), ids))
    {
      hide Total, Ascending, Reports, Joined, AllGaps;
      var stats, pairs := LayerStats(), LayerPairs();
      forall i | 0 <= i < |ids|
        ensures ids[i] in stats && ids[i] in pairs && stats[ids[i]] == Expected(pairs[ids[i]])
      {
        LayerExpected(ids[i]);
      }
      TotalReports(stats, pairs, ids);
    }

    lemma LayerExpected(id: int)
      requires id in layerAnalyzers && layerAnalyzers[id].Valid()
      ensures layerAnalyzers[id].stats == Expected(layerAnalyzers[id].pairs)
    {
    }

    lemma LayerBalances(id: int)
      requires id in layerAnalyzers && layerAnalyzers[id].Valid()
      ensures Balanced(layerAnalyzers[id].stats)
    {
      FramesConserved(layerAnalyzers[id].pairs);
    }

    /** The loop over the layers, in the order of their ids. */
    method AddUp() returns (sum: VideoQualityStats)
      requires Keyed()
      ensures sum == Total(LayerStats(), ids)
    {
      hide VideoQualityStats.Plus, Ascending;
      sum := NO_STATS;
      ghost var all := LayerStats();
      for i := 0 to |ids|
        invariant sum == Total(all, ids[..i])
      {
        assert ids[i] in ids && ids[..i + 1][..i] == ids[..i];
        sum := sum.Plus(layerAnalyzers[ids[i]].stats);
      }
      assert ids[..|ids|] == ids;
    }
  }

  /** From the matcher to the analyzer: a layer's analyzer that was fed what the matcher's layer has
      emitted counts as captured the captures that have gone out, which when nothing is queued are all
      captures of the layer, and as rendered the decoded frames shown, each once. */
  lemma FedByMatcher(layer: VideoLayer, analyzer: VideoLayerAnalyzer)
    requires layer.Valid() && analyzer.Valid() && analyzer.pairs == layer.emitted
    ensures analyzer.stats.capture.count == |layer.emitted|
    ensures layer.capturedFrames == [] ==> analyzer.stats.capture.count == CaptureCount(layer.history)
    ensures analyzer.stats.render.count == |Shown(layer.emitted)|
    ensures analyzer.stats.lostCount + analyzer.stats.freezeCount
         == analyzer.stats.capture.count - |Shown(layer.emitted)|
  {
    hide Expected, Shown, QueueTracks, PairsMatch, Knows, DecodesKnown, Timely, Numbered, CaptureCount;
    FramesConserved(layer.emitted);
    RenderCount(layer.emitted);
  }
}
