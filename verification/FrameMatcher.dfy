/** The online matcher of captured and decoded video frames. */
module FrameMatcher {
  import opened Timestamps
  import opened FrameHistory

  class DecodedFrame {
    const info: Decoding
    var repeatCount: nat

    constructor (info: Decoding)
      ensures this.info == info && repeatCount == 0
    {
      this.info := info;
      repeatCount := 0;
    }
  }

  datatype CapturedFrame = CapturedFrame(
    id: nat,
    captureTime: Timestamp,
    frame: VideoFrame,
    bestScore: Option<real>,      // None is infinity
    bestDecode: DecodedFrame?,
    matched: bool)

  datatype VideoFramePair = VideoFramePair(
    captured: VideoFrame,
    decoded: Option<VideoFrame>,
    captureTime: Timestamp,
    decodedTime: Timestamp,
    renderTime: Timestamp,
    captureId: nat,
    decodeId: nat,
    repeated: nat)

  function Later(a: Timestamp, b: Timestamp): (m: Timestamp)
    ensures a.AtMost(m) && b.AtMost(m) && (m == a || m == b)
  {
    if a.AtMost(b) then b else a
  }

  /** The pair that a capture makes with its best decode, used `repeated` times before. */
  function PairOf(c: Capture, best: Option<Decoding>, repeated: nat): VideoFramePair {
    match best
    case None => VideoFramePair(c.frame, None, c.time, PlusInfinity, PlusInfinity, c.id, 0, 0)
    case Some(d) =>
      VideoFramePair(c.frame, Some(d.frame), c.time, d.decodedTime, Later(d.renderTime, d.decodedTime),
                     c.id, d.id, repeated)
  }

  /** How many pairs use a decoded frame. */
  function Uses(pairs: seq<VideoFramePair>, id: nat): nat {
    if pairs == [] then 0
    else
      var n := |pairs| - 1;
      Uses(pairs[..n], id) + if pairs[n].decoded.Some? && pairs[n].decodeId == id then 1 else 0
  }

  /** Every pair carries the number of earlier pairs with the same decoded frame. */
  ghost predicate Numbered(pairs: seq<VideoFramePair>) {
    forall k | 0 <= k < |pairs| ::
      pairs[k].repeated == if pairs[k].decoded.Some? then Uses(pairs[..k], pairs[k].decodeId) else 0
  }

  function CaptureCount(h: seq<Event>): nat {
    if h == [] then 0 else CaptureCount(h[..|h| - 1]) + if h[|h| - 1].Captured? then 1 else 0
  }

  /** A queued capture agrees with what the history says of it. */
  ghost predicate Tracks(score: Score, h: seq<Event>, p: nat, c: CapturedFrame) {
    && p < |h| && h[p] == Captured(Capture(c.id, c.captureTime, c.frame))
    && c.matched == Settled(score, h, p, c.frame)
    && match BestOf(score, h, p, c.frame)
       case None => c.bestDecode == null && c.bestScore == None
       case Some(d) => c.bestDecode != null && c.bestDecode.info == d && c.bestScore == Some(score(c.frame, d.frame))
  }

  /** The pair made when the history had u events, of the capture at position p. */
  ghost predicate Matches(score: Score, h: seq<Event>, p: nat, u: nat, pair: VideoFramePair) {
    && p < u <= |h| && h[p].Captured?
    && pair == PairOf(h[p].c, BestOf(score, h[..u], p, h[p].c.frame), pair.repeated)
  }

  ghost predicate SettledAt(score: Score, h: seq<Event>, p: nat) {
    p < |h| && h[p].Captured? && Settled(score, h, p, h[p].c.frame)
  }

  function Seen(score: Score, c: CapturedFrame, d: DecodedFrame): CapturedFrame {
    if c.frame.width < d.info.frame.width then c.(matched := true)
    else
      var s := score(c.frame, d.info.frame);
      if c.bestScore.None? || s < c.bestScore.value
      then c.(bestScore := Some(s), bestDecode := d, matched := false)
      else c.(matched := true)
  }

  lemma SeenTracks(score: Score, h: seq<Event>, p: nat, c: CapturedFrame, d: DecodedFrame)
    requires Tracks(score, h, p, c)
    ensures Tracks(score, h + [Decoded(d.info)], p, Seen(score, c, d))
  {
    hide BestOf, Settled;
    BestGrows(score, h, Decoded(d.info), p, c.frame);
  }

  lemma CapturedTracks(score: Score, h: seq<Event>, p: nat, c: CapturedFrame, e: Event)
    requires Tracks(score, h, p, c) && e.Captured?
    ensures Tracks(score, h + [e], p, c)
  {
    hide BestOf, Settled;
    BestGrows(score, h, e, p, c.frame);
  }

  lemma MatchesOn(score: Score, h: seq<Event>, p: nat, u: nat, pair: VideoFramePair, e: Event)
    requires Matches(score, h, p, u, pair)
    ensures Matches(score, h + [e], p, u, pair)
  {
    hide BestOf;
    assert (h + [e])[..u] == h[..u];
  }

  // ---------------------------------------------------------------- what a layer keeps true

  /** Every capture of the history stands in `at`, in order; the first ones have been emitted, the
      rest are queued; their ids are consecutive. */
  ghost predicate Aligned(h: seq<Event>, at: seq<nat>, pairs: seq<VideoFramePair>, q: seq<CapturedFrame>, since: nat) {
    && |at| == |pairs| + |q| == CaptureCount(h)
    && (forall k | 0 <= k < |at| :: at[k] < |h|)
    && (forall j, k | 0 <= j < k < |at| :: at[j] < at[k])
    && (forall k | 0 <= k < |pairs| :: pairs[k].captureId == since + k)
    && (forall j | 0 <= j < |q| :: q[j].id == since + |pairs| + j)
  }

  ghost predicate QueueTracks(score: Score, h: seq<Event>, at: seq<nat>, n: nat, q: seq<CapturedFrame>) {
    |at| == n + |q| && forall j | 0 <= j < |q| :: Tracks(score, h, at[n + j], q[j])
  }

  ghost predicate Knows(decodes: set<DecodedFrame>, q: seq<CapturedFrame>) {
    forall j | 0 <= j < |q| :: q[j].bestDecode == null || q[j].bestDecode in decodes
  }

  ghost predicate PairsMatch(score: Score, h: seq<Event>, at: seq<nat>, until: seq<nat>, pairs: seq<VideoFramePair>) {
    && |at| >= |pairs| == |until|
    && forall k | 0 <= k < |pairs| :: Matches(score, h, at[k], until[k], pairs[k])
  }

  ghost predicate DecodesKnown(h: seq<Event>, last: DecodedFrame?, decodes: set<DecodedFrame>, next: nat) {
    && LastDecode(h) == (if last == null then None else Some(last.info))
    && (last != null ==> last in decodes)
    && (forall d | d in decodes :: 1 <= d.info.id < next)
    && (forall d, e | d in decodes && e in decodes && d.info.id == e.info.id :: d == e)
    && 1 <= next
  }

  ghost predicate RepeatsCounted(pairs: seq<VideoFramePair>, decodes: set<DecodedFrame>, next: nat)
    reads decodes
  {
    && Numbered(pairs)
    && (forall k | 0 <= k < |pairs| :: pairs[k].decodeId < next)
    && (forall d | d in decodes :: d.repeatCount == Uses(pairs, d.info.id))
  }

  lemma AlignedCapture(h: seq<Event>, at: seq<nat>, pairs: seq<VideoFramePair>, q: seq<CapturedFrame>,
        since: nat, c: CapturedFrame, e: Event)
    requires Aligned(h, at, pairs, q, since) && e.Captured? && c.id == since + |at|
    ensures Aligned(h + [e], at + [|h|], pairs, q + [c], since)
  {
    assert (h + [e])[..|h|] == h;
  }

  lemma AlignedDecode(h: seq<Event>, at: seq<nat>, pairs: seq<VideoFramePair>, q: seq<CapturedFrame>,
        since: nat, q': seq<CapturedFrame>, e: Event)
    requires Aligned(h, at, pairs, q, since) && e.Decoded?
    requires |q'| == |q| && forall j | 0 <= j < |q| :: q'[j].id == q[j].id
    ensures Aligned(h + [e], at, pairs, q', since)
  {
    assert (h + [e])[..|h|] == h;
  }

  lemma AlignedMatch(h: seq<Event>, at: seq<nat>, pairs: seq<VideoFramePair>, q: seq<CapturedFrame>,
        since: nat, p: VideoFramePair)
    requires Aligned(h, at, pairs, q, since) && q != [] && p.captureId == q[0].id
    ensures Aligned(h, at, pairs + [p], q[1..], since)
  {
  }

  lemma QueueCapture(score: Score, h: seq<Event>, at: seq<nat>, n: nat, q: seq<CapturedFrame>,
        c: CapturedFrame, e: Event)
    requires QueueTracks(score, h, at, n, q) && e.Captured? && Tracks(score, h + [e], |h|, c)
    ensures QueueTracks(score, h + [e], at + [|h|], n, q + [c])
  {
    hide Tracks;
    forall j | 0 <= j < |q| ensures Tracks(score, h + [e], at[n + j], q[j]) {
      CapturedTracks(score, h, at[n + j], q[j], e);
    }
  }

  /** The frame that has just been captured. */
  lemma NewTracks(score: Score, h: seq<Event>, c: CapturedFrame, last: DecodedFrame?)
    requires c.bestScore == None && c.bestDecode == null && !c.matched
    requires LastDecode(h) == (if last == null then None else Some(last.info))
    ensures var copy := if last != null && last.info.frame.width <= c.frame.width
                        then c.(bestScore := Some(score(c.frame, last.info.frame)), bestDecode := last) else c;
            Tracks(score, h + [Captured(Capture(c.id, c.captureTime, c.frame))], |h|, copy)
  {
    var g := h + [Captured(Capture(c.id, c.captureTime, c.frame))];
    assert g[..|h|] == h;
    if last != null && last.info.frame.width <= c.frame.width {
      assert Candidates(g, |h|, c.frame) == [last.info];
      assert Best(score, c.frame, []).None? && [last.info][..0] == [];
      assert Best(score, c.frame, [last.info]) == Some(last.info);
    } else {
      assert Candidates(g, |h|, c.frame) == [];
    }
  }

  lemma QueueDecode(score: Score, h: seq<Event>, at: seq<nat>, n: nat, q: seq<CapturedFrame>,
        q': seq<CapturedFrame>, d: DecodedFrame)
    requires QueueTracks(score, h, at, n, q)
    requires |q'| == |q| && forall j | 0 <= j < |q| :: q'[j] == Seen(score, q[j], d)
    ensures QueueTracks(score, h + [Decoded(d.info)], at, n, q')
  {
    hide Tracks, Seen;
    forall j | 0 <= j < |q| ensures Tracks(score, h + [Decoded(d.info)], at[n + j], q'[j]) {
      SeenTracks(score, h, at[n + j], q[j], d);
    }
  }

  lemma SeenKeeps(score: Score, decodes: set<DecodedFrame>, q: seq<CapturedFrame>, q': seq<CapturedFrame>,
        d: DecodedFrame)
    requires Knows(decodes, q)
    requires |q'| == |q| && forall j | 0 <= j < |q| :: q'[j] == Seen(score, q[j], d)
    ensures Knows(decodes + {d}, q') && forall j | 0 <= j < |q| :: q'[j].id == q[j].id
  {}

  lemma QueueMatch(score: Score, h: seq<Event>, at: seq<nat>, n: nat, q: seq<CapturedFrame>)
    requires QueueTracks(score, h, at, n, q) && q != []
    ensures QueueTracks(score, h, at, n + 1, q[1..])
  {
    hide Tracks;
    forall j | 0 <= j < |q| - 1 ensures Tracks(score, h, at[n + 1 + j], q[1..][j]) {
      assert Tracks(score, h, at[n + (1 + j)], q[1 + j]);
    }
  }

  lemma PairsOn(score: Score, h: seq<Event>, at: seq<nat>, until: seq<nat>, pairs: seq<VideoFramePair>,
        e: Event, more: seq<nat>)
    requires PairsMatch(score, h, at, until, pairs)
    ensures PairsMatch(score, h + [e], at + more, until, pairs)
  {
    hide Matches;
    forall k | 0 <= k < |pairs| ensures Matches(score, h + [e], at[k], until[k], pairs[k]) {
      MatchesOn(score, h, at[k], until[k], pairs[k], e);
    }
  }

  /** The head of the queue becomes the next pair. */
  lemma PairsMore(score: Score, h: seq<Event>, at: seq<nat>, until: seq<nat>, pairs: seq<VideoFramePair>,
        c: CapturedFrame, p: VideoFramePair)
    requires PairsMatch(score, h, at, until, pairs) && |at| > |pairs|
    requires Tracks(score, h, at[|pairs|], c)
    requires p == PairOf(Capture(c.id, c.captureTime, c.frame),
                         if c.bestDecode == null then None else Some(c.bestDecode.info), p.repeated)
    ensures PairsMatch(score, h, at, until + [|h|], pairs + [p])
  {
    hide BestOf, Settled;
    assert h[..|h|] == h;
    assert Matches(score, h, at[|pairs|], |h|, p);
    hide Matches, Tracks, PairOf;
  }

  lemma {:induction false} UsesFresh(pairs: seq<VideoFramePair>, id: nat)
    requires forall k | 0 <= k < |pairs| :: pairs[k].decodeId != id
    ensures Uses(pairs, id) == 0
  {
    if pairs != [] {
      UsesFresh(pairs[..|pairs| - 1], id);
    }
  }

  lemma NumberedMore(pairs: seq<VideoFramePair>, p: VideoFramePair)
    requires Numbered(pairs)
    requires p.repeated == if p.decoded.Some? then Uses(pairs, p.decodeId) else 0
    ensures Numbered(pairs + [p])
    ensures forall id :: Uses(pairs + [p], id) == Uses(pairs, id) + if p.decoded.Some? && p.decodeId == id then 1 else 0
  {
    var all := pairs + [p];
    assert all[..|pairs|] == pairs;
    forall k | 0 <= k < |pairs|
      ensures all[k].repeated == if all[k].decoded.Some? then Uses(all[..k], all[k].decodeId) else 0
    {
      assert all[..k] == pairs[..k];
    }
  }

  lemma QueueSeen(score: Score, h: seq<Event>, at: seq<nat>, pairs: seq<VideoFramePair>, q: seq<CapturedFrame>,
        since: nat,
      q': seq<CapturedFrame>, d: DecodedFrame, decodes: set<DecodedFrame>)
    requires Aligned(h, at, pairs, q, since) && QueueTracks(score, h, at, |pairs|, q) && Knows(decodes, q)
    requires |q'| == |q| && forall j | 0 <= j < |q| :: q'[j] == Seen(score, q[j], d)
    ensures Aligned(h + [Decoded(d.info)], at, pairs, q', since)
    ensures QueueTracks(score, h + [Decoded(d.info)], at, |pairs|, q') && Knows(decodes + {d}, q')
  {
    hide Aligned, QueueTracks, Knows, Seen;
    SeenKeeps(score, decodes, q, q', d);
    AlignedDecode(h, at, pairs, q, since, q', Decoded(d.info));
    QueueDecode(score, h, at, |pairs|, q, q', d);
  }

  lemma DecodesMore(h: seq<Event>, last: DecodedFrame?, decodes: set<DecodedFrame>, next: nat, d: DecodedFrame)
    requires DecodesKnown(h, last, decodes, next) && d.info.id == next
    ensures DecodesKnown(h + [Decoded(d.info)], d, decodes + {d}, next + 1)
  {}

  lemma RepeatsMore(pairs: seq<VideoFramePair>, decodes: set<DecodedFrame>, next: nat, d: DecodedFrame)
    requires RepeatsCounted(pairs, decodes, next) && d.info.id == next && d.repeatCount == 0
    ensures RepeatsCounted(pairs, decodes + {d}, next + 1)
  {
    UsesFresh(pairs, next);
  }

  // ---------------------------------------------------------------- when a pair is made

  /** The length of history from which capture k could go out: its own capture and the one before it
      are then behind. */
  function Earliest(at: seq<nat>, until: seq<nat>, k: nat): nat
    requires k < |at| && k <= |until|
  {
    if k > 0 && until[k - 1] > at[k] then until[k - 1] else at[k] + 1
  }

  /** Capture k is not settled by any history from the earliest on that is shorter than u. */
  ghost predicate NotBefore(score: Score, h: seq<Event>, at: seq<nat>, until: seq<nat>, k: nat, u: nat)
    requires k < |at| && k <= |until| && u <= |h| + 1
  {
    forall v: nat | Earliest(at, until, k) <= v < u :: !SettledAt(score, h[..v], at[k])
  }

  /** Every pair but the forced ones was made when the history first settled its capture, counted from
      the pair before it; and the next capture is not settled by any history shorter than now. */
  ghost predicate Timely(score: Score, h: seq<Event>, at: seq<nat>, until: seq<nat>, forced: set<nat>) {
    && |until| <= |at|
    && (forall k | 0 <= k < |until| :: at[k] < until[k] <= |h| && Earliest(at, until, k) <= until[k])
    && (forall k: nat | k < |until| :: NotBefore(score, h, at, until, k, until[k]))
    && (forall k: nat | k < |until| :: k in forced || SettledAt(score, h[..until[k]], at[k]))
    && (|until| < |at| ==> NotBefore(score, h, at, until, |until|, |h|))
  }

  /** One more event, when the next capture still waits, if there is one. */
  lemma TimelyOn(score: Score, h: seq<Event>, at: seq<nat>, until: seq<nat>, forced: set<nat>, e: Event, more: seq<nat>)
    requires Timely(score, h, at, until, forced) && (forall k | 0 <= k < |at| :: at[k] < |h|)
    requires |until| < |at| ==> !SettledAt(score, h, at[|until|])
    requires more == [] || more == [|h|]
    ensures Timely(score, h + [e], at + more, until, forced)
  {
    hide Settled, SettledAt;
    var g, bt := h + [e], at + more;
    assert forall v: nat | v <= |h| :: g[..v] == h[..v];
    assert h[..|h|] == h;
    forall k: nat | k < |until|
      ensures NotBefore(score, g, bt, until, k, until[k])
    {
      assert NotBefore(score, h, at, until, k, until[k]);
    }
    if |until| < |bt| {
      assert |until| < |at| ==> NotBefore(score, h, at, until, |until|, |h|);
    }
  }

  /** The next capture goes out now, settled or forced. */
  lemma TimelyMatch(score: Score, h: seq<Event>, at: seq<nat>, until: seq<nat>, forced: set<nat>, force: bool)
    requires Timely(score, h, at, until, forced) && |until| < |at|
    requires forall k | 0 <= k < |at| :: at[k] < |h|
    requires force || SettledAt(score, h, at[|until|])
    ensures Timely(score, h, at, until + [|h|], if force then forced + {|until|} else forced)
  {
    hide SettledAt, NotBefore;
    var n, longer := |until|, until + [|h|];
    assert h[..|h|] == h;
    forall k: nat | k < |longer|
      ensures NotBefore(score, h, at, longer, k, longer[k]) && Earliest(at, longer, k) <= longer[k]
      ensures at[k] < longer[k] <= |h|
    {
      SameEarliest(score, h, at, until, longer, k, longer[k]);
    }
    NothingBetween(score, h, at, longer);
  }

  /** What comes after pair k does not matter to it. */
  lemma SameEarliest(score: Score, h: seq<Event>, at: seq<nat>, until: seq<nat>, longer: seq<nat>, k: nat, u: nat)
    requires k < |at| && k <= |until| <= |longer| && longer[..|until|] == until && u <= |h| + 1
    ensures Earliest(at, longer, k) == Earliest(at, until, k)
    ensures NotBefore(score, h, at, until, k, u) ==> NotBefore(score, h, at, longer, k, u)
  {
    assert k > 0 ==> longer[..|until|][k - 1] == until[k - 1];
  }

  /** The capture after a pair made now could not have gone out before. */
  lemma NothingBetween(score: Score, h: seq<Event>, at: seq<nat>, until: seq<nat>)
    requires until != [] && until[|until| - 1] == |h|
    ensures |until| < |at| ==> NotBefore(score, h, at, until, |until|, |h|)
  {
  }

  class VideoLayer {
    const score: Score
    var capturedFrames: seq<CapturedFrame>
    var lastDecode: DecodedFrame?
    var nextDecodedId: nat
    /** What the handlers have been called with, for this layer. */
    var emitted: seq<VideoFramePair>

    /** The layer's history; where in it each capture stands; how long it was when each pair was made;
        which pairs Finalize has made; the id of the first capture; the decoded frames so far. */
    ghost var history: seq<Event>
    ghost var at: seq<nat>
    ghost var until: seq<nat>
    ghost var forced: set<nat>
    ghost var since: nat
    ghost var decodes: set<DecodedFrame>

    ghost predicate Valid()
      reads this, decodes
    {
      && Aligned(history, at, emitted, capturedFrames, since)
      && QueueTracks(score, history, at, |emitted|, capturedFrames)
      && Knows(decodes, capturedFrames)
      && PairsMatch(score, history, at, until, emitted)
      && Timely(score, history, at, until, forced)
      && DecodesKnown(history, lastDecode, decodes, nextDecodedId)
      && RepeatsCounted(emitted, decodes, nextDecodedId)
    }

    constructor (score: Score, next: nat)
      ensures Valid() && this.score == score && since == next && history == [] && emitted == [] && decodes == {}
      ensures capturedFrames == [] && nextDecodedId == 1 && forced == {}
    {
      this.score := score;
      capturedFrames, lastDecode, nextDecodedId, emitted := [], null, 1, [];
      history, at, until, forced, since, decodes := [], [], [], {}, next, {};
    }

    /** At rest, the head of the queue is still waiting. */
    ghost predicate HeadWaits()
      reads this
    {
      capturedFrames == [] || !capturedFrames[0].matched
    }

    /** The layer's part of OnCapturedFrame. */
    method Capture(captured: CapturedFrame)
      requires Valid() && captured.bestScore == None && captured.bestDecode == null && !captured.matched
      requires captured.id == since + |at| && HeadWaits()
      modifies `capturedFrames, `history, `at
      ensures Valid() && HeadWaits()
      ensures history == old(history)
                + [Captured(FrameHistory.Capture(captured.id, captured.captureTime, captured.frame))]
      ensures at == old(at) + [|old(history)|]
    {
      hide PairsMatch, RepeatsCounted, Tracks, QueueTracks, Aligned, Timely, Knows;
      NextWaits();
      ghost var e := Captured(FrameHistory.Capture(captured.id, captured.captureTime, captured.frame));
      NewTracks(score, history, captured, lastDecode);
      var copy := captured;
      if lastDecode != null && lastDecode.info.frame.width <= captured.frame.width {
        copy := copy.(bestScore := Some(score(captured.frame, lastDecode.info.frame)), bestDecode := lastDecode);
      }
      AlignedCapture(history, at, emitted, capturedFrames, since, copy, e);
      QueueCapture(score, history, at, |emitted|, capturedFrames, copy, e);
      PairsOn(score, history, at, until, emitted, e, [|history|]);
      TimelyOn(score, history, at, until, forced, e, [|history|]);
      KnowsMore(decodes, capturedFrames, copy);
      capturedFrames := capturedFrames + [copy];
      at := at + [|history|];
      history := history + [e];
    }

    /** HandleMatch on the head of the queue, which is then popped. */
    method HandleMatch(ghost force: bool)
      requires Valid() && capturedFrames != [] && (force || capturedFrames[0].matched)
      modifies `capturedFrames, `emitted, `until, `forced, decodes
      ensures Valid() && capturedFrames == old(capturedFrames)[1..]
      ensures forced == if force then old(forced) + {|old(emitted)|} else old(forced)
      ensures |emitted| == |old(emitted)| + 1 && emitted[..|old(emitted)|] == old(emitted)
      ensures until == old(until) + [|history|]
    {
      hide PairsMatch, Tracks, QueueTracks, Aligned, Matches, DecodesKnown, RepeatsCounted, PairOf, Timely, SettledAt;
      SettledHead();
      Counted();
      TimelyMatch(score, history, at, until, forced, force);
      var captured := capturedFrames[0];
      HeadTracks(score, history, at, |emitted|, capturedFrames);
      AlignedHead(history, at, emitted, capturedFrames, since);
      DistinctIds(history, lastDecode, decodes, nextDecodedId);
      var pair := MakePair(captured);
      PairsMore(score, history, at, until, emitted, captured, pair);
      AlignedMatch(history, at, emitted, capturedFrames, since, pair);
      QueueMatch(score, history, at, |emitted|, capturedFrames);
      emitted := emitted + [pair];
      until := until + [|history|];
      if force {
        forced := forced + {|until| - 1};
      }
      capturedFrames := capturedFrames[1..];
    }

    /** The pair for the handlers; the decoded frame has been used once more. */
    method MakePair(captured: CapturedFrame) returns (pair: VideoFramePair)
      requires captured.bestDecode == null || captured.bestDecode in decodes
      requires RepeatsCounted(emitted, decodes, nextDecodedId) && 1 <= nextDecodedId
      requires forall d | d in decodes :: d.info.id < nextDecodedId
      requires forall d, e | d in decodes && e in decodes && d.info.id == e.info.id :: d == e
      modifies decodes
      ensures pair == PairOf(FrameHistory.Capture(captured.id, captured.captureTime, captured.frame),
                             if captured.bestDecode == null then None else Some(captured.bestDecode.info),
                             pair.repeated)
      ensures pair.captureId == captured.id
      ensures RepeatsCounted(emitted + [pair], decodes, nextDecodedId)
    {
      hide Numbered;
      pair := VideoFramePair(captured.frame, None, captured.captureTime, PlusInfinity, PlusInfinity, captured.id, 0, 0);
      if captured.bestDecode != null {
        var best := captured.bestDecode;
        pair := pair.(decodeId := best.info.id, decoded := Some(best.info.frame), decodedTime := best.info.decodedTime,
                      renderTime := Later(best.info.renderTime, best.info.decodedTime), repeated := best.repeatCount);
        best.repeatCount := best.repeatCount + 1;
      }
      NumberedMore(emitted, pair);
    }

    /** Every queued capture is compared with a new decode. */
    method Compare(decoded: DecodedFrame)
      modifies `capturedFrames
      ensures |capturedFrames| == |old(capturedFrames)|
      ensures forall j | 0 <= j < |capturedFrames| :: capturedFrames[j] == Seen(score, old(capturedFrames[j]), decoded)
    {
      for i := 0 to |capturedFrames|
        invariant |capturedFrames| == |old(capturedFrames)|
        invariant forall j | 0 <= j < i :: capturedFrames[j] == Seen(score, old(capturedFrames[j]), decoded)
        invariant forall j | i <= j < |capturedFrames| :: capturedFrames[j] == old(capturedFrames[j])
      {
        var captured := capturedFrames[i];
        if captured.frame.width < decoded.info.frame.width {
          capturedFrames := capturedFrames[i := captured.(matched := true)];
          continue;
        }
        var s := score(captured.frame, decoded.info.frame);
        if captured.bestScore.None? || s < captured.bestScore.value {
          captured := captured.(bestScore := Some(s), bestDecode := decoded, matched := false);
        } else {
          captured := captured.(matched := true);
        }
        capturedFrames := capturedFrames[i := captured];
      }
    }

    /** The layer's part of OnDecodedFrame. Exactly the settled captures at the head are emitted, now. */
    method Decode(frame: VideoFrame, renderTime: Timestamp, atTime: Timestamp)
      requires Valid() && HeadWaits()
      modifies this, decodes
      ensures Valid() && HeadWaits() && since == old(since) && forced == old(forced)
      ensures history == old(history) + [Decoded(Decoding(old(nextDecodedId), frame, atTime, renderTime))]
      ensures nextDecodedId == old(nextDecodedId) + 1 && at == old(at)
      ensures old(emitted) <= emitted && old(until) <= until && EmittedNow(|old(emitted)|)
      ensures EmittedSettled(|old(emitted)|)
      ensures fresh(decodes - old(decodes))
    {
      hide Aligned, QueueTracks, Knows, PairsMatch, DecodesKnown, RepeatsCounted, SettledAt, Timely;
      Counted();
      var decoded := new DecodedFrame(Decoding(nextDecodedId, frame, atTime, renderTime));
      NoteDecode(decoded);
      Drain(|old(emitted)|);
    }

    /** The loop that emits from the head of the queue what is matched. */
    method Drain(ghost n: nat)
      requires Valid() && EmittedSettled(n) && EmittedNow(n) && n <= |emitted|
      modifies `capturedFrames, `emitted, `until, `forced, decodes
      ensures Valid() && HeadWaits() && old(emitted) <= emitted && old(until) <= until && forced == old(forced)
      ensures EmittedSettled(n) && EmittedNow(n)
    {
      hide Aligned, QueueTracks, Knows, PairsMatch, DecodesKnown, RepeatsCounted, SettledAt, Valid, Timely;
      while capturedFrames != [] && capturedFrames[0].matched
        invariant Valid() && old(emitted) <= emitted && old(until) <= until && forced == old(forced)
        invariant EmittedSettled(n) && EmittedNow(n)
        decreases |capturedFrames|
      {
        SettledHead();
        ghost var was := emitted;
        HandleMatch(false);
        assert emitted[..|was|] == was;
      }
    }

    lemma Counted()
      requires Valid()
      ensures |at| == |emitted| + |capturedFrames| && |until| == |emitted|
    {}

    /** Every capture from the layer's first up to, but not including, `next` has been emitted once, in
        the order of their ids; those ids are all the captures of the layer's history. */
    ghost predicate AllEmitted(next: nat)
      reads this
    {
      && since + |emitted| == next && |emitted| == CaptureCount(history)
      && forall k | 0 <= k < |emitted| :: emitted[k].captureId == since + k
    }

    /** The pairs from the n-th on have been made with the whole history. */
    ghost predicate EmittedNow(n: nat)
      reads this
    {
      |emitted| == |until| && forall k | n <= k < |until| :: until[k] == |history|
    }

    /** The captures emitted from the n-th on are settled by the whole history. */
    ghost predicate EmittedSettled(n: nat)
      reads this
    {
      && |at| >= |emitted| == |until|
      && forall k | n <= k < |emitted| :: SettledAt(score, history, at[k])
    }

    /** The decode joins the history before the head of the queue is looked at. */
    method NoteDecode(decoded: DecodedFrame)
      requires Valid() && HeadWaits()
      requires decoded !in decodes && decoded.info.id == nextDecodedId && decoded.repeatCount == 0
      modifies `capturedFrames, `lastDecode, `nextDecodedId, `history, `decodes
      ensures Valid() && decodes == old(decodes) + {decoded}
      ensures history == old(history) + [Decoded(decoded.info)] && nextDecodedId == old(nextDecodedId) + 1
    {
      hide PairsMatch, QueueTracks, Aligned, Seen, Knows, DecodesKnown, RepeatsCounted, Timely;
      NextWaits();
      ghost var e := Decoded(decoded.info);
      ghost var q := capturedFrames;
      PairsOn(score, history, at, until, emitted, e, []);
      TimelyOn(score, history, at, until, forced, e, []);
      assert at + [] == at;
      DecodesMore(history, lastDecode, decodes, nextDecodedId, decoded);
      RepeatsMore(emitted, decodes, nextDecodedId, decoded);
      Compare(decoded);
      QueueSeen(score, history, at, emitted, q, since, capturedFrames, decoded, decodes);
      nextDecodedId := nextDecodedId + 1;
      lastDecode := decoded;
      history := history + [e];
      decodes := decodes + {decoded};
    }

    lemma SettledHead()
      requires Valid() && capturedFrames != []
      ensures |at| > |emitted| == |until|
      ensures capturedFrames[0].matched <==> SettledAt(score, history, at[|emitted|])
      ensures forall k | 0 <= k < |at| :: at[k] < |history|
    {
      HeadTracks(score, history, at, |emitted|, capturedFrames);
    }

    lemma NextWaits()
      requires Valid() && HeadWaits()
      ensures |until| < |at| ==> !SettledAt(score, history, at[|until|])
      ensures forall k | 0 <= k < |at| :: at[k] < |history|
    {
      Counted();
      if capturedFrames != [] {
        SettledHead();
      }
    }

    /** The layer's part of Finalize. */
    method Finalize()
      requires Valid()
      modifies `capturedFrames, `emitted, `until, `forced, decodes
      ensures Valid() && capturedFrames == [] && old(emitted) <= emitted && old(until) <= until
      ensures EmittedNow(|old(emitted)|)
      ensures forall k :: k in forced <==> k in old(forced) || |old(emitted)| <= k < |emitted|
    {
      hide Aligned, QueueTracks, Knows, PairsMatch, DecodesKnown, RepeatsCounted, Timely;
      Counted();
      while capturedFrames != []
        invariant Valid() && old(emitted) <= emitted && old(until) <= until && EmittedNow(|old(emitted)|)
        invariant forall k :: k in forced <==> k in old(forced) || |old(emitted)| <= k < |emitted|
        decreases |capturedFrames|
      {
        ghost var was := emitted;
        HandleMatch(true);
        assert emitted[..|was|] == was;
      }
    }
  }

  lemma KnowsMore(decodes: set<DecodedFrame>, q: seq<CapturedFrame>, c: CapturedFrame)
    requires Knows(decodes, q) && (c.bestDecode == null || c.bestDecode in decodes)
    ensures Knows(decodes, q + [c])
  {}

  lemma HeadTracks(score: Score, h: seq<Event>, at: seq<nat>, n: nat, q: seq<CapturedFrame>)
    requires QueueTracks(score, h, at, n, q) && q != []
    ensures |at| > n && Tracks(score, h, at[n], q[0])
  {
    assert Tracks(score, h, at[n + 0], q[0]);
  }

  lemma AlignedHead(h: seq<Event>, at: seq<nat>, pairs: seq<VideoFramePair>, q: seq<CapturedFrame>, since: nat)
    requires Aligned(h, at, pairs, q, since) && q != []
    ensures q[0].id == since + |pairs| && |at| == |pairs| + |q|
  {}

  lemma DistinctIds(h: seq<Event>, last: DecodedFrame?, decodes: set<DecodedFrame>, next: nat)
    requires DecodesKnown(h, last, decodes, next)
    ensures forall d, e | d in decodes && e in decodes && d.info.id == e.info.id :: d == e
    ensures forall d | d in decodes :: d.info.id < next
    ensures 1 <= next
  {}

  /** What a pair says: its capture, and the earliest lowest-scoring decode among the one current at
      the capture and those seen while it was queued, or none exactly if there was no such decode. */
  lemma PairMeaning(score: Score, h: seq<Event>, p: nat, u: nat, pair: VideoFramePair)
    requires Matches(score, h, p, u, pair)
    ensures var c := h[p].c;
            var ds := Candidates(h[..u], p, c.frame);
            && pair.captureId == c.id && pair.captured == c.frame && pair.captureTime == c.time
            && (ds == [] ==> pair == PairOf(c, None, pair.repeated))
            && (ds != [] ==> exists i: nat :: EarliestMinimum(score, c.frame, ds, i)
                                         && pair == PairOf(c, Some(ds[i]), pair.repeated))
  {
    var ds := Candidates(h[..u], p, h[p].c.frame);
    if ds != [] {
      var i := BestIsEarliestMinimum(score, h[p].c.frame, ds);
      assert EarliestMinimum(score, h[p].c.frame, ds, i) && pair == PairOf(h[p].c, Some(ds[i]), pair.repeated);
    }
  }

  /** The k-th pair with a decoded frame carries k - 1. */
  lemma KthUse(pairs: seq<VideoFramePair>, i: nat)
    requires Numbered(pairs) && i < |pairs| && pairs[i].decoded.Some?
    ensures Uses(pairs[..i + 1], pairs[i].decodeId) == pairs[i].repeated + 1
  {
    assert pairs[..i + 1][..i] == pairs[..i];
  }

  /** What a pair with a decode says: the captured frame and time, the decoded frame and time, and the later
      of the decode and render times. */
  lemma PairFields(c: FrameHistory.Capture, d: Decoding, repeated: nat)
    ensures var pair := PairOf(c, Some(d), repeated);
            && pair.captured == c.frame && pair.captureTime == c.time && pair.captureId == c.id
            && pair.decoded == Some(d.frame) && pair.decodedTime == d.decodedTime && pair.decodeId == d.id
            && pair.renderTime == (if d.decodedTime.AtMost(d.renderTime) then d.renderTime else d.decodedTime)
            && pair.repeated == repeated
    ensures var pair := PairOf(c, None, 0);
            && pair.captured == c.frame && pair.captureTime == c.time && pair.captureId == c.id
            && pair.decoded == None && pair.decodedTime == PlusInfinity && pair.renderTime == PlusInfinity
  {
    assert forall a: Timestamp, b: Timestamp | a.AtMost(b) && b.AtMost(a) :: a == b;
  }

  /** No frame is rendered before it is decoded. */
  lemma NotBeforeDecoded(c: FrameHistory.Capture, d: Decoding, repeated: nat)
    ensures PairOf(c, Some(d), repeated).decodedTime.AtMost(PairOf(c, Some(d), repeated).renderTime)
    ensures d.renderTime.AtMost(PairOf(c, Some(d), repeated).renderTime)
  {}

  /** All that can be said of the k-th pair of a layer. It is about the k-th capture, and it was made when
      the history was until[k] long: the first time that a decode settled the capture with those before
      it gone, or when Finalize came. It carries the earliest lowest-scoring decode among the one current
      at the capture and all those seen by then, where not wider, with the number of earlier pairs that
      used it; and no decode if and only if there was none. */
  ghost predicate Explained(layer: VideoLayer, k: nat)
    reads layer
  {
    var h, at, until := layer.history, layer.at, layer.until;
    && k < |layer.emitted| == |until| <= |at| && at[k] < until[k] <= |h| && h[at[k]].Captured?
    && NotBefore(layer.score, h, at, until, k, until[k])
    && (k in layer.forced || SettledAt(layer.score, h[..until[k]], at[k]))
    && var c, pair := h[at[k]].c, layer.emitted[k];
       var ds := Candidates(h[..until[k]], at[k], c.frame);
       && c.id == layer.since + k
       && (ds == [] ==> pair == PairOf(c, None, 0))
       && (ds != [] ==> exists i: nat ::
             && EarliestMinimum(layer.score, c.frame, ds, i)
             && pair == PairOf(c, Some(ds[i]), Uses(layer.emitted[..k], ds[i].id)))
  }

  lemma LayerExplains(layer: VideoLayer, k: nat)
    requires layer.Valid() && k < |layer.emitted|
    ensures Explained(layer, k)
  {
    layer.Counted();
    hide Aligned, QueueTracks, Knows, DecodesKnown, NotBefore, SettledAt, PairOf, Candidates;
    PairMeaning(layer.score, layer.history, layer.at[k], layer.until[k], layer.emitted[k]);
    PairPlaced(layer, k);
    PairCounted(layer.emitted, k, layer.history[layer.at[k]].c);
  }

  lemma PairPlaced(layer: VideoLayer, k: nat)
    requires layer.Valid() && k < |layer.emitted|
    ensures layer.emitted[k].captureId == layer.since + k
  {
    hide QueueTracks, Knows, DecodesKnown, PairsMatch, Timely, RepeatsCounted;
  }

  /** The repeat count of a pair is that of its decoded frame. */
  lemma PairCounted(pairs: seq<VideoFramePair>, k: nat, c: FrameHistory.Capture)
    requires Numbered(pairs) && k < |pairs|
    ensures forall d ::
              pairs[k] == PairOf(c, Some(d), pairs[k].repeated) ==> pairs[k].repeated == Uses(pairs[..k], d.id)
    ensures pairs[k] == PairOf(c, None, pairs[k].repeated) ==> pairs[k] == PairOf(c, None, 0)
  {
  }

  // ---------------------------------------------------------------- all layers

  class VideoFrameMatcher {
    const score: Score
    var nextCaptureId: nat
    var layers: map<int, VideoLayer>

    ghost function Owned(): set<object>
      reads this, layers.Values
    {
      (set id: int | id in layers :: layers[id] as object)
      + (set id: int, d: DecodedFrame | id in layers && d in layers[id].decodes :: d as object)
    }

    ghost predicate Apart()
      reads this, layers.Values
    {
      forall i, j | i in layers && j in layers && i != j ::
        layers[i] != layers[j] && layers[i].decodes !! layers[j].decodes
    }

    ghost predicate LayerValid(layer: VideoLayer, next: nat)
      reads layer, layer.decodes
    {
      layer.score == score && layer.Valid() && layer.HeadWaits() && layer.since + |layer.at| == next
    }

    ghost predicate Valid()
      reads this, layers.Values, Owned()
    {
      Apart() && forall id | id in layers :: LayerValid(layers[id], nextCaptureId)
    }

    /** In every layer, at any time, every pair is explained. */
    lemma EveryPair(id: int, k: nat)
      requires Valid() && id in layers && k < |layers[id].emitted|
      ensures Explained(layers[id], k)
    {
      assert LayerValid(layers[id], nextCaptureId);
      LayerExplains(layers[id], k);
    }

    constructor (score: Score)
      ensures Valid() && this.score == score && nextCaptureId == 1 && layers == map[]
    {
      this.score := score;
      nextCaptureId, layers := 1, map[];
    }

    method RegisterLayer(layerId: int)
      requires Valid() && layerId !in layers
      modifies `layers
      ensures Valid() && layers.Keys == old(layers.Keys) + {layerId} && fresh(layers[layerId])
      ensures forall id | id in old(layers) :: layers[id] == old(layers[id])
      ensures var layer := layers[layerId];
              && layer.history == [] && layer.emitted == [] && layer.until == [] && layer.forced == {}
              && layer.decodes == {} && layer.since == nextCaptureId && layer.nextDecodedId == 1
    {
      var layer := new VideoLayer(score, nextCaptureId);
      layers := layers[layerId := layer];
    }

    /** Pairs that a decode has added to these: made with the whole history, which has just settled their
        captures, while the next capture still waits. */
    ghost predicate DecodesOnto(layer: VideoLayer, emitted: seq<VideoFramePair>, until: seq<nat>)
      reads layer
    {
      && emitted <= layer.emitted && until <= layer.until
      && layer.EmittedNow(|emitted|) && layer.EmittedSettled(|emitted|) && layer.HeadWaits()
    }

    /** Pairs that Finalize has added to these: made with the whole history, settled or not. */
    ghost predicate ForcedOnto(layer: VideoLayer, emitted: seq<VideoFramePair>, until: seq<nat>, forced: set<nat>)
      reads layer
    {
      && emitted <= layer.emitted && until <= layer.until && layer.EmittedNow(|emitted|)
      && forall k :: k in layer.forced <==> k in forced || |emitted| <= k < |layer.emitted|
    }

    /** One more capture in the history; nothing that has been emitted changes. */
    ghost predicate CapturedOnto(layer: VideoLayer, history: seq<Event>, emitted: seq<VideoFramePair>,
                                 until: seq<nat>, forced: set<nat>, capture: FrameHistory.Capture)
      reads layer
    {
      && layer.history == history + [Captured(capture)]
      && layer.emitted == emitted && layer.until == until && layer.forced == forced
    }

    /** Every layer gets the capture under the next id. */
    method OnCapturedFrame(frame: VideoFrame, atTime: Timestamp)
      requires Valid()
      modifies `nextCaptureId, layers.Values
      ensures Valid() && nextCaptureId == old(nextCaptureId) + 1 && layers == old(layers)
      ensures forall id | id in layers ::
                CapturedOnto(layers[id], old(layers[id].history), old(layers[id].emitted), old(layers[id].until),
                             old(layers[id].forced), Capture(old(nextCaptureId), atTime, frame))
    {
      hide LayerValid, CapturedOnto;
      var captured := CapturedFrame(nextCaptureId, atTime, frame, None, null, false);
      nextCaptureId := nextCaptureId + 1;
      var todo := layers.Keys;
      while todo != {}
        invariant todo <= layers.Keys
        invariant forall id | id in layers :: layers[id].decodes == old(layers[id].decodes)
        invariant forall id | id in todo :: unchanged(layers[id]) && LayerValid(layers[id], captured.id)
        invariant forall id | id in layers && id !in todo ::
                    && LayerValid(layers[id], captured.id + 1)
                    && CapturedOnto(layers[id], old(layers[id].history), old(layers[id].emitted), old(layers[id].until),
                                    old(layers[id].forced), Capture(captured.id, atTime, frame))
        modifies layers.Values
        decreases |todo|
      {
        Inhabited(todo);
        var id :| id in todo;
        CaptureIn(layers[id], captured);
        todo := todo - {id};
      }
    }

    method CaptureIn(layer: VideoLayer, captured: CapturedFrame)
      requires LayerValid(layer, captured.id)
      requires captured.bestScore == None && captured.bestDecode == null && !captured.matched
      modifies layer
      ensures LayerValid(layer, captured.id + 1)
      ensures layer.decodes == old(layer.decodes)
      ensures CapturedOnto(layer, old(layer.history), old(layer.emitted), old(layer.until), old(layer.forced),
                           Capture(captured.id, captured.captureTime, captured.frame))
    {
      hide VideoLayer.Valid, VideoLayer.HeadWaits;
      layer.Capture(captured);
    }

    /** One layer gets the decode; a layer nobody registered starts here. */
    method OnDecodedFrame(frame: VideoFrame, layerId: int, renderTime: Timestamp, atTime: Timestamp)
      requires Valid()
      modifies `layers, Owned()
      ensures Valid() && layers.Keys == old(layers.Keys) + {layerId}
      ensures forall id | id in old(layers) :: layers[id] == old(layers[id])
      ensures forall id | id in old(layers) && id != layerId :: unchanged(old(layers[id]))
      ensures forall id | id in old(layers) && id != layerId :: unchanged(old(layers[id].decodes))
      ensures layerId in old(layers) ==>
                && layers[layerId].history == old(layers[layerId].history)
                     + [Decoded(Decoding(old(layers[layerId].nextDecodedId), frame, atTime, renderTime))]
                && DecodesOnto(layers[layerId], old(layers[layerId].emitted), old(layers[layerId].until))
                && layers[layerId].forced == old(layers[layerId].forced)
      ensures layerId !in old(layers) ==>
                && layers[layerId].since == nextCaptureId
                && layers[layerId].history == [Decoded(Decoding(1, frame, atTime, renderTime))]
                && DecodesOnto(layers[layerId], [], []) && layers[layerId].forced == {}
    {
      hide LayerValid;
      if layerId !in layers {
        RegisterLayer(layerId);
      } else {
        assert layers[layerId] as object in Owned();
        assert forall d: DecodedFrame | d in layers[layerId].decodes :: d as object in Owned();
      }
      DecodeIn(layers[layerId], frame, renderTime, atTime, nextCaptureId);
    }

    /** Nothing is queued any more: all captures since the layer was registered have gone out once. */
    ghost predicate Emptied(layer: VideoLayer, history: seq<Event>, since: nat, next: nat)
      reads layer
    {
      layer.capturedFrames == [] && layer.history == history && layer.since == since && layer.AllEmitted(next)
    }

    /** What is still queued goes out as it stands. */
    method Finalize()
      requires Valid()
      modifies Owned()
      ensures Valid() && layers == old(layers) && nextCaptureId == old(nextCaptureId)
      ensures forall id | id in layers ::
                && Emptied(layers[id], old(layers[id].history), old(layers[id].since), nextCaptureId)
                && ForcedOnto(layers[id], old(layers[id].emitted), old(layers[id].until), old(layers[id].forced))
    {
      hide LayerValid, ForcedOnto, Emptied;
      var todo := layers.Keys;
      while todo != {}
        invariant todo <= layers.Keys && layers == old(layers) && nextCaptureId == old(nextCaptureId)
        invariant forall id | id in layers :: LayerValid(layers[id], nextCaptureId)
        invariant forall id | id in layers :: layers[id].decodes == old(layers[id].decodes)
        invariant forall id | id in todo :: unchanged(layers[id])
        invariant forall id | id in layers && id !in todo ::
                    && Emptied(layers[id], old(layers[id].history), old(layers[id].since), nextCaptureId)
                    && ForcedOnto(layers[id], old(layers[id].emitted), old(layers[id].until), old(layers[id].forced))
        decreases |todo|
      {
        Inhabited(todo);
        var id :| id in todo;
        OwnedLayer(id);
        FinalizeIn(layers[id], nextCaptureId);
        todo := todo - {id};
      }
    }

    lemma OwnedLayer(id: int)
      requires id in layers
      ensures layers[id] as object in Owned()
      ensures forall d: DecodedFrame | d in layers[id].decodes :: d as object in Owned()
    {
    }

    method FinalizeIn(layer: VideoLayer, ghost next: nat)
      requires LayerValid(layer, next)
      modifies layer, layer.decodes
      ensures LayerValid(layer, next) && layer.decodes == old(layer.decodes)
      ensures Emptied(layer, old(layer.history), old(layer.since), next)
      ensures ForcedOnto(layer, old(layer.emitted), old(layer.until), old(layer.forced))
    {
      hide QueueTracks, PairsMatch, Knows, DecodesKnown, RepeatsCounted, Timely;
      layer.Finalize();
    }

    method DecodeIn(layer: VideoLayer, frame: VideoFrame, renderTime: Timestamp, atTime: Timestamp, ghost next: nat)
      requires LayerValid(layer, next)
      modifies layer, layer.decodes
      ensures LayerValid(layer, next)
      ensures layer.history ==
                old(layer.history) + [Decoded(Decoding(old(layer.nextDecodedId), frame, atTime, renderTime))]
      ensures DecodesOnto(layer, old(layer.emitted), old(layer.until)) && layer.forced == old(layer.forced)
      ensures layer.since == old(layer.since)
      ensures fresh(layer.decodes - old(layer.decodes))
    {
      hide VideoLayer.Valid, VideoLayer.HeadWaits;
      layer.Decode(frame, renderTime, atTime);
    }
  }

  lemma Inhabited(s: set<int>)
    ensures s != {} ==> exists x :: x in s
  {
    if s != {} && forall x :: x !in s {
      assert false;
    }
  }
}
