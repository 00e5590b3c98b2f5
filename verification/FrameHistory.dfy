/** What one layer of the frame matcher has seen, and what that history says about every captured
    frame: the decodes it could be matched with, the best of them, and whether it is settled. */
module FrameHistory {
  import opened Timestamps

  datatype VideoFrame = VideoFrame(width: nat, height: nat, pixels: seq<nat>)

  /** A decoded frame, but for its repeat count. */
  datatype Decoding = Decoding(id: nat, frame: VideoFrame, decodedTime: Timestamp, renderTime: Timestamp)

  datatype Capture = Capture(id: nat, time: Timestamp, frame: VideoFrame)

  datatype Event = Captured(c: Capture) | Decoded(d: Decoding)

  /** How far a decoded picture is from a captured one: the sum of squared errors of thumbnails. */
  type Score = (VideoFrame, VideoFrame) -> real

  function LastDecode(h: seq<Event>): Option<Decoding> {
    if h == [] then None
    else if h[|h| - 1].Decoded? then Some(h[|h| - 1].d)
    else LastDecode(h[..|h| - 1])
  }

  /** A decode no wider than the capture. */
  predicate Fits(frame: VideoFrame, d: Decoding) {
    d.frame.width <= frame.width
  }

  /** The decodes that the frame captured at position p has been compared with by the end of h: the
      last one before its capture and every one since, where they fit. */
  function Candidates(h: seq<Event>, p: nat, frame: VideoFrame): seq<Decoding>
    requires p < |h|
  {
    var n := |h| - 1;
    if n == p then
      var last := LastDecode(h[..p]);
      if last.Some? && Fits(frame, last.value) then [last.value] else []
    else if h[n].Decoded? && Fits(frame, h[n].d) then Candidates(h[..n], p, frame) + [h[n].d]
    else Candidates(h[..n], p, frame)
  }

  function Best(score: Score, frame: VideoFrame, ds: seq<Decoding>): Option<Decoding> {
    if ds == [] then None
    else
      var best := Best(score, frame, ds[..|ds| - 1]);
      var d := ds[|ds| - 1];
      if best.None? || score(frame, d.frame) < score(frame, best.value.frame) then Some(d) else best
  }

  function BestOf(score: Score, h: seq<Event>, p: nat, frame: VideoFrame): Option<Decoding>
    requires p < |h|
  {
    Best(score, frame, Candidates(h, p, frame))
  }

  /** Whether the last decode since the capture was too wide or no improvement. */
  predicate Settled(score: Score, h: seq<Event>, p: nat, frame: VideoFrame)
    requires p < |h|
  {
    var n := |h| - 1;
    n > p
    && match h[n]
       case Captured(_) => Settled(score, h[..n], p, frame)
       case Decoded(d) => !Fits(frame, d) || BestOf(score, h[..n], p, frame) == BestOf(score, h, p, frame)
  }

  /** The index of the earliest decode with the lowest score. */
  predicate EarliestMinimum(score: Score, frame: VideoFrame, ds: seq<Decoding>, i: nat) {
    && i < |ds|
    && (forall j | 0 <= j < |ds| :: score(frame, ds[i].frame) <= score(frame, ds[j].frame))
    && (forall j | 0 <= j < i :: score(frame, ds[i].frame) < score(frame, ds[j].frame))
  }

  /** The running best is the earliest minimum. */
  lemma {:induction false} BestIsEarliestMinimum(score: Score, frame: VideoFrame, ds: seq<Decoding>) returns (i: nat)
    requires ds != []
    ensures EarliestMinimum(score, frame, ds, i) && Best(score, frame, ds) == Some(ds[i])
  {
    var n := |ds| - 1;
    i := n;
    if n > 0 {
      var k := BestIsEarliestMinimum(score, frame, ds[..n]);
      if !(score(frame, ds[n].frame) < score(frame, ds[k].frame)) {
        i := k;
      }
    }
  }

  /** A position decides its candidates by what came before it and what follows, in order. */
  lemma {:induction false} CandidatesGrow(h: seq<Event>, e: Event, p: nat, frame: VideoFrame)
    requires p < |h|
    ensures Candidates(h + [e], p, frame)
         == Candidates(h, p, frame) + if e.Decoded? && Fits(frame, e.d) then [e.d] else []
  {
    assert (h + [e])[..|h|] == h;
  }

  /** What one more event does to the best and to whether it is settled. */
  lemma BestGrows(score: Score, h: seq<Event>, e: Event, p: nat, frame: VideoFrame)
    requires p < |h|
    ensures var best := BestOf(score, h, p, frame);
            && (e.Captured? || !Fits(frame, e.d) ==> BestOf(score, h + [e], p, frame) == best)
            && (e.Decoded? && Fits(frame, e.d) ==>
                  BestOf(score, h + [e], p, frame) ==
                  if best.None? || score(frame, e.d.frame) < score(frame, best.value.frame) then Some(e.d) else best)
            && Settled(score, h + [e], p, frame)
               == match e
                  case Captured(_) => Settled(score, h, p, frame)
                  case Decoded(d) =>
                    !Fits(frame, d) || (best.Some? && !(score(frame, d.frame) < score(frame, best.value.frame)))
  {
    CandidatesGrow(h, e, p, frame);
    assert (h + [e])[..|h|] == h;
    if e.Decoded? && Fits(frame, e.d) {
      var ds := Candidates(h, p, frame) + [e.d];
      assert ds[..|ds| - 1] == Candidates(h, p, frame);
    }
  }
}
