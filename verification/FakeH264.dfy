/** The H.264-shaped bitstream of the fake encoder, and the fake decoder that checks its bytes.
    Between them each fragment gets a start code, as in Annex B of ITU-T H.264. */
module FakeH264 {

  type byte = x: nat | x < 256

  const START: seq<byte> := [0, 0, 0, 1]

  /** One NAL unit: its header byte and what follows. */
  datatype Fragment = Fragment(header: byte, body: seq<byte>)

  /** What RTPFragmentationHeader records. */
  datatype Slice = Slice(offset: nat, length: nat)

  // ---------------------------------------------------------------- the stream between the two

  function AnnexB(fragments: seq<Fragment>): seq<byte> {
    if fragments == [] then []
    else START + [fragments[0].header] + fragments[0].body + AnnexB(fragments[1..])
  }

  function Bodies(fragments: seq<Fragment>): seq<byte> {
    if fragments == [] then [] else fragments[0].body + Bodies(fragments[1..])
  }

  /** The bytes count up modulo 256 from `value`. */
  predicate Counts(bytes: seq<byte>, value: int) {
    forall i | 0 <= i < |bytes| :: bytes[i] == (value + i) % 256
  }

  predicate CodeAt(bytes: seq<byte>, i: nat) {
    i + 4 <= |bytes| && bytes[i] == 0 && bytes[i + 1] == 0 && bytes[i + 2] == 0 && bytes[i + 3] == 1
  }

  predicate Clean(bytes: seq<byte>) {
    forall i: nat | i < |bytes| :: !CodeAt(bytes, i)
  }

  /** A NAL unit with at least one byte after its header and no start code inside. */
  predicate Proper(f: Fragment) {
    f.body != [] && Clean(f.body)
  }

  /** The slices cover a whole image, each starting where the one before it ends. */
  predicate Tiles(slices: seq<Slice>, size: nat) {
    && slices != [] && slices[0].offset == 0
    && slices[|slices| - 1].offset + slices[|slices| - 1].length == size
    && (forall k | 0 <= k < |slices| :: slices[k].length > 0 && slices[k].offset + slices[k].length <= size)
    && (forall k | 0 < k < |slices| :: slices[k - 1].offset + slices[k - 1].length == slices[k].offset)
    && (forall a, b | 0 <= a < b < |slices| :: slices[a].offset + slices[a].length <= slices[b].offset)
  }

  /** Outside the headers, an image holds its own positions less the headers up to there. */
  predicate Numbered(image: seq<byte>, slices: seq<Slice>, upTo: nat) {
    forall k, j | 0 <= k < |slices| && 0 <= j < upTo <= |image|
                  && slices[k].offset < j < slices[k].offset + slices[k].length
      :: image[j] == (j - k - 1) % 256
  }

  /** The fragments that the recorded slices cut out of an image. */
  function Cut(image: seq<byte>, slices: seq<Slice>): (fs: seq<Fragment>)
    requires forall k | 0 <= k < |slices| :: slices[k].length > 0 && slices[k].offset + slices[k].length <= |image|
  {
    seq(|slices|, k requires 0 <= k < |slices| =>
      var s := slices[k];
      Fragment(image[s.offset], image[s.offset + 1..s.offset + s.length]))
  }

  // ---------------------------------------------------------------- the decoder

  /** OutOfRange: the code would read past the end of its input. */
  datatype Verdict = Accepted | Mismatch | OutOfRange

  /** The rest of the input, when the whole has at least four bytes. */
  function Judge(rest: seq<byte>, value: byte): Verdict {
    if rest == [] then Accepted
    else
      var unit := if |rest| > 4 && CodeAt(rest, 0) then rest[5..] else rest;
      if unit == [] then OutOfRange
      else if unit[0] != value then Mismatch
      else Judge(unit[1..], (value + 1) % 256)
  }

  /** Below four bytes the unsigned size - 4 is huge and the comparison reads past the end. */
  function VerdictOn(input: seq<byte>): Verdict {
    if 0 < |input| < 4 then OutOfRange else Judge(input, 0)
  }

  method Decode(input: array<byte>) returns (v: Verdict)
    ensures v == VerdictOn(input[..])
  {
    var value: byte := 0;
    var i := 0;
    if 0 < input.Length < 4 {
      return OutOfRange;
    }
    while i < input.Length
      invariant 0 <= i <= input.Length
      invariant Judge(input[i..], value) == VerdictOn(input[..])
    {
      ghost var rest := input[i..];
      if i < input.Length - 4 && CodeAt(input[..], i) {
        i := i + 5;
        assert input[i..] == rest[5..];
      }
      if i == input.Length {
        return OutOfRange;
      }
      if input[i] != value {
        return Mismatch;
      }
      value := (value + 1) % 256;
      assert input[i..][1..] == input[i + 1..];
      i := i + 1;
    }
    return Accepted;
  }

  // ---------------------------------------------------------------- the encoder

  const SPS_SIZE := 8
  const PPS_SIZE := 11
  const IDR_FREQUENCY := 10
  const MIN_PAYLOAD_LENGTH := 14

  function Headers(fs: seq<Fragment>): seq<byte> {
    seq(|fs|, k requires 0 <= k < |fs| => fs[k].header)
  }

  /** The slices of an image of this size, and the headers at their starts. */
  function Plan(current: nat, size: nat): (p: (seq<Slice>, seq<byte>))
    requires size > 0
    ensures |p.0| == |p.1| && Tiles(p.0, size)
    ensures size > 1 ==> forall k | 0 <= k < |p.0| :: p.0[k].length > 1
  {
    if current % IDR_FREQUENCY == 0 && size > SPS_SIZE + PPS_SIZE + 1
    then ([Slice(0, SPS_SIZE), Slice(SPS_SIZE, PPS_SIZE),
           Slice(SPS_SIZE + PPS_SIZE, size - (SPS_SIZE + PPS_SIZE))], [0x67, 0x68, 0x65])
    else ([Slice(0, size)], [0x41])
  }

  /** What goes to the callback: an image and where its fragments lie. */
  datatype Encoded = Encoded(image: seq<byte>, slices: seq<Slice>)

  predicate Accepts(e: Encoded) {
    Tiles(e.slices, |e.image|) && VerdictOn(AnnexB(Cut(e.image, e.slices))) == Accepted
  }

  function Lengths(sent: seq<Encoded>): seq<nat> {
    seq(|sent|, k requires 0 <= k < |sent| => |sent[k].image|)
  }

  function BigEnough(sizes: seq<nat>): seq<nat> {
    if sizes == [] then []
    else
      var n := |sizes| - 1;
      BigEnough(sizes[..n]) + if sizes[n] >= MIN_PAYLOAD_LENGTH then [sizes[n]] else []
  }

  predicate AtStarts(image: seq<byte>, slices: seq<Slice>, headers: seq<byte>) {
    && |headers| == |slices|
    && forall k | 0 <= k < |slices| :: slices[k].offset < |image| && image[slices[k].offset] == headers[k]
  }

  lemma HeadersCut(image: seq<byte>, slices: seq<Slice>, headers: seq<byte>)
    requires Tiles(slices, |image|) && AtStarts(image, slices, headers)
    ensures Headers(Cut(image, slices)) == headers
  {}

  /** What the n-th image looks like: every tenth one that is large enough has a sequence parameter set of
      8 bytes, a picture parameter set of 11 and an IDR slice, every other is a single slice. */
  predicate Shaped(image: seq<byte>, slices: seq<Slice>, n: nat) {
    if n % 10 == 0 && |image| > 20
    then slices == [Slice(0, 8), Slice(8, 11), Slice(19, |image| - 19)]
         && image[0] == 0x67 && image[8] == 0x68 && image[19] == 0x65
    else |image| > 0 && slices == [Slice(0, |image|)] && image[0] == 0x41
  }

  lemma PlanShaped(image: seq<byte>, n: nat)
    requires |image| > 0 && AtStarts(image, Plan(n, |image|).0, Plan(n, |image|).1)
    ensures Shaped(image, Plan(n, |image|).0, n)
  {
    var slices, headers := Plan(n, |image|).0, Plan(n, |image|).1;
    assert image[slices[0].offset] == headers[0];
    if |slices| > 1 {
      assert image[slices[1].offset] == headers[1] && image[slices[2].offset] == headers[2];
    }
  }

  /** Layers below 14 bytes are dropped, and no others; the rest stay in order. */
  lemma BigEnoughMeans(a: seq<nat>, b: seq<nat>)
    ensures BigEnough(a + b) == BigEnough(a) + BigEnough(b)
    ensures BigEnough([]) == [] && forall x: nat :: BigEnough([x]) == if x >= 14 then [x] else []
  {
    forall x: nat
      ensures BigEnough([x]) == if x >= 14 then [x] else []
    {
      BigEnoughOne(x);
    }
    BigEnoughJoins(a, b);
  }

  lemma BigEnoughOne(x: nat)
    ensures BigEnough([x]) == if x >= 14 then [x] else []
  {
    assert [x][..0] == [];
  }

  lemma {:induction false} BigEnoughJoins(a: seq<nat>, b: seq<nat>)
    ensures BigEnough(a + b) == BigEnough(a) + BigEnough(b)
    decreases |b|
  {
    if b == [] {
      assert a + b == a;
    } else {
      var n := |b| - 1;
      assert (a + b)[..|a| + n] == a + b[..n];
      BigEnoughJoins(a, b[..n]);
    }
  }

  class FakeH264Encoder {
    var idrCounter: nat

    constructor ()
      ensures idrCounter == 0
    {
      idrCounter := 0;
    }

    /** Every tenth image large enough becomes three NAL units, every other a single one; the slices
        tile the image, and the bytes outside the headers count up from 0 across all of them. */
    method EncodeHook(image: array<byte>) returns (slices: seq<Slice>)
      requires image.Length > 0
      modifies this, image
      ensures idrCounter == old(idrCounter) + 1
      ensures Tiles(slices, image.Length)
      ensures slices == Plan(old(idrCounter), image.Length).0
      ensures Headers(Cut(image[..], slices)) == Plan(old(idrCounter), image.Length).1
      ensures Counts(Bodies(Cut(image[..], slices)), 0)
      ensures Shaped(image[..], slices, old(idrCounter))
    {
      hide Shaped, Plan, Counts, Numbered, Bodies, Cut;
      var current := idrCounter;
      idrCounter := idrCounter + 1;
      slices := WriteHeaders(image, current);
      ghost var headers := Plan(current, image.Length).1;
      NumberBytes(image, slices);
      HeadersCut(image[..], slices, headers);
      PlanShaped(image[..], current);
      CutCounts(image[..], slices, 0);
      ghost var fs := Cut(image[..], slices);
      assert fs[0..] == fs;
    }

    /** The slices, with a header at the start of each. */
    method WriteHeaders(image: array<byte>, current: nat) returns (slices: seq<Slice>)
      requires image.Length > 0
      modifies image
      ensures slices == Plan(current, image.Length).0
      ensures AtStarts(image[..], slices, Plan(current, image.Length).1)
    {
      var size := image.Length;
      if current % IDR_FREQUENCY == 0 && size > SPS_SIZE + PPS_SIZE + 1 {
        slices := [Slice(0, SPS_SIZE), Slice(SPS_SIZE, PPS_SIZE),
                   Slice(SPS_SIZE + PPS_SIZE, size - (SPS_SIZE + PPS_SIZE))];
        image[0], image[SPS_SIZE], image[SPS_SIZE + PPS_SIZE] := 0x67, 0x68, 0x65;
      } else {
        slices := [Slice(0, size)];
        image[0] := 0x41;
      }
    }

    /** The layers of one frame: those too small are dropped, every other goes out as an image of
        exactly its size that the decoder accepts. */
    method Encode(sizes: seq<nat>) returns (sent: seq<Encoded>)
      modifies this
      ensures idrCounter == old(idrCounter) + |sent|
      ensures Lengths(sent) == BigEnough(sizes)
      ensures forall e | e in sent :: Accepts(e)
      ensures forall k | 0 <= k < |sent| :: Shaped(sent[k].image, sent[k].slices, old(idrCounter) + k)
    {
      hide Shaped;
      sent := [];
      for i := 0 to |sizes|
        invariant idrCounter == old(idrCounter) + |sent|
        invariant Lengths(sent) == BigEnough(sizes[..i])
        invariant forall e | e in sent :: Accepts(e)
        invariant forall k | 0 <= k < |sent| :: Shaped(sent[k].image, sent[k].slices, old(idrCounter) + k)
      {
        assert sizes[..i + 1][..i] == sizes[..i];
        if sizes[i] >= MIN_PAYLOAD_LENGTH {
          var image := new byte[sizes[i]];
          ghost var current := idrCounter;
          var slices := EncodeHook(image);
          assert Accepts(Encoded(image[..], slices)) by {
            RoundTripExactly(image[..], current);
          }
          assert Lengths(sent + [Encoded(image[..], slices)]) == Lengths(sent) + [sizes[i]];
          sent := sent + [Encoded(image[..], slices)];
        }
      }
      assert sizes[..|sizes|] == sizes;
    }

    /** The loop over the payload: every byte that is not the first of a slice takes the counter. */
    method NumberBytes(image: array<byte>, slices: seq<Slice>)
      requires Tiles(slices, image.Length)
      modifies image
      ensures Numbered(image[..], slices, image.Length)
      ensures forall k | 0 <= k < |slices| :: image[slices[k].offset] == old(image[slices[k].offset])
    {
      hide Numbered;
      var value: byte := 0;
      var fragmentCounter := 0;
      NumberedNone(image[..], slices);
      for i := 0 to image.Length
        invariant 0 <= fragmentCounter <= |slices|
        invariant fragmentCounter == 0 <==> i == 0
        invariant fragmentCounter > 0 ==> slices[fragmentCounter - 1].offset < i
        invariant fragmentCounter < |slices| ==> i <= slices[fragmentCounter].offset
        invariant value == (i - fragmentCounter) % 256
        invariant Numbered(image[..], slices, i)
        invariant forall k | 0 <= k < |slices| :: image[slices[k].offset] == old(image[slices[k].offset])
      {
        ghost var was := image[..];
        if fragmentCounter == |slices| || i != slices[fragmentCounter].offset {
          image[i] := value;
          NextByte(value, i - fragmentCounter);
          value := (value + 1) % 256;
          NumberedOn(was, slices, i, fragmentCounter, image[i]);
          assert image[..] == was[i := image[i]];
        } else {
          fragmentCounter := fragmentCounter + 1;
          HeaderOn(was, slices, i, fragmentCounter - 1);
        }
      }
    }
  }

  lemma NextByte(value: int, n: int)
    requires value == n % 256
    ensures (value + 1) % 256 == (n + 1) % 256
  {
  }

  lemma NumberedNone(image: seq<byte>, slices: seq<Slice>)
    ensures Numbered(image, slices, 0)
  {
  }

  lemma NumberedOn(was: seq<byte>, slices: seq<Slice>, i: nat, next: nat, value: byte)
    requires Tiles(slices, |was|) && i < |was| && Numbered(was, slices, i)
    requires 0 < next <= |slices| && slices[next - 1].offset < i
    requires next < |slices| ==> i < slices[next].offset
    requires value == (i - next) % 256
    ensures Numbered(was[i := value], slices, i + 1)
    ensures forall k | 0 <= k < |slices| :: slices[k].offset != i
  {
  }

  lemma HeaderOn(was: seq<byte>, slices: seq<Slice>, i: nat, k: nat)
    requires Tiles(slices, |was|) && i < |was| && Numbered(was, slices, i)
    requires k < |slices| && i == slices[k].offset
    ensures Numbered(was, slices, i + 1)
  {
  }

  lemma {:induction false} CutCounts(image: seq<byte>, slices: seq<Slice>, k: nat)
    requires Tiles(slices, |image|) && Numbered(image, slices, |image|) && k < |slices|
    ensures Counts(Bodies(Cut(image, slices)[k..]), slices[k].offset - k)
    decreases |slices| - k
  {
    hide Counts, Numbered, Cut;
    var fs := Cut(image, slices);
    CutBody(image, slices, k);
    CutShape(image, slices, k);
    assert fs[k..][1..] == fs[k + 1..];
    if k + 1 < |slices| {
      CutCounts(image, slices, k + 1);
    }
    CountsJoin(fs[k].body, Bodies(fs[k + 1..]), slices[k].offset - k);
    CountsNothing(slices[k].offset - k + |fs[k].body|);
  }

  /** Where the slice after slice k begins. */
  lemma CutShape(image: seq<byte>, slices: seq<Slice>, k: nat)
    requires Tiles(slices, |image|) && k < |slices|
    ensures |Cut(image, slices)| == |slices|
    ensures k + 1 < |slices| ==> slices[k + 1].offset == slices[k].offset + 1 + |Cut(image, slices)[k].body|
  {
    assert k + 1 < |slices| ==> slices[k + 1 - 1].offset + slices[k + 1 - 1].length == slices[k + 1].offset;
  }

  lemma CountsNothing(value: int)
    ensures Counts([], value)
  {}

  lemma CutBody(image: seq<byte>, slices: seq<Slice>, k: nat)
    requires Tiles(slices, |image|) && Numbered(image, slices, |image|) && k < |slices|
    ensures Counts(Cut(image, slices)[k].body, slices[k].offset - k)
  {
  }

  lemma CountsJoin(a: seq<byte>, b: seq<byte>, value: int)
    ensures Counts(a + b, value) <==> Counts(a, value) && Counts(b, value + |a|)
  {
    if Counts(a + b, value) {
      assert forall i | 0 <= i < |a| :: (a + b)[i] == a[i];
      assert forall i | 0 <= i < |b| :: (a + b)[|a| + i] == b[i];
    }
  }

  // ---------------------------------------------------------------- the decoder against its meaning

  /** A counting body can hold no start code: two equal bytes are never next to each other. */
  lemma CountingIsClean(bytes: seq<byte>, value: int)
    requires Counts(bytes, value)
    ensures Clean(bytes)
  {
    forall i: nat | i < |bytes| ensures !CodeAt(bytes, i) {
      assert i + 1 < |bytes| ==> bytes[i] == (value + i) % 256 && bytes[i + 1] == (value + i + 1) % 256;
    }
  }

  /** What may follow the body of a NAL unit: nothing, or the start code of the next. */
  predicate AtUnit(rest: seq<byte>) {
    rest == [] || (|rest| > 4 && CodeAt(rest, 0))
  }

  /** No start code begins inside a clean body, not even one that would reach into the next. */
  lemma NoCodeInBody(body: seq<byte>, rest: seq<byte>)
    requires body != [] && Clean(body) && AtUnit(rest)
    ensures |body + rest| > 4 ==> !CodeAt(body + rest, 0)
  {
    var s := body + rest;
    if |body| >= 4 {
      assert !CodeAt(body, 0);
    } else if rest != [] {
      assert s[3] == rest[3 - |body|] == 0;
    }
  }

  lemma JudgeStep(s: seq<byte>, value: byte)
    requires s != [] && (|s| > 4 ==> !CodeAt(s, 0))
    ensures Judge(s, value) == if s[0] != value then Mismatch else Judge(s[1..], (value + 1) % 256)
  {}

  lemma {:induction false} JudgeBody(body: seq<byte>, rest: seq<byte>, value: byte)
    requires Clean(body) && AtUnit(rest)
    ensures Judge(body + rest, value)
         == if Counts(body, value) then Judge(rest, (value + |body|) % 256) else Mismatch
    decreases |body|
  {
    hide Judge, Clean, AtUnit, Counts, CodeAt;
    if body == [] {
      assert body + rest == rest;
      CountsNothing(value);
    } else {
      NoCodeInBody(body, rest);
      JudgeStep(body + rest, value);
      CleanTail(body);
      var tail := body[1..];
      assert (body + rest)[1..] == tail + rest;
      JudgeBody(tail, rest, (value + 1) % 256);
      assert body == [body[0]] + tail;
      CountsJoin([body[0]], tail, value);
      CountsModulo(tail, value + 1);
      CountsOne(body[0], value);
    }
  }

  lemma CleanTail(body: seq<byte>)
    requires body != [] && Clean(body)
    ensures Clean(body[1..])
  {
    forall i: nat | i < |body| - 1 ensures !CodeAt(body[1..], i) {
      assert !CodeAt(body, i + 1);
    }
  }

  lemma CountsOne(b: byte, value: byte)
    ensures Counts([b], value) <==> b == value
  {
    if Counts([b], value) {
      assert [b][0] == (value + 0) % 256;
    }
  }

  lemma CountsModulo(bytes: seq<byte>, value: int)
    ensures Counts(bytes, value % 256) <==> Counts(bytes, value)
  {
    assert forall i | 0 <= i < |bytes| :: bytes[i] == (value % 256 + i) % 256 <==> bytes[i] == (value + i) % 256;
  }

  /** The decoder on any stream of proper NAL units: it accepts if and only if the bytes outside
      start codes and headers count up from 0 modulo 256, and otherwise reports a mismatch. It never
      reads past the end. */
  lemma {:induction false} JudgeUnits(fs: seq<Fragment>, value: byte)
    requires forall f | f in fs :: Proper(f)
    ensures AtUnit(AnnexB(fs))
    ensures Judge(AnnexB(fs), value) == if Counts(Bodies(fs), value) then Accepted else Mismatch
  {
    hide Judge, Counts, AtUnit, Clean;
    if fs == [] {
      EmptyUnits(value);
    } else {
      var f, rest := fs[0], AnnexB(fs[1..]);
      JudgeUnits(fs[1..], (value + |f.body|) % 256);
      UnitStart(f, rest, value);
      JudgeBody(f.body, rest, value);
      CountsJoin(f.body, Bodies(fs[1..]), value);
      CountsModulo(Bodies(fs[1..]), value + |f.body|);
    }
  }

  lemma EmptyUnits(value: byte)
    ensures AtUnit([]) && Judge([], value) == Accepted && Counts([], value)
  {}

  lemma UnitStart(f: Fragment, rest: seq<byte>, value: byte)
    requires Proper(f) && AtUnit(rest)
    ensures AtUnit(START + [f.header] + f.body + rest)
    ensures Judge(START + [f.header] + f.body + rest, value) == Judge(f.body + rest, value)
  {
    var s := START + [f.header] + f.body + rest;
    assert CodeAt(s, 0) && s[5..] == f.body + rest;
    NoCodeInBody(f.body, rest);
  }

  lemma DecoderMeaning(fs: seq<Fragment>)
    requires forall f | f in fs :: Proper(f)
    ensures VerdictOn(AnnexB(fs)) == if Counts(Bodies(fs), 0) then Accepted else Mismatch
  {
    JudgeUnits(fs, 0);
  }

  /** The round trip: of what EncodeHook makes of an image, put into one Annex B stream, the decoder
      accepts every byte if and only if the image has at least two bytes. Encode drops anything
      below fourteen. */
  lemma RoundTripExactly(image: seq<byte>, current: nat)
    requires image != [] && var p := Plan(current, |image|);
             Counts(Bodies(Cut(image, p.0)), 0)
    ensures VerdictOn(AnnexB(Cut(image, Plan(current, |image|).0))) == Accepted <==> |image| >= 2
    ensures MIN_PAYLOAD_LENGTH >= 2
  {
    var p := Plan(current, |image|);
    var fs := Cut(image, p.0);
    hide Judge, Counts, Clean;
    if |image| >= 2 {
      CutProper(image, p.0);
      hide Cut, VerdictOn, AnnexB;
      FragmentsProper(fs, 0);
      DecoderMeaning(fs);
    } else {
      OneByte(fs[0]);
      assert fs == [fs[0]];
    }
  }

  lemma OneByte(f: Fragment)
    requires f.body == []
    ensures VerdictOn(AnnexB([f])) == OutOfRange
  {
    var s := AnnexB([f]);
    assert s == START + [f.header] by {
      assert AnnexB([f][1..]) == [];
    }
    hide AnnexB;
    assert CodeAt(s, 0) && s[5..] == [];
  }

  lemma CutProper(image: seq<byte>, slices: seq<Slice>)
    requires forall k | 0 <= k < |slices| :: slices[k].length > 1 && slices[k].offset + slices[k].length <= |image|
    ensures forall f | f in Cut(image, slices) :: f.body != []
  {
  }

  lemma {:induction false} FragmentsProper(fs: seq<Fragment>, from: int)
    requires Counts(Bodies(fs), from)
    requires forall f | f in fs :: f.body != []
    ensures forall f | f in fs :: Proper(f)
  {
    hide Counts, Clean;
    if fs != [] {
      CountsJoin(fs[0].body, Bodies(fs[1..]), from);
      CountingIsClean(fs[0].body, from);
      FragmentsProper(fs[1..], from + |fs[0].body|);
    }
  }
}
