/** The packet tag: two 64-bit numbers in a variable-length encoding, seven bits a byte, least
    significant first, the top bit of a byte saying that another byte follows. */
module WebrtcTag {
  import opened Numbers
  import opened Timestamps

  type byte = x: nat | x < 256

  // ---------------------------------------------------------------- the encoding as a function

  function Encode(value: nat): seq<byte> {
    if value == 0 then []
    else if value / 128 > 0 then [128 + value % 128] + Encode(value / 128)
    else [value % 128]
  }

  datatype Parsed = Parsed(value: nat, rest: seq<byte>)

  /** The decoder's loop: the sum and the multiplier wrap at 64 bits; None when the bytes run out. */
  function Decode(bytes: seq<byte>, remain: nat, multi: nat): Option<Parsed> {
    if bytes == [] then None
    else
      var sum := (remain + bytes[0] % 128 * multi) % UINT64;
      if bytes[0] >= 128 then Decode(bytes[1..], sum, multi * 128 % UINT64)
      else Some(Parsed(sum, bytes[1..]))
  }

  datatype Fields = Fields(sequence: nat, time: nat, rest: seq<byte>)

  function Written(sequence: nat, time: nat): seq<byte> {
    Encode(sequence) + Encode(time)
  }

  function ReadBack(bytes: seq<byte>): Option<Fields> {
    match Decode(bytes, 0, 1)
    case None => None
    case Some(first) =>
      match Decode(first.rest, 0, 1)
      case None => None
      case Some(second) => Some(Fields(first.value, second.value, second.rest))
  }

  // ---------------------------------------------------------------- the code

  /** A cursor over a fixed stretch of bytes; ok == false is ns-3's assertion at its end. */
  class TagBuffer {
    const bytes: array<byte>
    var current: nat

    ghost predicate Valid()
      reads this
    {
      current <= bytes.Length
    }

    ghost function Ahead(): seq<byte>
      requires Valid()
      reads this, bytes
    {
      bytes[current..]
    }

    constructor (size: nat)
      ensures Valid() && fresh(bytes) && bytes.Length == size && current == 0
    {
      bytes := new byte[size];
      current := 0;
    }

    method WriteU8(value: byte) returns (ok: bool)
      requires Valid()
      modifies `current, bytes
      ensures Valid()
      ensures ok <==> old(current) < bytes.Length
      ensures ok ==> current == old(current) + 1 && bytes[..] == old(bytes[..])[old(current) := value]
    {
      ok := current < bytes.Length;
      if ok {
        bytes[current] := value;
        current := current + 1;
      }
    }

    method ReadU8() returns (ok: bool, value: byte)
      requires Valid()
      modifies `current
      ensures Valid()
      ensures ok <==> old(Ahead()) != []
      ensures ok ==> value == old(Ahead())[0] && Ahead() == old(Ahead())[1..]
    {
      ok := current < bytes.Length;
      value := 0;
      if ok {
        value := bytes[current];
        current := current + 1;
      }
    }
  }

  /** The buffer after writing `out` at `at`. */
  function Overwritten(was: seq<byte>, at: nat, out: seq<byte>): seq<byte>
    requires at + |out| <= |was|
  {
    was[..at] + out + was[at + |out|..]
  }

  lemma OverwriteOn(was: seq<byte>, at: nat, out: seq<byte>, more: seq<byte>)
    requires at + |out| + |more| <= |was|
    ensures Overwritten(Overwritten(was, at, out), at + |out|, more) == Overwritten(was, at, out + more)
  {}

  lemma OverwriteOne(was: seq<byte>, at: nat, out: seq<byte>, b: byte)
    requires at + |out| < |was|
    ensures |Overwritten(was, at, out)| == |was|
    ensures Overwritten(was, at, out)[at + |out| := b] == Overwritten(was, at, out + [b])
  {}

  lemma OverwriteNone(was: seq<byte>, at: nat)
    requires at <= |was|
    ensures Overwritten(was, at, []) == was
  {}

  /** The first byte of a number that is not zero. */
  function FirstByte(value: nat): byte {
    if value / 128 > 0 then 128 + value % 128 else value % 128
  }

  lemma EncodeStep(out: seq<byte>, value: nat)
    requires value != 0
    ensures out + Encode(value) == (out + [FirstByte(value)]) + Encode(value / 128)
    ensures |Encode(value)| == 1 + |Encode(value / 128)|
  {}

  /** C++ division of a signed number by 128: towards zero. */
  function Truncated(n: int): int {
    if n >= 0 then n / 128 else -(-n / 128)
  }

  /** The length helper holds its copy of the number in a signed 64-bit variable. */
  method VarintLength(number: nat) returns (key: nat)
    requires number < UINT64
    ensures key == if number < UINT64 / 2 then |Encode(number)| else 1
  {
    var next := if number < UINT64 / 2 then number as int else number - UINT64;
    key := 0;
    if next != 0 {
      next := Truncated(next);
      key := 1;
      while next > 0
        invariant number < UINT64 / 2 ==> 0 <= next && key + |Encode(next)| == |Encode(number)|
        invariant number >= UINT64 / 2 ==> next <= 0 && key == 1
        decreases next
      {
        next := Truncated(next);
        key := key + 1;
      }
    }
  }

  method VarintEncode(i: TagBuffer, value: nat) returns (ok: bool)
    requires i.Valid() && value < UINT64
    modifies i`current, i.bytes
    ensures i.Valid()
    ensures ok <==> old(i.current) + |Encode(value)| <= i.bytes.Length
    ensures ok ==> i.current == old(i.current) + |Encode(value)|
    ensures ok ==> i.bytes[..] == Overwritten(old(i.bytes[..]), old(i.current), Encode(value))
  {
    ok := true;
    var next: nat := value;
    ghost var was, from, out := i.bytes[..], i.current, [];
    assert Encode(0) == [];
    OverwriteNone(was, from);
    hide Encode, Overwritten, FirstByte;
    while next != 0
      invariant i.Valid() && next <= value
      invariant out + Encode(next) == Encode(value)
      invariant i.current == from + |out|
      invariant i.bytes[..] == Overwritten(was, from, out)
      decreases next
    {
      EncodeStep(out, next);
      ok, next := WriteGroup(i, next);
      if !ok {
        return;
      }
      ghost var b := i.bytes[i.current - 1];
      OverwriteOne(was, from, out, b);
      out := out + [b];
    }
  }

  /** One round of the loop: seven bits, and whether more follow. */
  method WriteGroup(i: TagBuffer, value: nat) returns (ok: bool, next: nat)
    requires i.Valid()
    modifies i`current, i.bytes
    ensures i.Valid() && next == value / 128
    ensures ok <==> old(i.current) < i.bytes.Length
    ensures ok ==> i.current == old(i.current) + 1 && i.bytes[old(i.current)] == FirstByte(value)
    ensures ok ==> i.bytes[..] == old(i.bytes[..])[old(i.current) := FirstByte(value)]
  {
    var first := value % 128;
    next := value / 128;
    var b: byte := if next > 0 then 128 + first else first;
    ok := i.WriteU8(b);
  }

  method VarientDecode(i: TagBuffer) returns (ok: bool, value: nat)
    requires i.Valid()
    modifies i`current
    ensures i.Valid()
    ensures match old(Decode(i.Ahead(), 0, 1))
            case None => !ok
            case Some(p) => ok && value == p.value && i.Ahead() == p.rest
  {
    var remain: nat, multi: nat := 0, 1;
    var more := true;
    value := 0;
    while more
      invariant i.Valid()
      invariant more ==> Decode(i.Ahead(), remain, multi) == old(Decode(i.Ahead(), 0, 1))
      invariant !more ==> old(Decode(i.Ahead(), 0, 1)) == Some(Parsed(remain, i.Ahead()))
      decreases more, |i.Ahead()|
    {
      var b: byte;
      ok, b := i.ReadU8();
      if !ok {
        return;
      }
      remain := (remain + b % 128 * multi) % UINT64;
      multi := multi * 128 % UINT64;
      more := b >= 128;
    }
    ok, value := true, remain;
  }

  class WebrtcTag {
    var sequence: nat
    var time: nat

    ghost predicate Valid()
      reads this
    {
      sequence < UINT64 && time < UINT64
    }

    constructor (seqNo: nat, now: nat)
      requires seqNo < UINT64 && now < UINT64
      ensures Valid() && sequence == seqNo && time == now
    {
      sequence, time := seqNo, now;
    }

    method GetSerializedSize() returns (size: nat)
      requires Valid()
      ensures sequence < UINT64 / 2 && time < UINT64 / 2 ==> size == |Written(sequence, time)|
      ensures size == |Written(sequence, time)| <==> sequence < UINT64 / 2 && time < UINT64 / 2
      ensures size <= |Written(sequence, time)|
    {
      var first := VarintLength(sequence);
      var second := VarintLength(time);
      LengthOfLarge(sequence);
      LengthOfLarge(time);
      size := first + second;
    }

    method Serialize(i: TagBuffer) returns (ok: bool)
      requires Valid() && i.Valid()
      modifies i`current, i.bytes
      ensures i.Valid()
      ensures ok <==> old(i.current) + |Written(sequence, time)| <= i.bytes.Length
      ensures ok ==> i.current == old(i.current) + |Written(sequence, time)|
      ensures ok ==> i.bytes[..] == Overwritten(old(i.bytes[..]), old(i.current), Written(sequence, time))
    {
      hide Encode;
      ok := VarintEncode(i, sequence);
      if ok {
        ok := VarintEncode(i, time);
        if ok {
          OverwriteOn(old(i.bytes[..]), old(i.current), Encode(sequence), Encode(time));
        }
      }
    }

    method Deserialize(i: TagBuffer) returns (ok: bool)
      requires i.Valid()
      modifies this, i`current
      ensures i.Valid()
      ensures match old(ReadBack(i.Ahead()))
              case None => !ok
              case Some(f) => ok && sequence == f.sequence && time == f.time && i.Ahead() == f.rest
    {
      var value: nat;
      ok, value := VarientDecode(i);
      if ok {
        sequence := value;
        ok, value := VarientDecode(i);
        if ok {
          time := value;
        }
      }
    }
  }

  // ---------------------------------------------------------------- what the encoding promises

  lemma LengthOfLarge(value: nat)
    requires value < UINT64
    ensures value >= UINT64 / 2 ==> |Encode(value)| > 1
  {
    if value >= UINT64 / 2 {
      assert value / 128 > 0 && value / 128 / 128 > 0;
      assert |Encode(value / 128)| > 0;
    }
  }

  /** What the wrap-around sum computes, in unbounded arithmetic. */
  function LittleEndian(bytes: seq<byte>): nat {
    if bytes == [] then 0 else bytes[0] % 128 + 128 * LittleEndian(bytes[1..])
  }

  /** The bytes of one number: every byte but the last has its top bit set. */
  predicate OneNumber(bytes: seq<byte>) {
    && bytes != [] && bytes[|bytes| - 1] < 128
    && forall i | 0 <= i < |bytes| - 1 :: bytes[i] >= 128
  }

  lemma SumOfRemainders(x: nat, k: nat, y: nat)
    ensures (x % UINT64 + k * (y % UINT64)) % UINT64 == (x + k * y) % UINT64
  {
    var p, q := x / UINT64, y / UINT64;
    assert k * y == k * (y % UINT64) + UINT64 * (k * q) by {
      assert y == y % UINT64 + UINT64 * q;
    }
    var r := p + k * q;
    assert x + k * y == x % UINT64 + k * (y % UINT64) + UINT64 * r;
  }

  lemma OneStep(remain: nat, digit: nat, multi: nat, more: nat)
    ensures ((remain + digit * multi) % UINT64 + more * (multi * 128 % UINT64)) % UINT64
         == (remain + (digit + 128 * more) * multi) % UINT64
  {
    SumOfRemainders(remain + digit * multi, more, multi * 128);
    assert more * (multi * 128) == 128 * more * multi;
    assert (digit + 128 * more) * multi == digit * multi + 128 * more * multi;
  }

  /** The decoder reads exactly one number, whatever follows it, and its wrap-around sum is that
      number modulo 2^64. */
  lemma {:induction false} DecodeIsSum(bytes: seq<byte>, rest: seq<byte>, remain: nat, multi: nat)
    requires OneNumber(bytes)
    ensures Decode(bytes + rest, remain, multi)
         == Some(Parsed((remain + LittleEndian(bytes) * multi) % UINT64, rest))
    decreases |bytes|
  {
    var digit, all := bytes[0] % 128, bytes + rest;
    if |bytes| > 1 {
      var tail := bytes[1..];
      var sum := (remain + digit * multi) % UINT64;
      assert all[1..] == tail + rest;
      assert forall i | 0 <= i < |tail| :: tail[i] == bytes[i + 1];
      DecodeIsSum(tail, rest, sum, multi * 128 % UINT64);
      OneStep(remain, digit, multi, LittleEndian(tail));
      hide *;
    } else {
      assert all[1..] == rest && LittleEndian(bytes[1..]) == 0;
    }
  }

  /** Every number that fits in 64 bits is written as one number with its own value. */
  lemma {:induction false} EncodeIsOneNumber(value: nat)
    requires value > 0
    ensures OneNumber(Encode(value)) && LittleEndian(Encode(value)) == value
  {
    if value / 128 > 0 {
      EncodeIsOneNumber(value / 128);
      assert Encode(value)[1..] == Encode(value / 128);
    }
  }

  /** No bytes are a number and none that stop before its last byte. */
  lemma {:induction false} CutShort(bytes: seq<byte>, remain: nat, multi: nat)
    ensures Decode(bytes, remain, multi).None? <==> forall i | 0 <= i < |bytes| :: bytes[i] >= 128
    decreases |bytes|
  {
    if bytes != [] {
      CutShort(bytes[1..], (remain + bytes[0] % 128 * multi) % UINT64, multi * 128 % UINT64);
      assert forall i | 1 <= i < |bytes| :: bytes[i] == bytes[1..][i - 1];
    }
  }

  /** A non-zero number comes back, whatever bytes follow it, and exactly its own bytes are used. */
  lemma SelfDelimiting(value: nat, rest: seq<byte>)
    requires 0 < value < UINT64
    ensures Decode(Encode(value) + rest, 0, 1) == Some(Parsed(value, rest))
  {
    hide Decode, Encode, LittleEndian, OneNumber;
    EncodeIsOneNumber(value);
    DecodeIsSum(Encode(value), rest, 0, 1);
  }

  /** The tag comes back from its own bytes if and only if both numbers are non-zero: zero has no
      bytes at all, so the reader runs past the end. */
  lemma RoundTripExactly(sequence: nat, time: nat)
    requires sequence < UINT64 && time < UINT64
    ensures ReadBack(Written(sequence, time)) == Some(Fields(sequence, time, []))
       <==> sequence != 0 && time != 0
    ensures ReadBack(Written(sequence, time)).None? <==> sequence == 0 || time == 0
  {
    assert Encode(time) + [] == Encode(time);
    if sequence != 0 {
      SelfDelimiting(sequence, Encode(time));
    } else {
      assert Written(sequence, time) == Encode(time);
    }
    if time != 0 {
      SelfDelimiting(time, []);
    }
  }
}
