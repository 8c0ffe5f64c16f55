/** The time that is signed along with data (src/utils/timestamp.ts). */
module Timestamps {
  import opened Encoding
  import Base64

  const TWO_TO_THE_32 := 0x1_0000_0000
  const TWO_TO_THE_53 := 0x20_0000_0000_0000

  /** `time & 0xff`: JavaScript first reduces the number to 32 bits. */
  function LowByte(time: int): nat {
    (time % TWO_TO_THE_32) % 256
  }

  function Reversed<T>(s: seq<T>): (r: seq<T>)
    ensures |r| == |s| && forall i :: 0 <= i < |s| ==> r[i] == s[|s| - 1 - i]
  {
    seq(|s|, i requires 0 <= i < |s| => s[|s| - 1 - i])
  }

  /** Byte `i` of a number, counted from the low end. */
  function ByteAt(n: nat, i: nat): nat {
    if i == 0 then n % 256 else ByteAt(n / 256, i - 1)
  }

  /** The eight bytes of a time, the high end first. */
  function BigEndian(n: nat): (bs: seq<nat>)
    ensures |bs| == 8 && forall i :: 0 <= i < 8 ==> bs[i] == ByteAt(n, 7 - i)
  {
    seq(8, i requires 0 <= i < 8 => ByteAt(n, 7 - i))
  }

  ghost function Shifted(n: nat, i: nat): nat {
    if i == 0 then n else Shifted(n / 256, i - 1)
  }

  lemma {:induction false} ShiftedStep(n: nat, i: nat)
    ensures ByteAt(n, i) == Shifted(n, i) % 256 && Shifted(n, i + 1) == Shifted(n, i) / 256
  {
    if i > 0 { ShiftedStep(n / 256, i - 1); }
  }

  lemma LowByteIsByte(time: nat)
    ensures LowByte(time) == time % 256 && (time - LowByte(time)) / 256 == time / 256
  {
    assert time == time / TWO_TO_THE_32 * TWO_TO_THE_32 + time % TWO_TO_THE_32;
    assert time == 256 * (time / TWO_TO_THE_32 * 0x100_0000) + time % TWO_TO_THE_32;
  }

  /** Takes bytes off the low end, eight times, and reverses them. */
  method Timestamp(now: nat) returns (result: seq<nat>)
    requires now < TWO_TO_THE_53
    ensures result == BigEndian(now)
  {
    var time, bytes := now, [];
    for i := 0 to 8
      invariant |bytes| == i && time == Shifted(now, i)
      invariant forall j :: 0 <= j < i ==> bytes[j] == ByteAt(now, j)
    {
      var byte := LowByte(time);
      LowByteIsByte(time);
      ShiftedStep(now, i);
      bytes := bytes + [byte];
      time := (time - byte) / 256;
    }
    result := Reversed(bytes);
  }

  lemma {:induction false} BytesOf(n: nat, bs: seq<nat>)
    requires n < Power256(|bs|) && forall i :: 0 <= i < |bs| ==> bs[i] == ByteAt(n, |bs| - 1 - i)
    ensures Base64.AreBytes(bs) && FromBytes(bs) == n
  {
    if bs != [] {
      BytesOf(n / 256, bs[..|bs| - 1]);
    }
  }

  /** The eight bytes are bytes, and their big-endian value is the time. */
  lemma TimestampReads(now: nat)
    requires now < TWO_TO_THE_53
    ensures Base64.AreBytes(BigEndian(now)) && FromBytes(BigEndian(now)) == now
  {
    assert Power256(4) == TWO_TO_THE_32;
    assert Power256(8) == 0x1_0000_0000_0000_0000;
    BytesOf(now, BigEndian(now));
  }

  /** Comparing two byte strings from the front. */
  predicate Before(a: seq<nat>, b: seq<nat>)
    requires |a| == |b|
  {
    a != [] && (a[0] < b[0] || (a[0] == b[0] && Before(a[1..], b[1..])))
  }

  lemma {:induction false} FirstByteCounts(bs: seq<nat>)
    requires bs != []
    ensures FromBytes(bs) == bs[0] * Power256(|bs| - 1) + FromBytes(bs[1..])
  {
    var last := |bs| - 1;
    if last == 0 {
      assert bs[..0] == [] && bs[1..] == [];
    } else {
      FirstByteCounts(bs[..last]);
      assert bs[..last][1..] == bs[1..][..last - 1];
      assert Power256(last) == 256 * Power256(last - 1);
      Distributes(bs[0], Power256(last - 1));
    }
  }

  lemma Distributes(a: nat, b: nat)
    ensures 256 * (a * b) == a * (256 * b)
  {
  }

  lemma {:induction false} AtLeastOnce(d: nat, p: nat)
    requires d >= 1
    ensures d * p >= p
  {
    if d > 1 {
      AtLeastOnce(d - 1, p);
      assert d * p == (d - 1) * p + p;
    }
  }

  lemma Larger(a: nat, b: nat, p: nat, x: nat, y: nat)
    requires a < b && x < p
    ensures a * p + x < b * p + y
  {
    var d := b - a;
    AtLeastOnce(d, p);
    assert (a + d) * p == a * p + d * p;
  }

  /** The order of the bytes is the order of the numbers. */
  lemma {:induction false} SameOrder(a: seq<nat>, b: seq<nat>)
    requires |a| == |b| && Base64.AreBytes(a) && Base64.AreBytes(b)
    ensures Before(a, b) <==> FromBytes(a) < FromBytes(b)
  {
    if a != [] {
      var p := Power256(|a| - 1);
      FirstByteCounts(a);
      FirstByteCounts(b);
      BytesBound(a[1..]);
      BytesBound(b[1..]);
      SameOrder(a[1..], b[1..]);
      if a[0] < b[0] { Larger(a[0], b[0], p, FromBytes(a[1..]), FromBytes(b[1..])); }
      if b[0] < a[0] { Larger(b[0], a[0], p, FromBytes(b[1..]), FromBytes(a[1..])); }
    }
  }

  /** Of two times, the earlier one has the earlier bytes. */
  lemma TimestampsOrdered(t: nat, u: nat)
    requires t < TWO_TO_THE_53 && u < TWO_TO_THE_53
    ensures Before(BigEndian(t), BigEndian(u)) <==> t < u
  {
    TimestampReads(t);
    TimestampReads(u);
    SameOrder(BigEndian(t), BigEndian(u));
  }
}
