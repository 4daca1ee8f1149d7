/** Bytes, and numbers written in a fixed count of them. */
module Bytes {

  type Byte = x: int | 0 <= x < 256

  function Power(n: nat): (p: nat)
    ensures p > 0
  {
    if n == 0 then 1 else 256 * Power(n - 1)
  }

  /** The n low bytes of a number, the least first. */
  function Little(value: nat, n: nat): (b: seq<Byte>)
    ensures |b| == n
    decreases n
  {
    if n == 0 then [] else [value % 256] + Little(value / 256, n - 1)
  }

  function FromLittle(b: seq<Byte>): (v: nat)
    ensures v < Power(|b|)
  {
    if b == [] then 0 else b[0] + 256 * FromLittle(b[1..])
  }

  /** The n low bytes of a number, the greatest first. */
  function Big(value: nat, n: nat): (b: seq<Byte>)
    ensures |b| == n
    decreases n
  {
    if n == 0 then [] else Big(value / 256, n - 1) + [value % 256]
  }

  function FromBig(b: seq<Byte>): (v: nat)
    ensures v < Power(|b|)
  {
    if b == [] then 0 else 256 * FromBig(b[..|b| - 1]) + b[|b| - 1]
  }

  lemma {:induction false} LittleReads(value: nat, n: nat)
    requires value < Power(n)
    ensures FromLittle(Little(value, n)) == value
    decreases n
  {
    if n > 0 {
      LittleReads(value / 256, n - 1);
      assert Little(value, n)[1..] == Little(value / 256, n - 1);
    }
  }

  lemma {:induction false} LittleWrites(b: seq<Byte>)
    ensures Little(FromLittle(b), |b|) == b
  {
    hide Power;
    if b != [] {
      LittleWrites(b[1..]);
      var v := FromLittle(b[1..]);
      LowByte(b[0], v);
      assert FromLittle(b) == b[0] + 256 * v;
      assert Little(b[0] + 256 * v, |b|) == [b[0]] + Little(v, |b| - 1);
    }
  }

  lemma LowByte(x: Byte, v: nat)
    ensures (x + 256 * v) % 256 == x && (x + 256 * v) / 256 == v
  {
  }

  lemma {:induction false} BigReads(value: nat, n: nat)
    requires value < Power(n)
    ensures FromBig(Big(value, n)) == value
    decreases n
  {
    if n > 0 {
      BigReads(value / 256, n - 1);
      assert Big(value, n)[..n - 1] == Big(value / 256, n - 1);
    }
  }

  lemma {:induction false} BigWrites(b: seq<Byte>)
    ensures Big(FromBig(b), |b|) == b
  {
    if b != [] { BigWrites(b[..|b| - 1]); }
  }

  lemma Powers()
    ensures Power(4) == 0x1_0000_0000 && Power(8) == 0x1_0000_0000_0000_0000
  {
    assert Power(1) == 256;
    assert Power(2) == 0x1_0000;
    assert Power(3) == 0x100_0000;
    assert Power(4) == 0x1_0000_0000;
    assert Power(5) == 0x100_0000_0000;
    assert Power(6) == 0x1_0000_0000_0000;
    assert Power(7) == 0x100_0000_0000_0000;
  }

  /** Appends the n low bytes of a number, the least first. */
  method WriteLittle(before: seq<Byte>, value: nat, n: nat) returns (out: seq<Byte>)
    ensures out == before + Little(value, n)
  {
    out := before;
    var left := value;
    for i := 0 to n
      invariant out + Little(left, n - i) == before + Little(value, n)
    {
      OneMore(out, left % 256, Little(left / 256, n - i - 1));
      out := out + [left % 256];
      left := left / 256;
    }
  }

  lemma OneMore(a: seq<Byte>, x: Byte, b: seq<Byte>)
    ensures a + ([x] + b) == a + [x] + b
  {
  }

  lemma {:induction false} FromLittleMore(b: seq<Byte>, x: Byte)
    ensures FromLittle(b + [x]) == FromLittle(b) + Power(|b|) * x
  {
    if b == [] {
      assert [x][1..] == [];
    } else {
      hide Power;
      FromLittleMore(b[1..], x);
      assert (b + [x])[1..] == b[1..] + [x];
      PowerStep(|b|, x);
    }
  }

  lemma PowerStep(n: nat, x: nat)
    requires n > 0
    ensures 256 * (Power(n - 1) * x) == Power(n) * x
  {
    Regroups(Power(n - 1), x);
  }

  lemma Regroups(p: nat, x: nat)
    ensures 256 * (p * x) == (256 * p) * x
  {
  }

  /** The number that bytes spell, the least first. */
  method ReadLittle(b: seq<Byte>) returns (value: nat)
    ensures value == FromLittle(b)
  {
    value := 0;
    var weight: nat := 1;
    for i := 0 to |b|
      invariant value == FromLittle(b[..i]) && weight == Power(i)
    {
      assert b[..i + 1] == b[..i] + [b[i]];
      FromLittleMore(b[..i], b[i]);
      value := value + weight * b[i];
      weight := 256 * weight;
    }
    assert b[..|b|] == b;
  }

  /** Writes four bytes over those at a place, one by one. */
  method PatchLittle(b: seq<Byte>, at: nat, value: nat) returns (r: seq<Byte>)
    requires at + 4 <= |b|
    ensures r == b[..at] + Little(value, 4) + b[at + 4..]
  {
    r := b;
    var bytes := WriteLittle([], value, 4);
    for n := 0 to 4
      invariant |r| == |b|
      invariant forall i :: 0 <= i < |r| ==> r[i] == if at <= i < at + n then bytes[i - at] else b[i]
    {
      r := r[at + n := bytes[n]];
    }
    assert r == b[..at] + bytes + b[at + 4..];
  }
}
