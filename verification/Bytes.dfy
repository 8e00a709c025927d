/** Unsigned integers as big-endian byte sequences. */
module Bytes {
  type byte = b: int | 0 <= b < 256 witness 0

  function Pow256(w: nat): (r: nat)
    ensures r > 0
  {
    if w == 0 then 1 else 256 * Pow256(w - 1)
  }

  /** The w-byte big-endian form of n, and the number a byte sequence stands for. */
  function BigEndian(n: nat, w: nat): (r: seq<byte>)
    ensures |r| == w
  {
    if w == 0 then [] else BigEndian(n / 256, w - 1) + [n % 256]
  }

  function Number(bs: seq<byte>): (r: nat)
    ensures r < Pow256(|bs|)
  {
    if bs == [] then 0 else 256 * Number(bs[..|bs| - 1]) + bs[|bs| - 1]
  }

  lemma {:induction false} NumberOfBigEndian(n: nat, w: nat)
    requires n < Pow256(w)
    ensures Number(BigEndian(n, w)) == n
  {
    if w > 0 {
      NumberOfBigEndian(n / 256, w - 1);
      assert BigEndian(n, w)[..w - 1] == BigEndian(n / 256, w - 1);
    }
  }

  lemma {:induction false} BigEndianOfNumber(bs: seq<byte>)
    ensures BigEndian(Number(bs), |bs|) == bs
  {
    if bs != [] {
      var n := |bs| - 1;
      BigEndianOfNumber(bs[..n]);
      assert Number(bs) / 256 == Number(bs[..n]) && Number(bs) % 256 == bs[n];
      assert bs == bs[..n] + [bs[n]];
    }
  }

  /** Byte i is what shifting by the bytes after it and masking leaves. */
  function Digit(n: nat, w: nat, i: nat): byte
    requires i < w
  {
    (n / Pow256(w - i - 1)) % 256
  }

  lemma DivDiv(n: nat, k: nat)
    ensures n / 256 / Pow256(k) == n / Pow256(k + 1)
  {
    var p := Pow256(k);
    var q, r := n / (256 * p), n % (256 * p);
    assert n == (256 * p) * q + r;
    assert n / 256 == p * q + r / 256 by {
      assert n == 256 * (p * q) + r;
    }
    assert r / 256 < p;
    assert (p * q + r / 256) / p == q by {
      Quotient(p, q, r / 256);
    }
  }

  lemma Quotient(p: nat, q: nat, r: nat)
    requires r < p
    ensures (p * q + r) / p == q
  {
    var d := (p * q + r) / p;
    assert p * d <= p * q + r < p * d + p;
    assert d < q ==> p * (d + 1) <= p * q;
    assert d > q ==> p * (q + 1) <= p * d;
  }

  lemma {:induction false} BigEndianAt(n: nat, w: nat, i: nat)
    requires i < w
    ensures BigEndian(n, w)[i] == Digit(n, w, i)
  {
    if i < w - 1 {
      BigEndianAt(n / 256, w - 1, i);
      DivDiv(n, w - i - 2);
    }
  }

  method FromUint(number: nat, width: nat) returns (ans: array<byte>)
    ensures fresh(ans) && ans[..] == BigEndian(number, width)
  {
    ans := new byte[width];
    for i := 0 to width
      invariant forall j :: 0 <= j < i ==> ans[j] == Digit(number, width, j)
    {
      ans[i] := (number / Pow256(width - i - 1)) % 256;
    }
    forall j | 0 <= j < width
      ensures ans[j] == BigEndian(number, width)[j]
    {
      BigEndianAt(number, width, j);
    }
  }

  /** What is left of a number once its first i bytes have been taken off. */
  lemma NumberSplit(bs: seq<byte>, i: nat)
    requires i < |bs|
    ensures Number(bs[..i]) * Pow256(|bs| - i) + bs[i] * Pow256(|bs| - i - 1)
         == Number(bs[..i + 1]) * Pow256(|bs| - i - 1)
  {
    var p, a := Pow256(|bs| - i - 1), Number(bs[..i]);
    assert bs[..i + 1][..i] == bs[..i];
    assert Number(bs[..i + 1]) == 256 * a + bs[i];
    assert (256 * a + bs[i]) * p == a * (256 * p) + bs[i] * p;
  }

  method ToUint(bytes: seq<byte>) returns (ans: nat)
    ensures ans == Number(bytes)
  {
    ans := 0;
    for i := 0 to |bytes|
      invariant ans == Number(bytes[..i]) * Pow256(|bytes| - i)
    {
      NumberSplit(bytes, i);
      ans := ans + bytes[i] * Pow256(|bytes| - i - 1);
    }
    assert bytes[..|bytes|] == bytes;
  }
}
