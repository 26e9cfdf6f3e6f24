/** Big-endian byte strings, as math/big and the ABI word layout use them. */
module Bytes {

  type Byte = b: int | 0 <= b < 256

  function Zeros(n: nat): (z: seq<Byte>)
    ensures |z| == n && forall i :: 0 <= i < n ==> z[i] == 0
  {
    seq(n, i => 0)
  }

  type Address = a: seq<Byte> | |a| == 20 witness Zeros(20)

  const TWO64: nat := 0x1_0000_0000_0000_0000
  const TWO128: nat := 0x1_0000_0000_0000_0000_0000_0000_0000_0000
  const TWO192: nat := TWO64 * TWO128
  const TWO256: nat := TWO128 * TWO128

  /** The number a byte string denotes (big.Int.SetBytes). */
  function FromBytes(bs: seq<Byte>): (n: nat)
  {
    if bs == [] then 0 else FromBytes(bs[..|bs| - 1]) * 256 + bs[|bs| - 1]
  }

  /** The shortest byte string denoting n; empty for zero (big.Int.Bytes). */
  function ToBytes(n: nat): (bs: seq<Byte>)
    ensures FromBytes(bs) == n
    ensures bs != [] ==> bs[0] != 0
  {
    if n == 0 then [] else
      var front := ToBytes(n / 256);
      assert (front + [n % 256])[..|front|] == front;
      front + [n % 256]
  }

  function Pow256(k: nat): (p: nat)
    ensures p > 0
  {
    if k == 0 then 1 else 256 * Pow256(k - 1)
  }

  /** A minimal byte string fits in k bytes exactly when the number is below 256^k. */
  lemma {:induction false} ToBytesWidth(n: nat, k: nat)
    ensures |ToBytes(n)| <= k <==> n < Pow256(k)
  {
    if n > 0 && k > 0 {
      ToBytesWidth(n / 256, k - 1);
    }
  }

  lemma {:induction false} LeadingZeros(k: nat, bs: seq<Byte>)
    ensures FromBytes(Zeros(k) + bs) == FromBytes(bs)
  {
    if bs == [] {
      assert Zeros(k) + bs == Zeros(k);
      if k > 0 {
        LeadingZeros(k - 1, []);
        assert Zeros(k)[..k - 1] == Zeros(k - 1) == Zeros(k - 1) + [];
      }
    } else {
      var all := Zeros(k) + bs;
      assert all[..|all| - 1] == Zeros(k) + bs[..|bs| - 1];
      LeadingZeros(k, bs[..|bs| - 1]);
    }
  }

  /** n in exactly k bytes, zeros on the left. */
  function Padded(n: nat, k: nat): (bs: seq<Byte>)
    requires n < Pow256(k)
    ensures |bs| == k && FromBytes(bs) == n
  {
    ToBytesWidth(n, k);
    LeadingZeros(k - |ToBytes(n)|, ToBytes(n));
    Zeros(k - |ToBytes(n)|) + ToBytes(n)
  }

  lemma {:induction false} Pow256Sum(a: nat, b: nat)
    ensures Pow256(a + b) == Pow256(a) * Pow256(b)
  {
    if a > 0 {
      Pow256Sum(a - 1, b);
      assert Pow256(a + b) == 256 * (Pow256(a - 1) * Pow256(b)) == (256 * Pow256(a - 1)) * Pow256(b);
    }
  }

  lemma Widths()
    ensures Pow256(8) == TWO64 && Pow256(16) == TWO128 && Pow256(24) == TWO192 && Pow256(32) == TWO256
    ensures Pow256(7) == 0x100_0000_0000_0000
  {
    Pow256Sum(4, 4);
    Pow256Sum(8, 8);
    Pow256Sum(8, 16);
    Pow256Sum(16, 16);
    assert Pow256(2) == 0x1_0000 && Pow256(4) == 0x1_0000_0000;
    assert Pow256(7) == 256 * Pow256(6);
  }

  lemma {:induction false} FromBytesConcat(a: seq<Byte>, b: seq<Byte>)
    ensures FromBytes(a + b) == FromBytes(a) * Pow256(|b|) + FromBytes(b)
  {
    if b == [] {
      assert a + b == a;
    } else {
      var front := b[..|b| - 1];
      assert (a + b)[..|a + b| - 1] == a + front;
      FromBytesConcat(a, front);
      calc {
        FromBytes(a + b);
        (FromBytes(a) * Pow256(|front|) + FromBytes(front)) * 256 + b[|b| - 1];
        (FromBytes(a) * Pow256(|front|)) * 256 + FromBytes(b);
        FromBytes(a) * (256 * Pow256(|front|)) + FromBytes(b);
      }
    }
  }

  lemma {:induction false} FromBytesBound(bs: seq<Byte>)
    ensures FromBytes(bs) < Pow256(|bs|)
  {
    if bs != [] {
      FromBytesBound(bs[..|bs| - 1]);
    }
  }

  /** Equal-length byte strings denoting the same number are the same string. */
  lemma {:induction false} FromBytesInjective(a: seq<Byte>, b: seq<Byte>)
    requires |a| == |b| && FromBytes(a) == FromBytes(b)
    ensures a == b
  {
    if a != [] {
      FromBytesInjective(a[..|a| - 1], b[..|b| - 1]);
      assert a == a[..|a| - 1] + [a[|a| - 1]];
      assert b == b[..|b| - 1] + [b[|b| - 1]];
    }
  }
}
