/**
 * Unsigned 32-bit arithmetic and the blue box's pairing function.
 *
 * The source computes `cantorPairing` entirely in `uint32_t`, so each `+` and
 * `*` wraps modulo 2^32, and the halving is applied to the already wrapped
 * product. `CantorPairing` writes those steps out; `Cantor` is the
 * mathematical pairing function it is meant to compute.
 */
module Pairing {

  const TwoTo32: int := 0x1_0000_0000

  /** The largest `uint32_t`, `std::numeric_limits<uint32_t>::max()`. */
  const U32Max: int := TwoTo32 - 1

  /** A value of C++ type `uint32_t`. */
  type u32 = x: int | 0 <= x < 0x1_0000_0000

  /** Reduction of an exact result to `uint32_t`, as unsigned C++ arithmetic does. */
  function Wrap(x: int): (r: u32)
    ensures 0 <= x < TwoTo32 ==> r == x
    ensures (r - x) % TwoTo32 == 0
  {
    x % TwoTo32
  }

  /** Cantor's pairing function over the naturals, without any overflow. */
  function Cantor(k1: nat, k2: nat): nat
  {
    (k1 + k2) * (k1 + k2 + 1) / 2 + k2
  }

  /**
   * `cantorPairing(k1, k2)` exactly as the source evaluates it in `uint32_t`.
   * While `k1 + k2` stays below 2^16 no step wraps, and the result is
   * Cantor's pairing function.
   */
  function CantorPairing(k1: u32, k2: u32): (r: u32)
    ensures k1 + k2 < 0x1_0000 ==> r == Cantor(k1, k2) < TwoTo32
  {
    var s := Wrap(k1 + k2);
    var s1 := Wrap(s + 1);
    assert k1 + k2 < 0x1_0000 ==> s * s1 <= 0xFFFF * 0x1_0000 by {
      if k1 + k2 < 0x1_0000 {
        MulBound(s, s1, 0xFFFF, 0x1_0000);
      }
    }
    Wrap(Wrap(s * s1) / 2 + k2)
  }

  lemma MulBound(a: nat, b: nat, c: nat, d: nat)
    requires a <= c && b <= d
    ensures a * b <= c * d
  {
    calc {
      a * b;
    <= { assert a * (d - b) >= 0; }
      a * d;
    <= { assert (c - a) * d >= 0; }
      c * d;
    }
  }

  /** The product of two consecutive naturals is even. */
  lemma {:induction false} ConsecutiveProductIsEven(s: nat)
    ensures (s * (s + 1)) % 2 == 0
  {
    if s > 0 {
      ConsecutiveProductIsEven(s - 1);
      assert s * (s + 1) == (s - 1) * s + 2 * s;
    }
  }

  /**
   * From `k1 + k2 == 2^16` on, the source's function is never Cantor's
   * pairing function. Where Cantor's value still fits in 32 bits the product
   * has wrapped exactly once before it is halved, so the result is short by
   * 2^31; everywhere else Cantor's value does not fit in 32 bits at all.
   */
  lemma PairingDiffersFrom65536(k1: u32, k2: u32)
    requires k1 + k2 >= 0x1_0000
    ensures CantorPairing(k1, k2) != Cantor(k1, k2)
    ensures Cantor(k1, k2) < TwoTo32 ==> CantorPairing(k1, k2) == Cantor(k1, k2) - 0x8000_0000
  {
    var s := k1 + k2;
    var p := s * (s + 1);
    MulBound(0x1_0000, 0x1_0001, s, s + 1);
    MulBound(1, s + 1, s, s + 1);
    ConsecutiveProductIsEven(s);
    if Cantor(k1, k2) < TwoTo32 {
      assert s < TwoTo32 && p < 2 * TwoTo32;
      assert Wrap(s) == s && Wrap(s + 1) == s + 1;
      assert Wrap(p) == p - TwoTo32;
      assert Wrap(p) / 2 == p / 2 - 0x8000_0000;
    }
  }

  /**
   * The source's function agrees with Cantor's pairing function exactly
   * when `k1 + k2` is below 2^16.
   */
  lemma PairingIsCantorExactlyBelow65536(k1: u32, k2: u32)
    ensures CantorPairing(k1, k2) == Cantor(k1, k2) <==> k1 + k2 < 0x1_0000
  {
    if k1 + k2 >= 0x1_0000 {
      PairingDiffersFrom65536(k1, k2);
    }
  }

  /**
   * From `k1 + k2 == 2^16` on, the product wraps before it is halved: at
   * (0, 65536) the source yields 98304, while Cantor's value 2147581952 would
   * still fit in 32 bits.
   */
  lemma PairingWrapsAt65536()
    ensures CantorPairing(0, 0x1_0000) == 98304
    ensures Cantor(0, 0x1_0000) == 2147581952 < TwoTo32
  {
    assert Wrap(0x1_0000 * 0x1_0001) == 0x1_0000;
  }

  /** The value promised by the doc comment: pairing(0, 1) = 2. */
  lemma PairingOfZeroOne()
    ensures CantorPairing(0, 1) == 2
  {
  }
}
