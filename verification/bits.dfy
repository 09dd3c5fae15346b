/** Unsigned 8-bit cells and the bitwise AND that numpy applies to them.
    Quality grids (fmask) hold uint8 values whose individual bits are flags. */
module Bits {

  /** numpy's uint8. */
  newtype byte = x: int | 0 <= x < 256

  /** Bit `k` (bit 0 is the least significant) of the binary expansion of `a`. */
  predicate Bit(a: nat, k: nat)
    decreases k
  {
    if k == 0 then a % 2 == 1 else Bit(a / 2, k - 1)
  }

  /** Bitwise AND of two non-negative integers, one binary digit at a time. */
  function BitAnd(a: nat, b: nat): (r: nat)
    ensures r <= a && r <= b
    decreases a
  {
    if a == 0 || b == 0 then 0
    else 2 * BitAnd(a / 2, b / 2) + (if a % 2 == 1 && b % 2 == 1 then 1 else 0)
  }

  /** `np.bitwise_and` on two uint8 cells; the result is again a uint8. */
  function AndBytes(a: byte, b: byte): (r: byte)
    ensures r <= a && r <= b
  {
    BitAnd(a as nat, b as nat) as byte
  }

  lemma {:induction false} NoBitOfZero(k: nat)
    ensures !Bit(0, k)
  {
    if k > 0 {
      NoBitOfZero(k - 1);
    }
  }

  /** The AND of `a` and `b` is non-zero exactly when some bit is set in both. */
  lemma {:induction false} AndNonZeroIffSharedBit(a: nat, b: nat)
    ensures BitAnd(a, b) != 0 <==> exists k: nat :: Bit(a, k) && Bit(b, k)
    decreases a
  {
    if a == 0 || b == 0 {
      forall k: nat ensures !(Bit(a, k) && Bit(b, k)) {
        NoBitOfZero(k);
      }
    } else {
      AndNonZeroIffSharedBit(a / 2, b / 2);
      if BitAnd(a, b) != 0 {
        if a % 2 == 1 && b % 2 == 1 {
          assert Bit(a, 0) && Bit(b, 0);
          assert exists k: nat :: Bit(a, k) && Bit(b, k);
        } else {
          assert BitAnd(a / 2, b / 2) != 0;
          var k: nat :| Bit(a / 2, k) && Bit(b / 2, k);
          assert Bit(a, k + 1) && Bit(b, k + 1);
          assert exists j: nat :: Bit(a, j) && Bit(b, j);
        }
      } else {
        forall k: nat ensures !(Bit(a, k) && Bit(b, k)) {
          if k > 0 {
            assert !(Bit(a / 2, k - 1) && Bit(b / 2, k - 1));
          }
        }
      }
    }
  }

  /** Flag positions in a Landsat fmask cell. */
  const CirrusBit: nat := 0
  const CloudBit: nat := 1
  const WaterBit: nat := 5

  predicate IsCirrus(f: byte) { Bit(f as nat, CirrusBit) }
  predicate IsCloud(f: byte) { Bit(f as nat, CloudBit) }
  predicate IsWater(f: byte) { Bit(f as nat, WaterBit) }

  /** The fixed selection 0b00100011: water (bit 5), cloud (bit 1), cirrus (bit 0). */
  const MaskSelect: byte := 0x23

  /** The bits set in 0b00100011 are exactly 0, 1 and 5. */
  lemma {:induction false} MaskSelectBits(k: nat)
    ensures Bit(MaskSelect as nat, k) <==> k == CirrusBit || k == CloudBit || k == WaterBit
  {
    // 0x23 = 35, halved repeatedly: 17, 8, 4, 2, 1, 0
    if k >= 6 {
      assert Bit(35, k) == Bit(17, k - 1) == Bit(8, k - 2) == Bit(4, k - 3)
        == Bit(2, k - 4) == Bit(1, k - 5) == Bit(0, k - 6);
      NoBitOfZero(k - 6);
    } else if k >= 2 {
      assert Bit(35, k) == Bit(17, k - 1) == Bit(8, k - 2);
      assert k >= 3 ==> Bit(8, k - 2) == Bit(4, k - 3);
      assert k >= 4 ==> Bit(4, k - 3) == Bit(2, k - 4);
      assert k == 5 ==> Bit(2, k - 4) == Bit(1, k - 5);
    }
  }

  /** ANDing with the fixed selection finds exactly the water, cloud and cirrus flags. */
  lemma MaskSelectFlags(f: byte)
    ensures AndBytes(f, MaskSelect) != 0 <==> IsWater(f) || IsCloud(f) || IsCirrus(f)
  {
    AndNonZeroIffSharedBit(f as nat, MaskSelect as nat);
    if AndBytes(f, MaskSelect) != 0 {
      var k: nat :| Bit(f as nat, k) && Bit(MaskSelect as nat, k);
      MaskSelectBits(k);
    } else {
      MaskSelectBits(CirrusBit);
      MaskSelectBits(CloudBit);
      MaskSelectBits(WaterBit);
    }
  }
}
