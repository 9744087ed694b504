// Bit helpers shared by the memory map and the pixel pipeline (util.go).

module Bits {

  /** A Go `uint16`: addresses, SP, PC and register-pair values. */
  type Word = w: int | 0 <= w < 0x10000

  /** Go's `uint16` conversion of an integer: wrap-around modulo 2^16. */
  function Wrap16(x: int): (w: Word)
    ensures 0 <= x < 0x10000 ==> w == x
    ensures x >= 0x10000 && x < 0x20000 ==> w == x - 0x10000
    ensures x < 0 && x >= -0x10000 ==> w == x + 0x10000
  {
    x % 0x10000
  }

  /** An integer in 0..255 survives the round trip through a byte. */
  lemma ByteRoundTrip(x: int)
    requires 0 <= x < 0x100
    ensures (x as bv8) as int == x
  {
    if x < 0x80 {
      if x < 0x40 {} else {}
    } else {
      if x < 0xC0 {} else {}
    }
  }

  /** A byte read as an integer lies in 0..255 and converts back to itself. */
  lemma IntOfByte(b: bv8)
    ensures 0 <= b as int < 0x100
    ensures (b as int) as bv8 == b
  {
  }

  function Pow2(n: nat): (p: nat)
    ensures p >= 1
  {
    if n == 0 then 1 else 2 * Pow2(n - 1)
  }

  /** Go's `<<` on a `uint16`: bits shifted past bit 15 are lost, so a shift by 16 or more yields 0. */
  function ShiftLeft16(value: Word, amount: nat): (r: Word)
    ensures amount >= 16 ==> r == 0
  {
    if amount >= 16 then 0 else (value * Pow2(amount)) % 0x10000
  }

  /** Shifting by 8 moves the low byte into the high byte and drops the high byte. */
  lemma ShiftLeftByte(value: Word)
    ensures ShiftLeft16(value, 8) == (value % 0x100) * 0x100
  {
    assert Pow2(8) == 0x100 by {
      assert Pow2(4) == 16 by { assert Pow2(2) == 4; }
      assert Pow2(8) == 16 * Pow2(4) by { assert Pow2(6) == 4 * Pow2(4); }
    }
  }

  /** Bit `bit` of an 8-bit value as 0 or 1; Go's `>>` by 8 or more yields 0. */
  function GetBit(value: bv8, bit: nat): (r: int)
    ensures r == 0 || r == 1
    ensures bit < 8 ==> (r == 1 <==> value & (1 << bit) != 0)
    ensures bit >= 8 ==> r == 0
  {
    if bit >= 8 then 0 else ((value >> bit) & 1) as int
  }

  /** Bit `bit` of a 16-bit value as 0 or 1; Go's `>>` by 16 or more yields 0. */
  function GetBitUint16(value: bv16, bit: nat): (r: int)
    ensures r == 0 || r == 1
    ensures bit >= 16 ==> r == 0
  {
    if bit >= 16 then 0 else ((value >> bit) & 1) as int
  }

  predicate HasBits16(value: bv16, mask: bv16) { value & mask != 0 }

  /** Bit n of a 16-bit value, for each n in turn (a symbolic shift amount is too costly for the solver). */
  lemma GetBitUint16Selects(value: bv16)
    ensures GetBitUint16(value, 0) == 1 <==> HasBits16(value, 0x0001)
    ensures GetBitUint16(value, 1) == 1 <==> HasBits16(value, 0x0002)
    ensures GetBitUint16(value, 2) == 1 <==> HasBits16(value, 0x0004)
    ensures GetBitUint16(value, 3) == 1 <==> HasBits16(value, 0x0008)
    ensures GetBitUint16(value, 4) == 1 <==> HasBits16(value, 0x0010)
    ensures GetBitUint16(value, 5) == 1 <==> HasBits16(value, 0x0020)
    ensures GetBitUint16(value, 6) == 1 <==> HasBits16(value, 0x0040)
    ensures GetBitUint16(value, 7) == 1 <==> HasBits16(value, 0x0080)
    ensures GetBitUint16(value, 8) == 1 <==> HasBits16(value, 0x0100)
    ensures GetBitUint16(value, 9) == 1 <==> HasBits16(value, 0x0200)
    ensures GetBitUint16(value, 10) == 1 <==> HasBits16(value, 0x0400)
    ensures GetBitUint16(value, 11) == 1 <==> HasBits16(value, 0x0800)
    ensures GetBitUint16(value, 12) == 1 <==> HasBits16(value, 0x1000)
    ensures GetBitUint16(value, 13) == 1 <==> HasBits16(value, 0x2000)
    ensures GetBitUint16(value, 14) == 1 <==> HasBits16(value, 0x4000)
    ensures GetBitUint16(value, 15) == 1 <==> HasBits16(value, 0x8000)
  {
  }

  /** Two bits (high, low) to a number; every combination other than the first three gives 3. */
  function BitsToNum(highBit: int, lowBit: int): (r: int)
    ensures 0 <= r <= 3
  {
    if lowBit == 0 && highBit == 0 then 0
    else if lowBit == 1 && highBit == 0 then 1
    else if lowBit == 0 && highBit == 1 then 2
    else 3
  }

  lemma BitsToNumBinary(highBit: int, lowBit: int)
    requires highBit == 0 || highBit == 1
    requires lowBit == 0 || lowBit == 1
    ensures BitsToNum(highBit, lowBit) == 2 * highBit + lowBit
  {
  }

  lemma BitsToNumDefault(highBit: int, lowBit: int)
    requires !(highBit == 0 && lowBit == 0)
    requires !(highBit == 0 && lowBit == 1)
    requires !(highBit == 1 && lowBit == 0)
    ensures BitsToNum(highBit, lowBit) == 3
  {
  }

  /** Two adjacent bits of a byte read as a number: the palette decoding of the MMU. */
  lemma BitPairValue(value: bv8, i: nat)
    requires i <= 6
    ensures BitsToNum(GetBit(value, i + 1), GetBit(value, i)) == ((value >> i) & 3) as int
  {
    var hi, lo := GetBit(value, i + 1), GetBit(value, i);
    var pair := (value >> i) & 3;
    assert hi == 1 <==> pair & 2 != 0;
    assert lo == 1 <==> pair & 1 != 0;
    assert pair == 0 || pair == 1 || pair == 2 || pair == 3;
  }
}
