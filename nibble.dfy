/** The simulated processor's 4-bit word (src/nibble.rs).  A `Nibble` wraps a
    raw byte; its low four bits are the value.  Arithmetic stores its result
    untruncated, so bit 3 and bit 4 of the raw byte read as the negative and
    carry flags of the last operation until the next truncating read.

    The raw byte is an integer in the range of Rust's `u8`, and the source's
    bit masks are written as the arithmetic they amount to; the lemmas
    `LowMask`, `CarryMask`, `NegativeMask` and `ComplementMask` prove each
    of them equal, on every byte, to the mask the source applies. */
module Nibbles {

  /** The integer range of Rust's `u8`. */
  newtype u8 = x: int | 0 <= x < 256

  datatype Nibble = Nibble(raw: u8) {

    /** `get_value`: the low four bits (`raw & 0b1111`). */
    function GetValue(): (v: u8)
      ensures v < 16
      ensures (raw as int - v as int) % 16 == 0
    {
      raw % 16
    }

    /** `has_carry`: bit 4 of the raw byte (`raw & 0b10000 != 0`). */
    predicate HasCarry()
      ensures HasCarry() <==> raw % 32 >= 16
    {
      (raw / 16) % 2 == 1
    }

    /** `has_negative`: bit 3 of the raw byte (`raw & 0b1000 != 0`), which
        lies inside the value. */
    predicate HasNegative()
      ensures HasNegative() <==> GetValue() >= 8
    {
      (raw / 8) % 2 == 1
    }

    /** `is_zero`: the value (not the raw byte) is zero. */
    predicate IsZero()
      ensures IsZero() <==> GetValue() == 0
    {
      raw % 16 == 0
    }

    /** `as_unsigned`. */
    function AsUnsigned(): (u: int)
      ensures 0 <= u < 16 && u == raw as int % 16
    {
      GetValue() as int
    }

    /** `arithmetic_complement`: `(!value & 0b1111) + 1`, the 4-bit two's
        complement of the value, which is 16 (not 0) for the value 0. */
    function ArithmeticComplement(): (c: u8)
      ensures 1 <= c <= 16
      ensures (GetValue() + c) % 16 == 0
    {
      (15 - GetValue()) + 1
    }

    /** `as_signed`: the value read as a 4-bit two's-complement number. */
    function AsSigned(): (s: int)
      ensures -8 <= s <= 7
      ensures (s - GetValue() as int) % 16 == 0
      ensures s < 0 <==> HasNegative()
    {
      if HasNegative() then -(ArithmeticComplement() as int) else GetValue() as int
    }
  }

  /** `raw & 0b1111` is `get_value` on the byte. */
  lemma LowMask(r: bv8)
    ensures (r & 0x0F) as int == Nibble(r as int as u8).GetValue() as int
  {
  }

  /** `raw & 0b10000 != 0` is `has_carry` on the byte. */
  lemma CarryMask(r: bv8)
    ensures (r & 0x10 != 0) <==> Nibble(r as int as u8).HasCarry()
  {
  }

  /** `raw & 0b1000 != 0` is `has_negative` on the byte. */
  lemma NegativeMask(r: bv8)
    ensures (r & 0x08 != 0) <==> Nibble(r as int as u8).HasNegative()
  {
  }

  /** `(!value & 0b1111) + 1` is `arithmetic_complement` on a value. */
  lemma ComplementMask(v: bv8)
    requires v < 16
    ensures (((!v) & 0x0F) + 1) as int == Nibble(v as int as u8).ArithmeticComplement() as int
  {
  }

  /** The cast `value as u8`: the low eight bits of the integer. */
  function LowByte(x: int): (b: u8)
    ensures (x - b as int) % 256 == 0
  {
    (x % 256) as u8
  }

  /** `From<usize>`: `value as u8` keeps the low eight bits, so a large
      operand can leave the flag bits set. */
  function FromUsize(x: nat): (n: Nibble)
    ensures n.raw as int == x % 256
    ensures n.GetValue() as int == x % 16
  {
    LowNibbleOfLowByte(x);
    Nibble(LowByte(x))
  }

  /** `From<u8>`: the byte is kept as it is. */
  function FromU8(b: u8): (n: Nibble)
    ensures n.raw == b
  {
    Nibble(b)
  }

  /** `From<i32>`: `value as u8` is the two's-complement low byte. */
  function FromI32(x: int): (n: Nibble)
    requires -0x8000_0000 <= x < 0x8000_0000
    ensures n.raw as int == x % 256
    ensures n.GetValue() as int == x % 16
  {
    LowNibbleOfLowByte(x);
    Nibble(LowByte(x))
  }

  /** Keeping the low eight bits keeps the low four. */
  lemma LowNibbleOfLowByte(x: int)
    ensures (x % 256) % 16 == x % 16
  {
    var q, low := x / 256, x % 256;
    var k := 16 * q + low / 16;
    assert x == 16 * k + low % 16;
  }

  /** `impl Add`: both operands are truncated to four bits and their sum
      (at most 30) is stored untruncated. */
  function Add(a: Nibble, b: Nibble): (r: Nibble)
    ensures r.raw as int == a.GetValue() as int + b.GetValue() as int
    ensures r.GetValue() as int == (a.GetValue() as int + b.GetValue() as int) % 16
    ensures r.HasCarry() <==> a.GetValue() as int + b.GetValue() as int >= 16
  {
    Nibble(a.GetValue() + b.GetValue())
  }

  /** `impl Sub`: adds the complement of the right operand, so the carry
      flag afterwards means "no borrow". */
  function Sub(a: Nibble, b: Nibble): (r: Nibble)
    ensures r.raw as int == a.GetValue() as int + 16 - b.GetValue() as int
    ensures r.GetValue() as int == (a.GetValue() as int - b.GetValue() as int) % 16
    ensures r.HasCarry() <==> a.GetValue() >= b.GetValue()
  {
    Nibble(a.GetValue() + b.ArithmeticComplement())
  }

  /** `PartialEq for Nibble`: only the values are compared. */
  predicate Eq(a: Nibble, b: Nibble)
    ensures Eq(a, b) <==> a.raw as int % 16 == b.raw as int % 16
  {
    a.GetValue() == b.GetValue()
  }

  /** `PartialEq<i32> for Nibble`. */
  predicate EqI32(a: Nibble, i: int)
    ensures EqI32(a, i) <==> 0 <= i < 16 && a.raw as int % 16 == i
  {
    a.GetValue() as int == i
  }

  /** Equality is an equivalence that ignores the flag bits. */
  lemma EqIsEquivalence(a: Nibble, b: Nibble, c: Nibble)
    ensures Eq(a, a)
    ensures Eq(a, b) ==> Eq(b, a)
    ensures Eq(a, b) && Eq(b, c) ==> Eq(a, c)
    ensures Eq(a, Nibble(a.GetValue()))
  {
  }

  /** Arithmetic sees only the values: operands equal under `Eq` give the
      very same raw result, flags included. */
  lemma ArithmeticRespectsEq(a: Nibble, a': Nibble, b: Nibble, b': Nibble)
    requires Eq(a, a') && Eq(b, b')
    ensures Add(a, b) == Add(a', b')
    ensures Sub(a, b) == Sub(a', b')
  {
  }

  /** Adding and subtracting modulo 16 undo each other. */
  lemma ModularInverse(x: int, y: int)
    requires 0 <= x < 16 && 0 <= y < 16
    ensures ((x + y) % 16 - y) % 16 == x
    ensures ((x - y) % 16 + y) % 16 == x
  {
    if x + y >= 16 {
      assert (x + y) % 16 == x + y - 16;
    }
    if x < y {
      assert (x - y) % 16 == x - y + 16;
    }
  }

  /** Subtraction undoes addition, and addition undoes subtraction, on
      values. */
  lemma SubInvertsAdd(a: Nibble, b: Nibble)
    ensures Eq(Sub(Add(a, b), b), a)
    ensures Eq(Add(Sub(a, b), b), a)
  {
    ModularInverse(a.GetValue() as int, b.GetValue() as int);
  }

  /** `test_nibble_addition`: 5 + 2. */
  lemma AddFiveTwo()
    ensures var r := Add(FromI32(5), FromI32(2));
      r.AsSigned() == 7 && r.AsUnsigned() == 7 && !r.HasCarry() && !r.HasNegative() && !r.IsZero()
  {
    var r := Add(FromI32(5), FromI32(2));
    assert r == Nibble(7);
  }

  /** `test_nibble_addition_with_overflow`: 7 + 1 sets the negative flag. */
  lemma AddSevenOne()
    ensures var r := Add(FromI32(7), FromI32(1));
      r.AsUnsigned() == 8 && r.AsSigned() == -8 && !r.HasCarry() && r.HasNegative() && !r.IsZero()
  {
    var r := Add(FromI32(7), FromI32(1));
    assert r == Nibble(8);
  }

  /** `test_nibble_subtraction`: 5 - 2 sets the carry flag, as there is no
      borrow. */
  lemma SubFiveTwo()
    ensures var r := Sub(FromI32(5), FromI32(2));
      r.AsUnsigned() == 3 && r.AsSigned() == 3 && r.HasCarry() && !r.HasNegative() && !r.IsZero()
  {
    var r := Sub(FromI32(5), FromI32(2));
    assert r == Nibble(19);
  }

  /** `test_nibble_subtraction_with_overflow`: 2 - 4 borrows and reads as
      -2. */
  lemma SubTwoFour()
    ensures var r := Sub(FromI32(2), FromI32(4));
      r.AsUnsigned() == 14 && r.AsSigned() == -2 && !r.HasCarry() && r.HasNegative() && !r.IsZero()
  {
    var r := Sub(FromI32(2), FromI32(4));
    assert r == Nibble(14);
  }
}
