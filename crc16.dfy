/**
 * The byte step of the CRC-16 used by the TinyOS serial framer in
 * uart1-putchar.c (generator 0x1021, most significant bit first), and the
 * bit-serial definition it computes.
 */
module Crc16 {
  type byte = bv8

  /**
   * The 16-bit CRC register. The proofs work on this box rather than on bare
   * bv16 values: the register algebra (exclusive or, splitting into bytes)
   * stays separate from the bit-level facts.
   */
  datatype Reg = Reg(bits: bv16)

  function Xor(a: Reg, b: Reg): Reg { Reg(a.bits ^ b.bits) }
  /** The low byte, the high byte moved down, and the register moved up a byte. */
  function Lo(c: Reg): Reg { Reg(c.bits & 0xff) }
  function Hi(c: Reg): Reg { Reg(c.bits >> 8) }
  function Up(c: Reg): Reg { Reg(c.bits << 8) }
  /** The first line of crc_byte: the two bytes of the register change places. */
  function Swap(c: Reg): Reg { Reg(((c.bits >> 8) & 0xff) | (c.bits << 8)) }
  /** The last three lines of crc_byte, which fold the added byte back into the register. */
  function Fold(c: Reg): Reg
  {
    var c2 := c.bits ^ ((c.bits & 0xff) >> 4);
    var c3 := c2 ^ (c2 << 12);
    Reg(c3 ^ ((c3 & 0xff) << 5))
  }
  /** crc_byte: swap the bytes, add the byte (promoted to 16 bits), fold. */
  function CrcByte(crc: bv16, b: byte): bv16
  {
    Fold(Xor(Swap(Reg(crc)), Reg(b as bv16))).bits
  }
  /**
   * One shift of the register, most significant bit first: the bit shifted
   * out selects whether the generator 0x1021 is added.
   */
  function Shift(c: Reg): Reg
  {
    Reg((c.bits << 1) ^ (0x1021 & (0 - (c.bits >> 15))))
  }
  /** The bit-serial reference: n shifts of the register. */
  function Shifts(c: Reg, n: nat): Reg
    decreases n
  {
    if n == 0 then c else Shifts(Shift(c), n - 1)
  }

  /** A shift is linear: it commutes with exclusive or, and so do n of them. */
  lemma ShiftLinear(x: Reg, y: Reg)
    ensures Shift(Xor(x, y)) == Xor(Shift(x), Shift(y))
  {
  }
  lemma ShiftsCongr(a: Reg, b: Reg, n: nat)
    requires a == b
    ensures Shifts(a, n) == Shifts(b, n)
  {
  }
  lemma {:induction false} ShiftsLinear(x: Reg, y: Reg, n: nat)
    ensures Shifts(Xor(x, y), n) == Xor(Shifts(x, n), Shifts(y, n))
    decreases n
  {
    if n > 0 {
      ShiftLinear(x, y);
      ShiftsLinear(Shift(x), Shift(y), n - 1);
      ShiftsCongr(Shift(Xor(x, y)), Xor(Shift(x), Shift(y)), n - 1);
    }
  }
  /** Eight shifts carry a low byte to the top without any feedback. */
  lemma LowShifts(c: Reg)
    ensures Shifts(Lo(c), 8) == Up(Lo(c))
  {
    var l := Lo(c);
    assert Shifts(l, 8) == Shift(Shift(Shift(Shift(Shift(Shift(Shift(Shift(l))))))));
  }
  /** Eight shifts of a byte at the top are what Fold does to that byte at the bottom. */
  lemma TopShifts(x: Reg)
    requires x.bits & 0xff00 == 0
    ensures Shifts(Up(x), 8) == Fold(x)
  {
    var y := Up(x);
    assert Shifts(y, 8) == Shift(Shift(Shift(Shift(Shift(Shift(Shift(Shift(y))))))));
  }
  /** Fold is linear and leaves a register with a clear low byte alone. */
  lemma FoldLinear(x: Reg, y: Reg)
    ensures Fold(Xor(x, y)) == Xor(Fold(x), Fold(y))
  {
  }
  lemma FoldUp(x: Reg)
    ensures Fold(Up(x)) == Up(x)
  {
  }
  lemma FoldCongr(a: Reg, b: Reg)
    requires a == b
    ensures Fold(a) == Fold(b)
  {
  }
  /** After the swap and the addition, the register is the low byte moved up plus the high byte plus the added byte. */
  lemma SwapParts(c: Reg, b: Reg)
    ensures Xor(Swap(c), b) == Xor(Up(Lo(c)), Xor(Hi(c), b))
  {
  }
  /** The same split for the input of the reference. */
  lemma InputParts(c: Reg, b: Reg)
    requires b.bits & 0xff00 == 0
    ensures Xor(c, Up(b)) == Xor(Lo(c), Up(Xor(Hi(c), b)))
    ensures Xor(Hi(c), b).bits & 0xff00 == 0
  {
  }
  /** crc_byte splits into the old low byte moved up and the fold of what entered at the bottom. */
  lemma CrcByteParts(c: Reg, b: Reg)
    ensures Fold(Xor(Swap(c), b)) == Xor(Up(Lo(c)), Fold(Xor(Hi(c), b)))
  {
    SwapParts(c, b);
    FoldCongr(Xor(Swap(c), b), Xor(Up(Lo(c)), Xor(Hi(c), b)));
    FoldLinear(Up(Lo(c)), Xor(Hi(c), b));
    FoldUp(Lo(c));
  }
  /** The reference splits the same way, by linearity. */
  lemma ShiftParts(c: Reg, b: Reg)
    requires b.bits & 0xff00 == 0
    ensures Shifts(Xor(c, Up(b)), 8) == Xor(Up(Lo(c)), Fold(Xor(Hi(c), b)))
  {
    InputParts(c, b);
    ShiftsCongr(Xor(c, Up(b)), Xor(Lo(c), Up(Xor(Hi(c), b))), 8);
    ShiftsLinear(Lo(c), Up(Xor(Hi(c), b)), 8);
    LowShifts(c);
    TopShifts(Xor(Hi(c), b));
  }
  lemma Widen(b: byte)
    ensures Reg(b as bv16).bits & 0xff00 == 0
  {
  }
  /**
   * crc_byte is eight bit-serial steps of the CRC-16 with generator 0x1021,
   * the byte entering at the top of the register.
   */
  lemma CrcByteIsBitwise(crc: bv16, b: byte)
    ensures CrcByte(crc, b) == Shifts(Xor(Reg(crc), Up(Reg(b as bv16))), 8).bits
  {
    Widen(b);
    CrcByteParts(Reg(crc), Reg(b as bv16));
    ShiftParts(Reg(crc), Reg(b as bv16));
  }
  /** A worked value: the CRC of the single byte 0x01 from 0 is the generator itself. */
  lemma CrcOfOne()
    ensures CrcByte(0, 0x01) == 0x1021
    ensures Shifts(Reg(0x0100), 8) == Reg(0x1021)
  {
    CrcByteIsBitwise(0, 0x01);
  }
}
