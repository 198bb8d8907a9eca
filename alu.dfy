/*
 * Value semantics of the 6502/65C02 instruction handlers in
 * src/cpu/instructions.cpp: the byte arithmetic, the flags each handler
 * derives, the status-byte packing used by PHP/PLP/RTI and by interrupt
 * entry, the 65C02 bit operations and the relative-branch target.
 *
 * Each function is written the way the handler computes its result; its
 * contract states what that result means over unbounded integers, and the
 * lemmas relate the operations to each other. C++ promotes a Byte operand
 * to int before `+`, `-`, `<<` and `>>`, and the assignment back to a Byte
 * keeps the low eight bits; that promotion and narrowing is written here as
 * integer arithmetic followed by `ToByte`.
 */
module Alu {
  import opened Bits

  function CarryIn(c: bool): int
  {
    if c then 1 else 0
  }

  // ---------------------------------------------------------------
  // ADC, SBC, CMP/CPX/CPY
  // ---------------------------------------------------------------

  /** The new accumulator and the C and V flags of an addition or subtraction. */
  datatype ArithResult = ArithResult(value: bv8, carry: bool, overflow: bool)

  /**
   * ADC: the 16-bit sum `A + M + C`, carry out of bit 7, and the overflow
   * rule `(A ^ sum) & (M ^ sum) & 0x80`. The D flag is not consulted: the
   * handler is binary only.
   */
  function Adc(a: bv8, m: bv8, c: bool): (r: ArithResult)
    ensures r.value as int == (a as int + m as int + CarryIn(c)) % 256
    ensures r.carry <==> a as int + m as int + CarryIn(c) > 0xFF
  {
    var sum := a as int + m as int + CarryIn(c);
    var result := ToByte(sum);
    ArithResult(result, sum > 0xFF, AddOverflowFlag(a, m, result))
  }

  /**
   * SBC: the difference `A - M - (1 - C)` wrapped to a 16-bit Word; carry
   * means no borrow (the Word is at most 0xFF) and overflow is
   * `(A ^ M) & (A ^ diff) & 0x80`.
   */
  function Sbc(a: bv8, m: bv8, c: bool): (r: ArithResult)
    ensures r.value as int == (a as int - m as int - (1 - CarryIn(c))) % 256
    ensures r.carry <==> a as int - m as int - (1 - CarryIn(c)) >= 0
  {
    ByteRange(a);
    ByteRange(m);
    var diff := WrapDifference(a as int, m as int, CarryIn(c));
    var result := ToByte(diff);
    ArithResult(result, diff <= 0xFF, SubOverflowFlag(a, m, result))
  }

  /**
   * The ADC overflow rule `(A ^ sum) & (M ^ sum) & 0x80`: both operands have
   * the same sign and the sum has the other one.
   */
  function AddOverflowFlag(a: bv8, m: bv8, s: bv8): (v: bool)
    ensures v <==> Negative(a) == Negative(m) && Negative(s) != Negative(a)
  {
    (a ^ s) & (m ^ s) & 0x80 != 0
  }

  /**
   * The SBC overflow rule `(A ^ M) & (A ^ diff) & 0x80`: the operands have
   * different signs and the difference does not have A's sign.
   */
  function SubOverflowFlag(a: bv8, m: bv8, s: bv8): (v: bool)
    ensures v <==> Negative(a) != Negative(m) && Negative(s) != Negative(a)
  {
    (a ^ m) & (a ^ s) & 0x80 != 0
  }

  /** `A - M - borrow` as the handler's 16-bit Word holds it. */
  function WrapDifference(a: int, m: int, c: int): (diff: int)
    requires 0 <= a < 256 && 0 <= m < 256 && 0 <= c <= 1
    ensures diff % 256 == (a - m - (1 - c)) % 256
    ensures diff <= 0xFF <==> a - m - (1 - c) >= 0
  {
    var exact := a - m - (1 - c);
    WordThenByte(exact);
    exact % WORD_MOD
  }

  /** The C, Z and N flags of CMP, CPX and CPY. */
  datatype CompareResult = CompareResult(carry: bool, zero: bool, negative: bool)

  /**
   * CMP/CPX/CPY: carry is `reg >= M`, and Z/N come from the low byte of the
   * Word `reg - M`; the register itself is not written.
   */
  function Compare(reg: bv8, m: bv8): (r: CompareResult)
    ensures r.carry <==> reg as int >= m as int
    ensures r.zero <==> reg as int == m as int
    ensures r.negative <==> (reg as int - m as int) % 256 >= 128
  {
    ByteRange(reg);
    ByteRange(m);
    var d := reg as int - m as int;
    LowOfWordDifference(d);
    var low := (d % WORD_MOD) % 256;
    CompareResult(d >= 0, low == 0, low >= 128)
  }

  // ---------------------------------------------------------------
  // BIT, TSB, TRB
  // ---------------------------------------------------------------

  /** The Z, N and V flags of BIT. */
  datatype BitResult = BitResult(zero: bool, negative: bool, overflow: bool)

  /**
   * BIT: Z says that A and M share no set bit; N and V are copied from bits
   * 7 and 6 of M. TSB and TRB take their Z flag from the same test.
   */
  function BitTest(a: bv8, m: bv8): (r: BitResult)
    ensures r.zero <==> forall k :: 0 <= k < 8 ==> !(BitOf(a, k) && BitOf(m, k))
    ensures r.negative == BitOf(m, 7)
    ensures r.overflow == BitOf(m, 6)
  {
    SharedBits(a, m);
    BitResult(a & m == 0, m & 0x80 != 0, m & 0x40 != 0)
  }

  /** TSB: the memory byte with every bit of A set (`M | A`). */
  function Tsb(a: bv8, m: bv8): (r: bv8)
    ensures forall k :: 0 <= k < 8 ==> (BitOf(r, k) <==> BitOf(m, k) || BitOf(a, k))
  {
    forall k | 0 <= k < 8
      ensures BitOf(m | a, k) <==> BitOf(m, k) || BitOf(a, k)
    {
      OrBit(a, m, k);
    }
    m | a
  }

  /** TRB: the memory byte with every bit of A cleared (`M & ~A`). */
  function Trb(a: bv8, m: bv8): (r: bv8)
    ensures forall k :: 0 <= k < 8 ==> (BitOf(r, k) <==> BitOf(m, k) && !BitOf(a, k))
  {
    forall k | 0 <= k < 8
      ensures BitOf(m & !a, k) <==> BitOf(m, k) && !BitOf(a, k)
    {
      AndNotBit(a, m, k);
    }
    m & !a
  }

  // ---------------------------------------------------------------
  // RMB, SMB, BBR, BBS
  // ---------------------------------------------------------------

  /** RMBn: clear bit `n` of the zero-page byte. */
  function ResetBit(m: bv8, n: nat): (r: bv8)
    requires n < 8
    ensures !BitOf(r, n)
    ensures forall k :: 0 <= k < 8 && k != n ==> (BitOf(r, k) <==> BitOf(m, k))
  {
    forall k | 0 <= k < 8 && k != n
      ensures BitOf(m & !Mask(n), k) <==> BitOf(m, k)
    {
      OtherBitKept(m, n, k);
    }
    MaskedBits(m, n);
    m & !Mask(n)
  }

  /** SMBn: set bit `n` of the zero-page byte. */
  function SetBit(m: bv8, n: nat): (r: bv8)
    requires n < 8
    ensures BitOf(r, n)
    ensures forall k :: 0 <= k < 8 && k != n ==> (BitOf(r, k) <==> BitOf(m, k))
  {
    forall k | 0 <= k < 8 && k != n
      ensures BitOf(m | Mask(n), k) <==> BitOf(m, k)
    {
      OtherBitKept(m, n, k);
    }
    MaskedBits(m, n);
    m | Mask(n)
  }

  /** BBRn/BBSn: branch when bit `n` is clear (BBR) or set (BBS). */
  function BitBranchTaken(value: bv8, n: nat, branchOnSet: bool): (taken: bool)
    requires n < 8
    ensures taken <==> (BitOf(value, n) <==> branchOnSet)
  {
    var isSet := value & Mask(n) != 0;
    if branchOnSet then isSet else !isSet
  }

  // ---------------------------------------------------------------
  // ASL, LSR, ROL, ROR, INC, DEC
  // ---------------------------------------------------------------

  /** The shifted byte and the bit shifted out into C. */
  datatype ShiftResult = ShiftResult(value: bv8, carry: bool)

  /** ASL: bit 7 goes to C, the byte doubles modulo 256. */
  function Asl(v: bv8): (r: ShiftResult)
    ensures r.carry <==> v as int >= 128
    ensures r.value as int == (2 * v as int) % 256
  {
    SignBit(v);
    ShiftResult(ToByte(2 * v as int), v & 0x80 != 0)
  }

  /** LSR: bit 0 goes to C, the byte halves. */
  function Lsr(v: bv8): (r: ShiftResult)
    ensures r.carry <==> v as int % 2 == 1
    ensures r.value as int == v as int / 2
  {
    ByteRange(v);
    FitsByte(v as int / 2);
    LowBitValue(v);
    ShiftResult(ToByte(v as int / 2), v & 0x01 != 0)
  }

  /** ROL: bit 7 goes to C and the old C comes in as bit 0 (`(v << 1) | C`, an addition since bit 0 of `v << 1` is clear). */
  function Rol(v: bv8, c: bool): (r: ShiftResult)
    ensures r.carry <==> v as int >= 128
    ensures r.value as int == (2 * v as int + CarryIn(c)) % 256
  {
    SignBit(v);
    ShiftResult(ToByte(2 * v as int + CarryIn(c)), v & 0x80 != 0)
  }

  /** ROR: bit 0 goes to C and the old C comes in as bit 7 (`(v >> 1) | 0x80`, an addition since bit 7 of `v >> 1` is clear). */
  function Ror(v: bv8, c: bool): (r: ShiftResult)
    ensures r.carry <==> v as int % 2 == 1
    ensures r.value as int == v as int / 2 + 128 * CarryIn(c)
  {
    ByteRange(v);
    FitsByte(v as int / 2 + 128 * CarryIn(c));
    LowBitValue(v);
    ShiftResult(ToByte(v as int / 2 + 128 * CarryIn(c)), v & 0x01 != 0)
  }

  /** INC, INX, INY and INC A: add one modulo 256. */
  function Increment(v: bv8): (r: bv8)
    ensures r as int == (v as int + 1) % 256
  {
    ToByte(v as int + 1)
  }

  /** DEC, DEX, DEY and DEC A: subtract one modulo 256. */
  function Decrement(v: bv8): (r: bv8)
    ensures r as int == (v as int - 1) % 256
  {
    ToByte(v as int - 1)
  }

  // ---------------------------------------------------------------
  // Processor status byte
  // ---------------------------------------------------------------

  /** The six flags that PLP and RTI restore from the stack. */
  datatype Status = Status(n: bool, v: bool, d: bool, i: bool, z: bool, c: bool)

  function FlagBit(f: bool): bv8
  {
    if f then 1 else 0
  }

  /**
   * The packed status byte `N V 1 B D I Z C`. PHP passes `b = true`, so
   * bits 4 and 5 are both forced to 1; interrupt entry passes the CPU's B
   * flag. Bit 5 is always set.
   */
  function PackStatus(s: Status, b: bool): (p: bv8)
    ensures BitOf(p, 7) == s.n && BitOf(p, 6) == s.v && BitOf(p, 5)
    ensures BitOf(p, 4) == b && BitOf(p, 3) == s.d && BitOf(p, 2) == s.i
    ensures BitOf(p, 1) == s.z && BitOf(p, 0) == s.c
  {
    (FlagBit(s.n) << 7) | (FlagBit(s.v) << 6) | (1 << 5) | (FlagBit(b) << 4)
      | (FlagBit(s.d) << 3) | (FlagBit(s.i) << 2) | (FlagBit(s.z) << 1) | FlagBit(s.c)
  }

  /** PLP and RTI: N, V, D, I, Z, C from bits 7, 6, 3, 2, 1, 0; bits 4 and 5 are dropped. */
  function UnpackStatus(p: bv8): (s: Status)
    ensures s.n == BitOf(p, 7) && s.v == BitOf(p, 6) && s.d == BitOf(p, 3)
    ensures s.i == BitOf(p, 2) && s.z == BitOf(p, 1) && s.c == BitOf(p, 0)
  {
    Status((p >> 7) & 1 == 1, (p >> 6) & 1 == 1, (p >> 3) & 1 == 1,
           (p >> 2) & 1 == 1, (p >> 1) & 1 == 1, p & 1 == 1)
  }

  // ---------------------------------------------------------------
  // Relative branches
  // ---------------------------------------------------------------

  /**
   * The taken-branch target: the PC after the offset byte plus the offset
   * read as a signed byte, wrapped to 16 bits (`cpu.PC += offset`).
   */
  function BranchTarget(pc: Word, offset: bv8): (t: Word)
    ensures (t - pc) % WORD_MOD == Signed(offset) % WORD_MOD
    ensures offset as int < 128 ==> t == (pc + offset as int) % WORD_MOD
    ensures offset as int >= 128 ==> t == (pc + offset as int - 256) % WORD_MOD
  {
    ByteRange(offset);
    WrapOffset(pc, offset as int);
    (pc + Signed(offset)) % WORD_MOD
  }

  // ---------------------------------------------------------------
  // Properties relating the operations
  // ---------------------------------------------------------------

  /** ADC sets V exactly when the signed sum `A + M + C` leaves the range -128..127. */
  lemma AdcOverflow(a: bv8, m: bv8, c: bool)
    ensures Adc(a, m, c).overflow <==> !(-128 <= Signed(a) + Signed(m) + CarryIn(c) < 128)
  {
    var r := Adc(a, m, c);
    AddOverflowMeaning(a, m, CarryIn(c), r.value);
  }

  /** SBC sets V exactly when the signed difference `A - M - (1 - C)` leaves -128..127. */
  lemma SbcOverflow(a: bv8, m: bv8, c: bool)
    ensures Sbc(a, m, c).overflow <==> !(-128 <= Signed(a) - Signed(m) - (1 - CarryIn(c)) < 128)
  {
    var r := Sbc(a, m, c);
    SubOverflowMeaning(a, m, CarryIn(c), r.value);
  }

  /** SBC is ADC of the complemented operand: `A - M - (1 - C) = A + ~M + C`. */
  lemma SbcIsAdcOfComplement(a: bv8, m: bv8, c: bool)
    ensures Sbc(a, m, c) == Adc(a, !m, c)
  {
    SameValueAndCarry(a, m, c);
    SameOverflow(a, m, c);
  }

  /** CMP sets C, Z and N exactly as SBC with the carry set would, without storing. */
  lemma CompareIsSubtraction(reg: bv8, m: bv8)
    ensures Compare(reg, m).carry == Sbc(reg, m, true).carry
    ensures Compare(reg, m).zero == (Sbc(reg, m, true).value == 0)
    ensures Compare(reg, m).negative == Negative(Sbc(reg, m, true).value)
  {
    CompareCarryIsSubtraction(reg, m);
    CompareZeroIsSubtraction(reg, m);
    CompareNegativeIsSubtraction(reg, m);
  }

  lemma CompareCarryIsSubtraction(reg: bv8, m: bv8)
    ensures Compare(reg, m).carry == Sbc(reg, m, true).carry
  {
  }

  lemma CompareZeroIsSubtraction(reg: bv8, m: bv8)
    ensures Compare(reg, m).zero == (Sbc(reg, m, true).value == 0)
  {
    ByteRange(reg);
    ByteRange(m);
    ZeroAgrees(reg as int, m as int, Compare(reg, m).zero, Sbc(reg, m, true).value);
  }

  lemma CompareNegativeIsSubtraction(reg: bv8, m: bv8)
    ensures Compare(reg, m).negative == Negative(Sbc(reg, m, true).value)
  {
    ByteRange(reg);
    ByteRange(m);
    NegativeAgrees(reg as int, m as int, Compare(reg, m).negative, Sbc(reg, m, true).value);
  }

  lemma ZeroAgrees(x: int, y: int, zero: bool, low: bv8)
    requires 0 <= x < 256 && 0 <= y < 256
    requires zero <==> x == y
    requires low as int == (x - y - (1 - CarryIn(true))) % 256
    ensures zero == (low == 0)
  {
    ZeroByte(low);
    NoBorrowZero(x, y, low as int);
  }

  lemma NegativeAgrees(x: int, y: int, negative: bool, low: bv8)
    requires negative <==> (x - y) % 256 >= 128
    requires low as int == (x - y - (1 - CarryIn(true))) % 256
    ensures negative == Negative(low)
  {
    SignBit(low);
    NoBorrow(x, y, low as int);
  }

  /** With the carry set, SBC subtracts no borrow, so its result is 0 exactly when the operands are equal. */
  lemma NoBorrowZero(x: int, y: int, low: int)
    requires 0 <= x < 256 && 0 <= y < 256
    requires low == (x - y - (1 - CarryIn(true))) % 256
    ensures low == 0 <==> x == y
  {
  }

  /** With the carry set, SBC subtracts no borrow. */
  lemma NoBorrow(x: int, y: int, low: int)
    requires low == (x - y - (1 - CarryIn(true))) % 256
    ensures low == (x - y) % 256
  {
  }

  /** ROR undoes ROL: the rotated-out bit comes back in through C. */
  lemma {:induction false} RorUndoesRol(v: bv8, c: bool)
    ensures Ror(Rol(v, c).value, Rol(v, c).carry) == ShiftResult(v, c)
  {
    var r := Rol(v, c);
    var s := Ror(r.value, r.carry);
    RotateBack(v, c, r.value, r.carry, s.value, s.carry);
  }

  /** ROR of `y`, the ROL of `v` with carry-out `k`, gives `z` and carry-out `j`. */
  lemma RotateBack(v: bv8, c: bool, y: bv8, k: bool, z: bv8, j: bool)
    requires y as int == (2 * v as int + CarryIn(c)) % 256
    requires k <==> v as int >= 128
    requires j <==> y as int % 2 == 1
    requires z as int == y as int / 2 + 128 * CarryIn(k)
    ensures z == v && j == c
  {
    ByteRange(v);
    RotateLeftThenRight(v as int, CarryIn(c), y as int, CarryIn(k));
    BytesEqual(z, v);
  }

  /** ROL undoes ROR. */
  lemma {:induction false} RolUndoesRor(v: bv8, c: bool)
    ensures Rol(Ror(v, c).value, Ror(v, c).carry) == ShiftResult(v, c)
  {
    var r := Ror(v, c);
    var s := Rol(r.value, r.carry);
    RotateForth(v, c, r.value, r.carry, s.value, s.carry);
  }

  /** ROL of `y`, the ROR of `v` with carry-out `k`, gives `z` and carry-out `j`. */
  lemma RotateForth(v: bv8, c: bool, y: bv8, k: bool, z: bv8, j: bool)
    requires y as int == v as int / 2 + 128 * CarryIn(c)
    requires k <==> v as int % 2 == 1
    requires j <==> y as int >= 128
    requires z as int == (2 * y as int + CarryIn(k)) % 256
    ensures z == v && j == c
  {
    ByteRange(v);
    RotateRightThenLeft(v as int, CarryIn(c), y as int, CarryIn(k));
    BytesEqual(z, v);
  }

  /** The worked example: ROL of 0x40 with C = 1 gives 0x81 and C = 0. */
  lemma RolExample()
    ensures Rol(0x40, true) == ShiftResult(0x81, false)
  {
  }

  /** DEC undoes INC and INC undoes DEC. */
  lemma IncrementDecrementInverse(v: bv8)
    ensures Decrement(Increment(v)) == v
    ensures Increment(Decrement(v)) == v
  {
    ByteRange(v);
    StepBackAndForth(v as int);
    BytesEqual(Decrement(Increment(v)), v);
    BytesEqual(Increment(Decrement(v)), v);
  }

  /** PLP after PHP restores all six flags, whatever B was pushed as. */
  lemma UnpackPackStatus(s: Status, b: bool)
    ensures UnpackStatus(PackStatus(s, b)) == s
  {
  }

  /** Packing what PLP read gives back the byte, except that bit 5 is forced on. */
  lemma PackUnpackStatus(p: bv8)
    ensures PackStatus(UnpackStatus(p), BitOf(p, 4)) == p | 0x20
  {
  }

  /** TRB undoes TSB when A and M shared no bit, the case in which TSB reports Z. */
  lemma TrbUndoesTsb(a: bv8, m: bv8)
    requires BitTest(a, m).zero
    ensures Trb(a, Tsb(a, m)) == m
  {
    assert a & m == 0;
  }

  /** TSB then TRB with the same A clears exactly A's bits: the result is TRB alone. */
  lemma TrbAfterTsb(a: bv8, m: bv8)
    ensures Trb(a, Tsb(a, m)) == Trb(a, m)
    ensures Tsb(a, Trb(a, m)) == Tsb(a, m)
  {
  }

  /** SMB after RMB of the same bit restores a byte whose bit was set, and vice versa. */
  lemma SetResetBitInverse(m: bv8, n: nat)
    requires n < 8
    ensures BitOf(m, n) ==> SetBit(ResetBit(m, n), n) == m
    ensures !BitOf(m, n) ==> ResetBit(SetBit(m, n), n) == m
  {
  }

  /** The branch test case: offset 0x10 read at 0x8000 leaves PC 0x8001 and lands at 0x8011. */
  lemma BranchExample()
    ensures BranchTarget(0x8001, 0x10) == 0x8011
    ensures BranchTarget(0x8002, 0xFE) == 0x8000
  {
  }

  // ---------------------------------------------------------------
  // Bit-level helpers for the proofs above
  // ---------------------------------------------------------------

  lemma ZeroByte(b: bv8)
    ensures b == 0 <==> b as int == 0
  {
  }

  lemma AddOverflowMeaning(a: bv8, m: bv8, c: int, s: bv8)
    requires 0 <= c <= 1 && s as int == (a as int + m as int + c) % 256
    ensures (Negative(a) == Negative(m) && Negative(s) != Negative(a))
        <==> !(-128 <= Signed(a) + Signed(m) + c < 128)
  {
    SignBit(a);
    SignBit(m);
    SignBit(s);
    AddOverflowArithmetic(a as int, m as int, c, s as int);
  }

  lemma AddOverflowArithmetic(x: int, y: int, c: int, s: int)
    requires 0 <= x < 256 && 0 <= y < 256 && 0 <= c <= 1
    requires s == (x + y + c) % 256
    ensures ((x >= 128) == (y >= 128) && (s >= 128) != (x >= 128))
        <==> !(-128 <= SignedOf(x) + SignedOf(y) + c < 128)
  {
    SmallMod(x + y + c);
  }

  lemma SubOverflowMeaning(a: bv8, m: bv8, c: int, s: bv8)
    requires 0 <= c <= 1 && s as int == (a as int - m as int - (1 - c)) % 256
    ensures (Negative(a) != Negative(m) && Negative(s) != Negative(a))
        <==> !(-128 <= Signed(a) - Signed(m) - (1 - c) < 128)
  {
    SignBit(a);
    SignBit(m);
    SignBit(s);
    SubOverflowArithmetic(a as int, m as int, c, s as int);
  }

  lemma SubOverflowArithmetic(x: int, y: int, c: int, s: int)
    requires 0 <= x < 256 && 0 <= y < 256 && 0 <= c <= 1
    requires s == (x - y - (1 - c)) % 256
    ensures ((x >= 128) != (y >= 128) && (s >= 128) != (x >= 128))
        <==> !(-128 <= SignedOf(x) - SignedOf(y) - (1 - c) < 128)
  {
    SmallMod(x - y - (1 - c));
  }

  /** A subtraction of two bytes wrapped to a Word keeps its low byte, and fits a byte iff it is not negative. */
  lemma WordThenByte(x: int)
    requires -256 <= x < 256
    ensures x < 0 ==> x % WORD_MOD == x + WORD_MOD
    ensures x >= 0 ==> x % WORD_MOD == x
    ensures (x % WORD_MOD) % 256 == x % 256
    ensures x % WORD_MOD <= 0xFF <==> x >= 0
  {
  }

  /** The low byte of a byte difference wrapped to a Word is zero only when the difference is. */
  lemma LowOfWordDifference(d: int)
    requires -256 < d < 256
    ensures (d % WORD_MOD) % 256 == d % 256
    ensures d % 256 == 0 <==> d == 0
  {
  }

  lemma SameValueAndCarry(a: bv8, m: bv8, c: bool)
    ensures Sbc(a, m, c).value == Adc(a, !m, c).value
    ensures Sbc(a, m, c).carry == Adc(a, !m, c).carry
  {
    ComplementAgrees(a, m, c, Sbc(a, m, c), Adc(a, !m, c));
  }

  /** An SBC result `s` and an ADC-of-the-complement result `t` with the same inputs agree on value and carry. */
  lemma ComplementAgrees(a: bv8, m: bv8, c: bool, s: ArithResult, t: ArithResult)
    requires s.value as int == (a as int - m as int - (1 - CarryIn(c))) % 256
    requires s.carry <==> a as int - m as int - (1 - CarryIn(c)) >= 0
    requires t.value as int == (a as int + (!m) as int + CarryIn(c)) % 256
    requires t.carry <==> a as int + (!m) as int + CarryIn(c) > 0xFF
    ensures s.value == t.value && s.carry == t.carry
  {
    ComplementValue(m);
    ComplementSum(a as int, m as int, (!m) as int, CarryIn(c));
    BytesEqual(s.value, t.value);
  }

  lemma SameOverflow(a: bv8, m: bv8, c: bool)
    ensures Sbc(a, m, c).overflow == Adc(a, !m, c).overflow
  {
    SignedComplement(m);
    AdcOverflow(a, !m, c);
    SbcOverflow(a, m, c);
  }

  /** Adding the complement `255 - y` plus the carry is subtracting `y` plus the borrow, shifted by 256. */
  lemma ComplementSum(x: int, y: int, n: int, k: int)
    requires n == 255 - y
    ensures (x + n + k) % 256 == (x - y - (1 - k)) % 256
    ensures x + n + k > 0xFF <==> x - y - (1 - k) >= 0
  {
    assert x + n + k == (x - y - (1 - k)) + 256;
  }

  /** `A & M` is zero exactly when no bit is set in both. */
  lemma SharedBits(a: bv8, m: bv8)
    ensures a & m == 0 <==> forall k :: 0 <= k < 8 ==> !(BitOf(a, k) && BitOf(m, k))
  {
    ZeroIffNoBits(a & m);
    if a & m == 0 {
      forall k | 0 <= k < 8
        ensures !(BitOf(a, k) && BitOf(m, k))
      {
        AndBit(a, m, k);
      }
    } else {
      var k :| 0 <= k < 8 && BitOf(a & m, k);
      AndBit(a, m, k);
    }
  }

  lemma ZeroIffNoBits(x: bv8)
    ensures x == 0 <==> forall k :: 0 <= k < 8 ==> !BitOf(x, k)
  {
    if x != 0 {
      assert BitOf(x, 0) || BitOf(x, 1) || BitOf(x, 2) || BitOf(x, 3)
          || BitOf(x, 4) || BitOf(x, 5) || BitOf(x, 6) || BitOf(x, 7);
    }
  }

  lemma AndBit(a: bv8, m: bv8, k: nat)
    requires k < 8
    ensures BitOf(a & m, k) <==> BitOf(a, k) && BitOf(m, k)
  {
  }

  lemma OrBit(a: bv8, m: bv8, k: nat)
    requires k < 8
    ensures BitOf(m | a, k) <==> BitOf(m, k) || BitOf(a, k)
  {
  }

  /** Setting or clearing bit `n` leaves every other bit as it was. */
  lemma OtherBitKept(m: bv8, n: nat, k: nat)
    requires n < 8 && k < 8 && k != n
    ensures BitOf(m & !Mask(n), k) <==> BitOf(m, k)
    ensures BitOf(m | Mask(n), k) <==> BitOf(m, k)
  {
  }

  /** Clearing bit `n` leaves it clear and setting it leaves it set. */
  lemma MaskedBits(m: bv8, n: nat)
    requires n < 8
    ensures !BitOf(m & !Mask(n), n)
    ensures BitOf(m | Mask(n), n)
  {
  }

  lemma AndNotBit(a: bv8, m: bv8, k: nat)
    requires k < 8
    ensures BitOf(m & !a, k) <==> BitOf(m, k) && !BitOf(a, k)
  {
  }

  lemma ComplementValue(m: bv8)
    ensures (!m) as int == 255 - m as int
  {
  }

  lemma SignedComplement(m: bv8)
    ensures Signed(!m) == -1 - Signed(m)
  {
    ComplementValue(m);
    ByteRange(m);
    SignedOfComplement(m as int);
  }

  lemma SignedOfComplement(x: int)
    requires 0 <= x < 256
    ensures SignedOf(255 - x) == -1 - SignedOf(x)
  {
  }

  lemma LowBitValue(v: bv8)
    ensures v & 0x01 != 0 <==> v as int % 2 == 1
  {
    HalfSplit(v);
  }

  lemma HalfSplit(v: bv8)
    ensures v as int == 2 * (v >> 1) as int + (if v & 1 != 0 then 1 else 0)
  {
  }

  /** The integer content of ROR after ROL: the byte comes back, and bit 0 of the rotated byte is the old carry. */
  lemma RotateLeftThenRight(x: int, c: int, y: int, k: int)
    requires 0 <= x < 256 && 0 <= c <= 1
    requires y == (2 * x + c) % 256
    requires 0 <= k <= 1 && (k == 1 <==> x >= 128)
    ensures y / 2 + 128 * k == x
    ensures y % 2 == c
  {
  }

  /** The integer content of ROL after ROR: the byte comes back, and bit 7 of the rotated byte is the old carry. */
  lemma RotateRightThenLeft(x: int, c: int, y: int, k: int)
    requires 0 <= x < 256 && 0 <= c <= 1
    requires y == x / 2 + 128 * c
    requires 0 <= k <= 1 && (k == 1 <==> x % 2 == 1)
    ensures (2 * y + k) % 256 == x
    ensures y >= 128 <==> c == 1
  {
  }

  lemma FitsByte(x: int)
    requires 0 <= x < 256
    ensures x % 256 == x
  {
  }

  /** Adding one then subtracting one modulo 256, in either order, is the identity on byte values. */
  lemma StepBackAndForth(x: int)
    requires 0 <= x < 256
    ensures ((x + 1) % 256 - 1) % 256 == x
    ensures ((x - 1) % 256 + 1) % 256 == x
  {
  }

  /** The branch target as a function of the offset byte's value. */
  lemma WrapOffset(pc: Word, o: int)
    requires 0 <= o < 256
    ensures ((pc + SignedOf(o)) % WORD_MOD - pc) % WORD_MOD == SignedOf(o) % WORD_MOD
    ensures o < 128 ==> (pc + SignedOf(o)) % WORD_MOD == (pc + o) % WORD_MOD
    ensures o >= 128 ==> (pc + SignedOf(o)) % WORD_MOD == (pc + o - 256) % WORD_MOD
  {
  }
}
