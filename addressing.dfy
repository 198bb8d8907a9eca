/*
 * Effective-address computation of src/cpu/addressing.cpp.
 *
 * Each addressing mode is a method that fetches its operand bytes through
 * the CPU (moving PC on), charges the cycles the source charges, and returns
 * the effective address. The arithmetic of each mode is a function over the
 * memory, and the properties of the 6502 address space (zero-page
 * wrap-around, page crossing, the JMP-indirect page bug) are lemmas about
 * those functions.
 */
module Addressing {
  import opened Bits
  import opened Memory
  import opened Cpu

  // ---------------------------------------------------------------
  // Address arithmetic
  // ---------------------------------------------------------------

  /** `(a & 0xFF00) != (b & 0xFF00)`: the two addresses lie on different 256-byte pages. */
  predicate PagesCross(addr1: Word, addr2: Word)
    ensures PagesCross(addr1, addr2) <==> addr1 - addr1 % 0x100 != addr2 - addr2 % 0x100
  {
    addr1 / 0x100 != addr2 / 0x100
  }

  /** A zero-page address plus an index register, added as bytes: the sum wraps inside page zero. */
  function ZeroPageIndexed(zp: bv8, index: bv8): (address: Word)
    ensures address == (zp as int + index as int) % 256
    ensures address <= ZERO_PAGE_END
  {
    ToByte(zp as int + index as int) as int
  }

  /** A 16-bit base plus an index register, wrapped to 16 bits (`Word effectiveAddress = address + X`). */
  function Indexed(base: Word, index: bv8): (address: Word)
    ensures address == (base + index as int) % WORD_MOD
  {
    (base + index as int) % WORD_MOD
  }

  /** The little-endian word stored at `pc` and `pc + 1` (the operand of an absolute instruction). */
  function OperandWord(memory: Mem, pc: Word): (w: Word)
    requires memory.Valid()
    reads memory, memory.Data
    ensures Lo(w) == memory.Data[pc] && Hi(w) == memory.Data[(pc + 1) % WORD_MOD]
  {
    MakeWord(memory.Read(pc), memory.Read((pc + 1) % WORD_MOD))
  }

  /**
   * The pointer held in page zero at `zp`: the low byte at `zp`, the high
   * byte at `zp + 1` computed as a byte, so a pointer at 0xFF takes its high
   * byte from 0x00 and never from 0x0100.
   */
  function ZeroPagePointer(memory: Mem, zp: bv8): (ptr: Word)
    requires memory.Valid()
    reads memory, memory.Data
    ensures Lo(ptr) == memory.Data[zp as int]
    ensures Hi(ptr) == memory.Data[(zp as int + 1) % 256]
  {
    ByteRange(zp);
    MakeWord(memory.Read(zp as int), memory.Read((zp as int + 1) % 256))
  }

  /**
   * The address that the low byte of a JMP-indirect target is read from and
   * the one the high byte is read from. When the pointer ends a page
   * (`(ptr & 0xFF) == 0xFF`) the high byte comes from `ptr & 0xFF00`, the
   * start of the same page, as on the NMOS 6502.
   */
  function IndirectHighAddress(ptr: Word): (a: Word)
    ensures a / 0x100 == ptr / 0x100
    ensures a % 0x100 == (ptr % 0x100 + 1) % 0x100
  {
    if ptr % 0x100 == 0xFF then ptr - 0xFF else ptr + 1
  }

  /** The JMP-indirect target: the low byte at `ptr`, the high byte at `IndirectHighAddress(ptr)`. */
  function IndirectTarget(memory: Mem, ptr: Word): (target: Word)
    requires memory.Valid()
    reads memory, memory.Data
    ensures Lo(target) == memory.Data[ptr]
    ensures Hi(target) == memory.Data[IndirectHighAddress(ptr)]
  {
    MakeWord(memory.Read(ptr), memory.Read(IndirectHighAddress(ptr)))
  }

  // ---------------------------------------------------------------
  // Properties of the address arithmetic
  // ---------------------------------------------------------------

  /** Page crossing is symmetric and an address never crosses from itself. */
  lemma PagesCrossSymmetric(a: Word, b: Word)
    ensures PagesCross(a, b) <==> PagesCross(b, a)
    ensures !PagesCross(a, a)
  {
  }

  /** Two addresses cross pages exactly when their high bytes differ. */
  lemma PagesCrossIffHighBytesDiffer(a: Word, b: Word)
    ensures PagesCross(a, b) <==> Hi(a) != Hi(b)
  {
    if Hi(a) == Hi(b) {
      assert a / 0x100 == Hi(a) as int;
    }
  }

  /**
   * Indexing a base address crosses a page exactly when adding the index to
   * the base's low byte carries out of the byte.
   */
  lemma {:induction false} IndexedCrossesIffCarry(base: Word, index: bv8)
    ensures PagesCross(base, Indexed(base, index)) <==> base % 0x100 + index as int >= 0x100
  {
    var page, low, i := base / 0x100, base % 0x100, index as int;
    assert base == 0x100 * page + low;
    var sum := base + i;
    if low + i < 0x100 {
      assert sum < WORD_MOD;
      assert Indexed(base, index) == sum;
      assert sum / 0x100 == page;
    } else if page < 0xFF {
      assert sum < WORD_MOD;
      assert Indexed(base, index) == sum;
      assert sum == 0x100 * (page + 1) + (low + i - 0x100);
      assert sum / 0x100 == page + 1;
    } else {
      assert WORD_MOD <= sum;
      assert Indexed(base, index) == sum - WORD_MOD;
      assert sum - WORD_MOD == low + i - 0x100;
      assert (sum - WORD_MOD) / 0x100 == 0;
    }
  }

  /**
   * The JMP-indirect page bug: a pointer ending a page takes its high byte
   * from the start of that page; any other pointer from the next byte. The
   * high byte is always read on the pointer's own page.
   */
  lemma IndirectPageBug(ptr: Word)
    ensures ptr % 0x100 == 0xFF ==> IndirectHighAddress(ptr) == ptr / 0x100 * 0x100
    ensures ptr % 0x100 != 0xFF ==> IndirectHighAddress(ptr) == ptr + 1
    ensures !PagesCross(ptr, IndirectHighAddress(ptr))
  {
  }

  /** Example: a pointer at 0x30FF reads its high byte from 0x3000, not 0x3100. */
  lemma IndirectPageBugExample()
    ensures IndirectHighAddress(0x30FF) == 0x3000
    ensures IndirectHighAddress(0x3010) == 0x3011
  {
  }

  // ---------------------------------------------------------------
  // The addressing-mode methods
  // ---------------------------------------------------------------

  /** The operand is the byte at PC itself; PC moves past it and no cycle is charged. */
  method Immediate(cpu: CPU, cycles: U32, memory: Mem) returns (address: Word, remaining: U32)
    modifies cpu`PC
    ensures address == old(cpu.PC)
    ensures cpu.PC == (old(cpu.PC) + 1) % WORD_MOD
    ensures remaining == cycles
  {
    address := cpu.PC;
    cpu.PC := (cpu.PC + 1) % WORD_MOD;
    remaining := cycles;
  }

  /** The operand byte is a zero-page address. */
  method ZeroPage(cpu: CPU, cycles: U32, memory: Mem) returns (address: Word, remaining: U32)
    requires memory.Valid()
    modifies cpu`PC
    ensures address == memory.Data[old(cpu.PC)] as int && address <= ZERO_PAGE_END
    ensures cpu.PC == (old(cpu.PC) + 1) % WORD_MOD
    ensures remaining == ConsumeCycles(cycles, 1)
  {
    var zp;
    zp, remaining := cpu.FetchByte(cycles, memory);
    address := zp as int;
  }

  /** The operand byte plus X, wrapping within page zero; one extra cycle. */
  method ZeroPageX(cpu: CPU, cycles: U32, memory: Mem) returns (address: Word, remaining: U32)
    requires memory.Valid()
    modifies cpu`PC
    ensures address == ZeroPageIndexed(memory.Data[old(cpu.PC)], cpu.X)
    ensures cpu.PC == (old(cpu.PC) + 1) % WORD_MOD
    ensures remaining == Spend(ConsumeCycles(cycles, 1), 1)
  {
    var zp;
    zp, remaining := cpu.FetchByte(cycles, memory);
    address := ZeroPageIndexed(zp, cpu.X);
    remaining := Spend(remaining, 1);
  }

  /** The operand byte plus Y, wrapping within page zero; one extra cycle. */
  method ZeroPageY(cpu: CPU, cycles: U32, memory: Mem) returns (address: Word, remaining: U32)
    requires memory.Valid()
    modifies cpu`PC
    ensures address == ZeroPageIndexed(memory.Data[old(cpu.PC)], cpu.Y)
    ensures cpu.PC == (old(cpu.PC) + 1) % WORD_MOD
    ensures remaining == Spend(ConsumeCycles(cycles, 1), 1)
  {
    var zp;
    zp, remaining := cpu.FetchByte(cycles, memory);
    address := ZeroPageIndexed(zp, cpu.Y);
    remaining := Spend(remaining, 1);
  }

  /** The two operand bytes are the address, little-endian. */
  method Absolute(cpu: CPU, cycles: U32, memory: Mem) returns (address: Word, remaining: U32)
    requires memory.Valid()
    modifies cpu`PC
    ensures address == OperandWord(memory, old(cpu.PC))
    ensures cpu.PC == (old(cpu.PC) + 2) % WORD_MOD
    ensures remaining == ConsumeCycles(cycles, 2)
  {
    address, remaining := cpu.FetchWord(cycles, memory);
  }

  /** The operand word plus X, wrapping at 16 bits; one extra cycle when penalised and a page is crossed. */
  method AbsoluteX(cpu: CPU, cycles: U32, memory: Mem, pageCrossPenalty: bool) returns (address: Word, remaining: U32)
    requires memory.Valid()
    modifies cpu`PC
    ensures address == Indexed(OperandWord(memory, old(cpu.PC)), cpu.X)
    ensures cpu.PC == (old(cpu.PC) + 2) % WORD_MOD
    ensures remaining == if pageCrossPenalty && PagesCross(OperandWord(memory, old(cpu.PC)), address)
                         then Spend(ConsumeCycles(cycles, 2), 1) else ConsumeCycles(cycles, 2)
  {
    var base;
    base, remaining := cpu.FetchWord(cycles, memory);
    address := Indexed(base, cpu.X);
    if pageCrossPenalty && PagesCross(base, address) {
      remaining := Spend(remaining, 1);
    }
  }

  /** The operand word plus Y, wrapping at 16 bits; one extra cycle when penalised and a page is crossed. */
  method AbsoluteY(cpu: CPU, cycles: U32, memory: Mem, pageCrossPenalty: bool) returns (address: Word, remaining: U32)
    requires memory.Valid()
    modifies cpu`PC
    ensures address == Indexed(OperandWord(memory, old(cpu.PC)), cpu.Y)
    ensures cpu.PC == (old(cpu.PC) + 2) % WORD_MOD
    ensures remaining == if pageCrossPenalty && PagesCross(OperandWord(memory, old(cpu.PC)), address)
                         then Spend(ConsumeCycles(cycles, 2), 1) else ConsumeCycles(cycles, 2)
  {
    var base;
    base, remaining := cpu.FetchWord(cycles, memory);
    address := Indexed(base, cpu.Y);
    if pageCrossPenalty && PagesCross(base, address) {
      remaining := Spend(remaining, 1);
    }
  }

  /** (zp,X): the pointer at the operand byte plus X, both pointer bytes read inside page zero. */
  method IndirectX(cpu: CPU, cycles: U32, memory: Mem) returns (address: Word, remaining: U32)
    requires memory.Valid()
    modifies cpu`PC
    ensures address == ZeroPagePointer(memory, ToByte(ZeroPageIndexed(memory.Data[old(cpu.PC)], cpu.X)))
    ensures cpu.PC == (old(cpu.PC) + 1) % WORD_MOD
    ensures remaining == Spend(Spend(ConsumeCycles(cycles, 1), 1), 2)
  {
    var zp;
    zp, remaining := cpu.FetchByte(cycles, memory);
    var indexed := ZeroPageIndexed(zp, cpu.X);
    remaining := Spend(remaining, 1);
    address := ZeroPagePointer(memory, ToByte(indexed));
    remaining := Spend(remaining, 2);
  }

  /** (zp),Y: the zero-page pointer plus Y, wrapping at 16 bits; one extra cycle when penalised and a page is crossed. */
  method IndirectY(cpu: CPU, cycles: U32, memory: Mem, pageCrossPenalty: bool) returns (address: Word, remaining: U32)
    requires memory.Valid()
    modifies cpu`PC
    ensures address == Indexed(ZeroPagePointer(memory, memory.Data[old(cpu.PC)]), cpu.Y)
    ensures cpu.PC == (old(cpu.PC) + 1) % WORD_MOD
    ensures remaining == if pageCrossPenalty && PagesCross(ZeroPagePointer(memory, memory.Data[old(cpu.PC)]), address)
                         then Spend(Spend(ConsumeCycles(cycles, 1), 2), 1) else Spend(ConsumeCycles(cycles, 1), 2)
  {
    var zp;
    zp, remaining := cpu.FetchByte(cycles, memory);
    var base := ZeroPagePointer(memory, zp);
    remaining := Spend(remaining, 2);
    address := Indexed(base, cpu.Y);
    if pageCrossPenalty && PagesCross(base, address) {
      remaining := Spend(remaining, 1);
    }
  }

  /** 65C02 (zp): the pointer at the operand byte, read inside page zero. */
  method IndirectZeroPage(cpu: CPU, cycles: U32, memory: Mem) returns (address: Word, remaining: U32)
    requires memory.Valid()
    modifies cpu`PC
    ensures address == ZeroPagePointer(memory, memory.Data[old(cpu.PC)])
    ensures cpu.PC == (old(cpu.PC) + 1) % WORD_MOD
    ensures remaining == Spend(ConsumeCycles(cycles, 1), 2)
  {
    var zp;
    zp, remaining := cpu.FetchByte(cycles, memory);
    address := ZeroPagePointer(memory, zp);
    remaining := Spend(remaining, 2);
  }

  /** JMP (abs): the word stored at the operand address, with the page bug. */
  method Indirect(cpu: CPU, cycles: U32, memory: Mem) returns (address: Word, remaining: U32)
    requires memory.Valid()
    modifies cpu`PC
    ensures address == IndirectTarget(memory, OperandWord(memory, old(cpu.PC)))
    ensures cpu.PC == (old(cpu.PC) + 2) % WORD_MOD
    ensures remaining == Spend(ConsumeCycles(cycles, 2), 2)
  {
    var ptr;
    ptr, remaining := cpu.FetchWord(cycles, memory);
    address := IndirectTarget(memory, ptr);
    remaining := Spend(remaining, 2);
  }
}
