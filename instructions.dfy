/*
 * The instruction handlers of src/cpu/instructions.cpp.
 *
 * Every handler receives the CPU, the cycle budget and the memory (and,
 * for the handlers that take an operand, the effective address computed by
 * an addressing mode), changes the registers, flags and memory cells in
 * place, and returns the budget left after its unguarded `cycles--`
 * decrements (`Spend`). The byte arithmetic is the one of module Alu, so
 * each handler's contract is stated with the Alu function whose meaning is
 * proved there.
 */
module Instructions {
  import opened Bits
  import opened Alu
  import opened Memory
  import opened Cpu
  import Addressing

  // ---------------------------------------------------------------
  // Loads and stores
  // ---------------------------------------------------------------

  /** LDA: A := M, Z/N from A, one cycle. */
  method LDA(cpu: CPU, cycles: U32, memory: Mem, address: Word) returns (remaining: U32)
    requires memory.Valid()
    modifies cpu`A, cpu`Z, cpu`N
    ensures cpu.A == memory.Data[address]
    ensures cpu.Z == (cpu.A == 0) && cpu.N == Negative(cpu.A)
    ensures remaining == Spend(cycles, 1)
  {
    cpu.A := memory.Read(address);
    remaining := Spend(cycles, 1);
    cpu.UpdateZeroAndNegativeFlags(cpu.A);
  }

  /** LDX: X := M, Z/N from X, one cycle. */
  method LDX(cpu: CPU, cycles: U32, memory: Mem, address: Word) returns (remaining: U32)
    requires memory.Valid()
    modifies cpu`X, cpu`Z, cpu`N
    ensures cpu.X == memory.Data[address]
    ensures cpu.Z == (cpu.X == 0) && cpu.N == Negative(cpu.X)
    ensures remaining == Spend(cycles, 1)
  {
    cpu.X := memory.Read(address);
    remaining := Spend(cycles, 1);
    cpu.UpdateZeroAndNegativeFlags(cpu.X);
  }

  /** LDY: Y := M, Z/N from Y, one cycle. */
  method LDY(cpu: CPU, cycles: U32, memory: Mem, address: Word) returns (remaining: U32)
    requires memory.Valid()
    modifies cpu`Y, cpu`Z, cpu`N
    ensures cpu.Y == memory.Data[address]
    ensures cpu.Z == (cpu.Y == 0) && cpu.N == Negative(cpu.Y)
    ensures remaining == Spend(cycles, 1)
  {
    cpu.Y := memory.Read(address);
    remaining := Spend(cycles, 1);
    cpu.UpdateZeroAndNegativeFlags(cpu.Y);
  }

  /** STA: M := A, no flag changes, one cycle. */
  method STA(cpu: CPU, cycles: U32, memory: Mem, address: Word) returns (remaining: U32)
    requires memory.Valid()
    modifies memory.Data
    ensures memory.Data[..] == old(memory.Data[..])[address := cpu.A]
    ensures remaining == Spend(cycles, 1)
  {
    memory.Write(address, cpu.A);
    remaining := Spend(cycles, 1);
  }

  /** STX: M := X, no flag changes, one cycle. */
  method STX(cpu: CPU, cycles: U32, memory: Mem, address: Word) returns (remaining: U32)
    requires memory.Valid()
    modifies memory.Data
    ensures memory.Data[..] == old(memory.Data[..])[address := cpu.X]
    ensures remaining == Spend(cycles, 1)
  {
    memory.Write(address, cpu.X);
    remaining := Spend(cycles, 1);
  }

  /** STY: M := Y, no flag changes, one cycle. */
  method STY(cpu: CPU, cycles: U32, memory: Mem, address: Word) returns (remaining: U32)
    requires memory.Valid()
    modifies memory.Data
    ensures memory.Data[..] == old(memory.Data[..])[address := cpu.Y]
    ensures remaining == Spend(cycles, 1)
  {
    memory.Write(address, cpu.Y);
    remaining := Spend(cycles, 1);
  }

  /** 65C02 STZ: M := 0; the handler itself charges no cycle. */
  method STZ(cpu: CPU, cycles: U32, memory: Mem, address: Word) returns (remaining: U32)
    requires memory.Valid()
    modifies memory.Data
    ensures memory.Data[..] == old(memory.Data[..])[address := 0]
    ensures remaining == cycles
  {
    memory.Write(address, 0);
    remaining := cycles;
  }

  // ---------------------------------------------------------------
  // Register transfers
  // ---------------------------------------------------------------

  /** TAX: X := A, Z/N from X. */
  method TAX(cpu: CPU, cycles: U32, memory: Mem) returns (remaining: U32)
    modifies cpu`X, cpu`Z, cpu`N
    ensures cpu.X == cpu.A
    ensures cpu.Z == (cpu.X == 0) && cpu.N == Negative(cpu.X)
    ensures remaining == Spend(cycles, 1)
  {
    cpu.X := cpu.A;
    remaining := Spend(cycles, 1);
    cpu.UpdateZeroAndNegativeFlags(cpu.X);
  }

  /** TAY: Y := A, Z/N from Y. */
  method TAY(cpu: CPU, cycles: U32, memory: Mem) returns (remaining: U32)
    modifies cpu`Y, cpu`Z, cpu`N
    ensures cpu.Y == cpu.A
    ensures cpu.Z == (cpu.Y == 0) && cpu.N == Negative(cpu.Y)
    ensures remaining == Spend(cycles, 1)
  {
    cpu.Y := cpu.A;
    remaining := Spend(cycles, 1);
    cpu.UpdateZeroAndNegativeFlags(cpu.Y);
  }

  /** TXA: A := X, Z/N from A. */
  method TXA(cpu: CPU, cycles: U32, memory: Mem) returns (remaining: U32)
    modifies cpu`A, cpu`Z, cpu`N
    ensures cpu.A == cpu.X
    ensures cpu.Z == (cpu.A == 0) && cpu.N == Negative(cpu.A)
    ensures remaining == Spend(cycles, 1)
  {
    cpu.A := cpu.X;
    remaining := Spend(cycles, 1);
    cpu.UpdateZeroAndNegativeFlags(cpu.A);
  }

  /** TYA: A := Y, Z/N from A. */
  method TYA(cpu: CPU, cycles: U32, memory: Mem) returns (remaining: U32)
    modifies cpu`A, cpu`Z, cpu`N
    ensures cpu.A == cpu.Y
    ensures cpu.Z == (cpu.A == 0) && cpu.N == Negative(cpu.A)
    ensures remaining == Spend(cycles, 1)
  {
    cpu.A := cpu.Y;
    remaining := Spend(cycles, 1);
    cpu.UpdateZeroAndNegativeFlags(cpu.A);
  }

  /** TSX: X := SP, Z/N from X. */
  method TSX(cpu: CPU, cycles: U32, memory: Mem) returns (remaining: U32)
    modifies cpu`X, cpu`Z, cpu`N
    ensures cpu.X == cpu.SP
    ensures cpu.Z == (cpu.X == 0) && cpu.N == Negative(cpu.X)
    ensures remaining == Spend(cycles, 1)
  {
    cpu.X := cpu.SP;
    remaining := Spend(cycles, 1);
    cpu.UpdateZeroAndNegativeFlags(cpu.X);
  }

  /** TXS: SP := X; unlike the other transfers it leaves the flags alone. */
  method TXS(cpu: CPU, cycles: U32, memory: Mem) returns (remaining: U32)
    modifies cpu`SP
    ensures cpu.SP == cpu.X
    ensures remaining == Spend(cycles, 1)
  {
    cpu.SP := cpu.X;
    remaining := Spend(cycles, 1);
  }

  // ---------------------------------------------------------------
  // Stack
  // ---------------------------------------------------------------

  /** PHA: A is written at `0x0100 | SP`, SP is decremented (wrapping), three cycles. */
  method PHA(cpu: CPU, cycles: U32, memory: Mem) returns (remaining: U32)
    requires memory.Valid()
    modifies cpu`SP, memory.Data
    ensures memory.Data[..] == old(memory.Data[..])[StackAddress(old(cpu.SP)) := cpu.A]
    ensures cpu.SP == old(cpu.SP) - 1
    ensures remaining == Spend(cycles, 3)
  {
    cpu.PushStack(memory, cpu.A);
    remaining := Spend(cycles, 3);
  }

  /** 65C02 PHX: as PHA, with X. */
  method PHX(cpu: CPU, cycles: U32, memory: Mem) returns (remaining: U32)
    requires memory.Valid()
    modifies cpu`SP, memory.Data
    ensures memory.Data[..] == old(memory.Data[..])[StackAddress(old(cpu.SP)) := cpu.X]
    ensures cpu.SP == old(cpu.SP) - 1
    ensures remaining == Spend(cycles, 3)
  {
    cpu.PushStack(memory, cpu.X);
    remaining := Spend(cycles, 3);
  }

  /** 65C02 PHY: as PHA, with Y. */
  method PHY(cpu: CPU, cycles: U32, memory: Mem) returns (remaining: U32)
    requires memory.Valid()
    modifies cpu`SP, memory.Data
    ensures memory.Data[..] == old(memory.Data[..])[StackAddress(old(cpu.SP)) := cpu.Y]
    ensures cpu.SP == old(cpu.SP) - 1
    ensures remaining == Spend(cycles, 3)
  {
    cpu.PushStack(memory, cpu.Y);
    remaining := Spend(cycles, 3);
  }

  /**
   * PHP: pushes the packed status with bits 4 and 5 both set (B is forced
   * to 1 in the pushed byte, not in the CPU).
   */
  method PHP(cpu: CPU, cycles: U32, memory: Mem) returns (remaining: U32)
    requires memory.Valid()
    modifies cpu`SP, memory.Data
    ensures memory.Data[..] == old(memory.Data[..])[StackAddress(old(cpu.SP)) := PackStatus(cpu.Flags(), true)]
    ensures cpu.SP == old(cpu.SP) - 1
    ensures remaining == Spend(cycles, 3)
  {
    var status := PackStatus(cpu.Flags(), true);
    cpu.PushStack(memory, status);
    remaining := Spend(cycles, 3);
  }

  /** PLA: SP is incremented (wrapping), then A := the byte at `0x0100 | SP`; Z/N from A; four cycles. */
  method PLA(cpu: CPU, cycles: U32, memory: Mem) returns (remaining: U32)
    requires memory.Valid()
    modifies cpu`SP, cpu`A, cpu`Z, cpu`N
    ensures cpu.SP == old(cpu.SP) + 1
    ensures cpu.A == memory.Data[StackAddress(cpu.SP)]
    ensures cpu.Z == (cpu.A == 0) && cpu.N == Negative(cpu.A)
    ensures remaining == Spend(cycles, 4)
  {
    cpu.SP := cpu.SP + 1;
    cpu.A := memory.Read(cpu.SPToAddress());
    remaining := Spend(cycles, 4);
    cpu.UpdateZeroAndNegativeFlags(cpu.A);
  }

  /** 65C02 PLX: as PLA, into X. */
  method PLX(cpu: CPU, cycles: U32, memory: Mem) returns (remaining: U32)
    requires memory.Valid()
    modifies cpu`SP, cpu`X, cpu`Z, cpu`N
    ensures cpu.SP == old(cpu.SP) + 1
    ensures cpu.X == memory.Data[StackAddress(cpu.SP)]
    ensures cpu.Z == (cpu.X == 0) && cpu.N == Negative(cpu.X)
    ensures remaining == Spend(cycles, 4)
  {
    cpu.SP := cpu.SP + 1;
    cpu.X := memory.Read(cpu.SPToAddress());
    remaining := Spend(cycles, 4);
    cpu.UpdateZeroAndNegativeFlags(cpu.X);
  }

  /** 65C02 PLY: as PLA, into Y. */
  method PLY(cpu: CPU, cycles: U32, memory: Mem) returns (remaining: U32)
    requires memory.Valid()
    modifies cpu`SP, cpu`Y, cpu`Z, cpu`N
    ensures cpu.SP == old(cpu.SP) + 1
    ensures cpu.Y == memory.Data[StackAddress(cpu.SP)]
    ensures cpu.Z == (cpu.Y == 0) && cpu.N == Negative(cpu.Y)
    ensures remaining == Spend(cycles, 4)
  {
    cpu.SP := cpu.SP + 1;
    cpu.Y := memory.Read(cpu.SPToAddress());
    remaining := Spend(cycles, 4);
    cpu.UpdateZeroAndNegativeFlags(cpu.Y);
  }

  /** PLP: SP is incremented, then N, V, D, I, Z, C are taken from the pulled byte; B is untouched. */
  method PLP(cpu: CPU, cycles: U32, memory: Mem) returns (remaining: U32)
    requires memory.Valid()
    modifies cpu`SP, cpu`N, cpu`V, cpu`D, cpu`I, cpu`Z, cpu`C
    ensures cpu.SP == old(cpu.SP) + 1
    ensures cpu.Flags() == UnpackStatus(memory.Data[StackAddress(cpu.SP)])
    ensures remaining == Spend(cycles, 4)
  {
    cpu.SP := cpu.SP + 1;
    var status := memory.Read(cpu.SPToAddress());
    var s := UnpackStatus(status);
    cpu.N, cpu.V, cpu.D, cpu.I, cpu.Z, cpu.C := s.n, s.v, s.d, s.i, s.z, s.c;
    remaining := Spend(cycles, 4);
  }

  // ---------------------------------------------------------------
  // Logic and arithmetic
  // ---------------------------------------------------------------

  /** AND: A := A & M, Z/N from A. */
  method AND(cpu: CPU, cycles: U32, memory: Mem, address: Word) returns (remaining: U32)
    requires memory.Valid()
    modifies cpu`A, cpu`Z, cpu`N
    ensures cpu.A == old(cpu.A) & memory.Data[address]
    ensures cpu.Z == (cpu.A == 0) && cpu.N == Negative(cpu.A)
    ensures remaining == Spend(cycles, 1)
  {
    var value := memory.Read(address);
    remaining := Spend(cycles, 1);
    cpu.A := cpu.A & value;
    cpu.UpdateZeroAndNegativeFlags(cpu.A);
  }

  /** EOR: A := A ^ M, Z/N from A. */
  method EOR(cpu: CPU, cycles: U32, memory: Mem, address: Word) returns (remaining: U32)
    requires memory.Valid()
    modifies cpu`A, cpu`Z, cpu`N
    ensures cpu.A == old(cpu.A) ^ memory.Data[address]
    ensures cpu.Z == (cpu.A == 0) && cpu.N == Negative(cpu.A)
    ensures remaining == Spend(cycles, 1)
  {
    var value := memory.Read(address);
    remaining := Spend(cycles, 1);
    cpu.A := cpu.A ^ value;
    cpu.UpdateZeroAndNegativeFlags(cpu.A);
  }

  /** ORA: A := A | M, Z/N from A. */
  method ORA(cpu: CPU, cycles: U32, memory: Mem, address: Word) returns (remaining: U32)
    requires memory.Valid()
    modifies cpu`A, cpu`Z, cpu`N
    ensures cpu.A == old(cpu.A) | memory.Data[address]
    ensures cpu.Z == (cpu.A == 0) && cpu.N == Negative(cpu.A)
    ensures remaining == Spend(cycles, 1)
  {
    var value := memory.Read(address);
    remaining := Spend(cycles, 1);
    cpu.A := cpu.A | value;
    cpu.UpdateZeroAndNegativeFlags(cpu.A);
  }

  /** BIT: A is left unchanged; Z, N and V come from `BitTest(A, M)`. */
  method BIT(cpu: CPU, cycles: U32, memory: Mem, address: Word) returns (remaining: U32)
    requires memory.Valid()
    modifies cpu`Z, cpu`N, cpu`V
    ensures cpu.Z == BitTest(cpu.A, memory.Data[address]).zero
    ensures cpu.N == BitTest(cpu.A, memory.Data[address]).negative
    ensures cpu.V == BitTest(cpu.A, memory.Data[address]).overflow
    ensures remaining == Spend(cycles, 1)
  {
    var value := memory.Read(address);
    remaining := Spend(cycles, 1);
    var r := BitTest(cpu.A, value);
    cpu.Z, cpu.N, cpu.V := r.zero, r.negative, r.overflow;
  }

  /** ADC (binary only; D is ignored): A, C and V from `Adc(A, M, C)`, Z/N from the new A. */
  method ADC(cpu: CPU, cycles: U32, memory: Mem, address: Word) returns (remaining: U32)
    requires memory.Valid()
    modifies cpu`A, cpu`C, cpu`V, cpu`Z, cpu`N
    ensures cpu.A == Adc(old(cpu.A), memory.Data[address], old(cpu.C)).value
    ensures cpu.C == Adc(old(cpu.A), memory.Data[address], old(cpu.C)).carry
    ensures cpu.V == Adc(old(cpu.A), memory.Data[address], old(cpu.C)).overflow
    ensures cpu.Z == (cpu.A == 0) && cpu.N == Negative(cpu.A)
    ensures remaining == Spend(cycles, 1)
  {
    var value := memory.Read(address);
    remaining := Spend(cycles, 1);
    var r := Adc(cpu.A, value, cpu.C);
    cpu.UpdateCarryFlag(r.carry);
    cpu.UpdateOverflowFlag(r.overflow);
    cpu.A := r.value;
    cpu.UpdateZeroAndNegativeFlags(cpu.A);
  }

  /** SBC (binary only): A, C and V from `Sbc(A, M, C)`, Z/N from the new A. */
  method SBC(cpu: CPU, cycles: U32, memory: Mem, address: Word) returns (remaining: U32)
    requires memory.Valid()
    modifies cpu`A, cpu`C, cpu`V, cpu`Z, cpu`N
    ensures cpu.A == Sbc(old(cpu.A), memory.Data[address], old(cpu.C)).value
    ensures cpu.C == Sbc(old(cpu.A), memory.Data[address], old(cpu.C)).carry
    ensures cpu.V == Sbc(old(cpu.A), memory.Data[address], old(cpu.C)).overflow
    ensures cpu.Z == (cpu.A == 0) && cpu.N == Negative(cpu.A)
    ensures remaining == Spend(cycles, 1)
  {
    var value := memory.Read(address);
    remaining := Spend(cycles, 1);
    var r := Sbc(cpu.A, value, cpu.C);
    cpu.UpdateCarryFlag(r.carry);
    cpu.UpdateOverflowFlag(r.overflow);
    cpu.A := r.value;
    cpu.UpdateZeroAndNegativeFlags(cpu.A);
  }

  /** CMP: C, Z and N from `Compare(A, M)`; A is not written. */
  method CMP(cpu: CPU, cycles: U32, memory: Mem, address: Word) returns (remaining: U32)
    requires memory.Valid()
    modifies cpu`C, cpu`Z, cpu`N
    ensures cpu.C == Compare(cpu.A, memory.Data[address]).carry
    ensures cpu.Z == Compare(cpu.A, memory.Data[address]).zero
    ensures cpu.N == Compare(cpu.A, memory.Data[address]).negative
    ensures remaining == Spend(cycles, 1)
  {
    var value := memory.Read(address);
    remaining := Spend(cycles, 1);
    var r := Compare(cpu.A, value);
    cpu.C, cpu.Z, cpu.N := r.carry, r.zero, r.negative;
  }

  /** CPX: C, Z and N from `Compare(X, M)`; X is not written. */
  method CPX(cpu: CPU, cycles: U32, memory: Mem, address: Word) returns (remaining: U32)
    requires memory.Valid()
    modifies cpu`C, cpu`Z, cpu`N
    ensures cpu.C == Compare(cpu.X, memory.Data[address]).carry
    ensures cpu.Z == Compare(cpu.X, memory.Data[address]).zero
    ensures cpu.N == Compare(cpu.X, memory.Data[address]).negative
    ensures remaining == Spend(cycles, 1)
  {
    var value := memory.Read(address);
    remaining := Spend(cycles, 1);
    var r := Compare(cpu.X, value);
    cpu.C, cpu.Z, cpu.N := r.carry, r.zero, r.negative;
  }

  /** CPY: C, Z and N from `Compare(Y, M)`; Y is not written. */
  method CPY(cpu: CPU, cycles: U32, memory: Mem, address: Word) returns (remaining: U32)
    requires memory.Valid()
    modifies cpu`C, cpu`Z, cpu`N
    ensures cpu.C == Compare(cpu.Y, memory.Data[address]).carry
    ensures cpu.Z == Compare(cpu.Y, memory.Data[address]).zero
    ensures cpu.N == Compare(cpu.Y, memory.Data[address]).negative
    ensures remaining == Spend(cycles, 1)
  {
    var value := memory.Read(address);
    remaining := Spend(cycles, 1);
    var r := Compare(cpu.Y, value);
    cpu.C, cpu.Z, cpu.N := r.carry, r.zero, r.negative;
  }

  // ---------------------------------------------------------------
  // Increments and decrements
  // ---------------------------------------------------------------

  /** INC: M := M + 1 (wrapping), Z/N from the new byte, read and write cycles. */
  method INC(cpu: CPU, cycles: U32, memory: Mem, address: Word) returns (remaining: U32)
    requires memory.Valid()
    modifies cpu`Z, cpu`N, memory.Data
    ensures memory.Data[..] == old(memory.Data[..])[address := Increment(old(memory.Data[address]))]
    ensures cpu.Z == (memory.Data[address] == 0) && cpu.N == Negative(memory.Data[address])
    ensures remaining == Spend(cycles, 2)
  {
    var value := memory.Read(address);
    remaining := Spend(cycles, 1);
    value := Increment(value);
    memory.Write(address, value);
    SpendTwice(cycles, 1, 1);
    remaining := Spend(remaining, 1);
    cpu.UpdateZeroAndNegativeFlags(value);
  }

  /** DEC: M := M - 1 (wrapping), Z/N from the new byte, read and write cycles. */
  method DEC(cpu: CPU, cycles: U32, memory: Mem, address: Word) returns (remaining: U32)
    requires memory.Valid()
    modifies cpu`Z, cpu`N, memory.Data
    ensures memory.Data[..] == old(memory.Data[..])[address := Decrement(old(memory.Data[address]))]
    ensures cpu.Z == (memory.Data[address] == 0) && cpu.N == Negative(memory.Data[address])
    ensures remaining == Spend(cycles, 2)
  {
    var value := memory.Read(address);
    remaining := Spend(cycles, 1);
    value := Decrement(value);
    memory.Write(address, value);
    SpendTwice(cycles, 1, 1);
    remaining := Spend(remaining, 1);
    cpu.UpdateZeroAndNegativeFlags(value);
  }

  /** INX: X := X + 1 (wrapping), Z/N from X. */
  method INX(cpu: CPU, cycles: U32, memory: Mem) returns (remaining: U32)
    modifies cpu`X, cpu`Z, cpu`N
    ensures cpu.X == Increment(old(cpu.X))
    ensures cpu.Z == (cpu.X == 0) && cpu.N == Negative(cpu.X)
    ensures remaining == Spend(cycles, 1)
  {
    cpu.X := Increment(cpu.X);
    remaining := Spend(cycles, 1);
    cpu.UpdateZeroAndNegativeFlags(cpu.X);
  }

  /** INY: Y := Y + 1 (wrapping), Z/N from Y. */
  method INY(cpu: CPU, cycles: U32, memory: Mem) returns (remaining: U32)
    modifies cpu`Y, cpu`Z, cpu`N
    ensures cpu.Y == Increment(old(cpu.Y))
    ensures cpu.Z == (cpu.Y == 0) && cpu.N == Negative(cpu.Y)
    ensures remaining == Spend(cycles, 1)
  {
    cpu.Y := Increment(cpu.Y);
    remaining := Spend(cycles, 1);
    cpu.UpdateZeroAndNegativeFlags(cpu.Y);
  }

  /** DEX: X := X - 1 (wrapping), Z/N from X. */
  method DEX(cpu: CPU, cycles: U32, memory: Mem) returns (remaining: U32)
    modifies cpu`X, cpu`Z, cpu`N
    ensures cpu.X == Decrement(old(cpu.X))
    ensures cpu.Z == (cpu.X == 0) && cpu.N == Negative(cpu.X)
    ensures remaining == Spend(cycles, 1)
  {
    cpu.X := Decrement(cpu.X);
    remaining := Spend(cycles, 1);
    cpu.UpdateZeroAndNegativeFlags(cpu.X);
  }

  /** DEY: Y := Y - 1 (wrapping), Z/N from Y. */
  method DEY(cpu: CPU, cycles: U32, memory: Mem) returns (remaining: U32)
    modifies cpu`Y, cpu`Z, cpu`N
    ensures cpu.Y == Decrement(old(cpu.Y))
    ensures cpu.Z == (cpu.Y == 0) && cpu.N == Negative(cpu.Y)
    ensures remaining == Spend(cycles, 1)
  {
    cpu.Y := Decrement(cpu.Y);
    remaining := Spend(cycles, 1);
    cpu.UpdateZeroAndNegativeFlags(cpu.Y);
  }

  /** 65C02 INC A: A := A + 1 (wrapping), Z/N from A. */
  method INC_A(cpu: CPU, cycles: U32, memory: Mem) returns (remaining: U32)
    modifies cpu`A, cpu`Z, cpu`N
    ensures cpu.A == Increment(old(cpu.A))
    ensures cpu.Z == (cpu.A == 0) && cpu.N == Negative(cpu.A)
    ensures remaining == Spend(cycles, 1)
  {
    cpu.A := Increment(cpu.A);
    remaining := Spend(cycles, 1);
    cpu.UpdateZeroAndNegativeFlags(cpu.A);
  }

  /** 65C02 DEC A: A := A - 1 (wrapping), Z/N from A. */
  method DEC_A(cpu: CPU, cycles: U32, memory: Mem) returns (remaining: U32)
    modifies cpu`A, cpu`Z, cpu`N
    ensures cpu.A == Decrement(old(cpu.A))
    ensures cpu.Z == (cpu.A == 0) && cpu.N == Negative(cpu.A)
    ensures remaining == Spend(cycles, 1)
  {
    cpu.A := Decrement(cpu.A);
    remaining := Spend(cycles, 1);
    cpu.UpdateZeroAndNegativeFlags(cpu.A);
  }

  // ---------------------------------------------------------------
  // Shifts and rotates
  // ---------------------------------------------------------------

  /**
   * The operand of a shift (A, or the byte at `address`) and its result
   * land where the handler puts them: in A, with one cycle, or back in
   * memory, with a read and a write cycle. Z/N always come from the result
   * and C from the bit shifted out.
   */
  twostate predicate Shifted(cpu: CPU, memory: Mem, address: Word, accumulator: bool,
                             r: ShiftResult, cycles: U32, remaining: U32)
    requires old(memory.Valid()) && memory.Valid()
    reads cpu`A, cpu`C, cpu`Z, cpu`N, memory, memory.Data
  {
    && cpu.C == r.carry
    && cpu.Z == (r.value == 0) && cpu.N == Negative(r.value)
    && (accumulator ==>
          cpu.A == r.value && memory.Data[..] == old(memory.Data[..]) && remaining == Spend(cycles, 1))
    && (!accumulator ==>
          cpu.A == old(cpu.A) && memory.Data[..] == old(memory.Data[..])[address := r.value]
          && remaining == Spend(cycles, 2))
  }

  /** Stores a shift result where the handler puts it and sets C, Z and N. */
  method StoreShift(cpu: CPU, cycles: U32, memory: Mem, address: Word, accumulator: bool, r: ShiftResult)
    returns (remaining: U32)
    requires memory.Valid()
    modifies cpu`A, cpu`C, cpu`Z, cpu`N, memory.Data
    ensures Shifted(cpu, memory, address, accumulator, r, cycles, remaining)
  {
    cpu.UpdateCarryFlag(r.carry);
    if accumulator {
      cpu.A := r.value;
      remaining := Spend(cycles, 1);
    } else {
      memory.Write(address, r.value);
      SpendTwice(cycles, 1, 1);
      remaining := Spend(Spend(cycles, 1), 1);
    }
    cpu.UpdateZeroAndNegativeFlags(r.value);
  }

  /** ASL: the operand shifted left; bit 7 goes to C. */
  method ASL(cpu: CPU, cycles: U32, memory: Mem, address: Word, accumulator: bool) returns (remaining: U32)
    requires memory.Valid()
    modifies cpu`A, cpu`C, cpu`Z, cpu`N, memory.Data
    ensures Shifted(cpu, memory, address, accumulator,
                    Asl(if accumulator then old(cpu.A) else old(memory.Data[address])), cycles, remaining)
  {
    var value := if accumulator then cpu.A else memory.Read(address);
    remaining := StoreShift(cpu, cycles, memory, address, accumulator, Asl(value));
  }

  /** LSR: the operand shifted right; bit 0 goes to C. */
  method LSR(cpu: CPU, cycles: U32, memory: Mem, address: Word, accumulator: bool) returns (remaining: U32)
    requires memory.Valid()
    modifies cpu`A, cpu`C, cpu`Z, cpu`N, memory.Data
    ensures Shifted(cpu, memory, address, accumulator,
                    Lsr(if accumulator then old(cpu.A) else old(memory.Data[address])), cycles, remaining)
  {
    var value := if accumulator then cpu.A else memory.Read(address);
    remaining := StoreShift(cpu, cycles, memory, address, accumulator, Lsr(value));
  }

  /** ROL: the operand rotated left through C. */
  method ROL(cpu: CPU, cycles: U32, memory: Mem, address: Word, accumulator: bool) returns (remaining: U32)
    requires memory.Valid()
    modifies cpu`A, cpu`C, cpu`Z, cpu`N, memory.Data
    ensures Shifted(cpu, memory, address, accumulator,
                    Rol(if accumulator then old(cpu.A) else old(memory.Data[address]), old(cpu.C)),
                    cycles, remaining)
  {
    var value := if accumulator then cpu.A else memory.Read(address);
    remaining := StoreShift(cpu, cycles, memory, address, accumulator, Rol(value, cpu.C));
  }

  /** ROR: the operand rotated right through C. */
  method ROR(cpu: CPU, cycles: U32, memory: Mem, address: Word, accumulator: bool) returns (remaining: U32)
    requires memory.Valid()
    modifies cpu`A, cpu`C, cpu`Z, cpu`N, memory.Data
    ensures Shifted(cpu, memory, address, accumulator,
                    Ror(if accumulator then old(cpu.A) else old(memory.Data[address]), old(cpu.C)),
                    cycles, remaining)
  {
    var value := if accumulator then cpu.A else memory.Read(address);
    remaining := StoreShift(cpu, cycles, memory, address, accumulator, Ror(value, cpu.C));
  }

  // ---------------------------------------------------------------
  // Jumps, returns and branches
  // ---------------------------------------------------------------

  /** JMP: PC := the effective address; the addressing mode already charged the cycles. */
  method JMP(cpu: CPU, cycles: U32, memory: Mem, address: Word) returns (remaining: U32)
    modifies cpu`PC
    ensures cpu.PC == address
    ensures remaining == cycles
  {
    cpu.PC := address;
    remaining := cycles;
  }

  /**
   * RTS: pulls the low then the high byte of the return address from the
   * two stack cells above SP and resumes one past it; five cycles.
   */
  method RTS(cpu: CPU, cycles: U32, memory: Mem) returns (remaining: U32)
    requires memory.Valid()
    modifies cpu`SP, cpu`PC
    ensures cpu.SP == old(cpu.SP) + 2
    ensures cpu.PC == (MakeWord(memory.Data[StackAddress(old(cpu.SP) + 1)],
                                memory.Data[StackAddress(old(cpu.SP) + 2)]) + 1) % WORD_MOD
    ensures remaining == Spend(cycles, 5)
  {
    cpu.SP := cpu.SP + 1;
    var lo := memory.Read(StackAddress(cpu.SP));
    cpu.SP := cpu.SP + 1;
    var hi := memory.Read(StackAddress(cpu.SP));
    cpu.PC := (MakeWord(lo, hi) + 1) % WORD_MOD;
    remaining := Spend(cycles, 5);
  }

  /**
   * RTI: pulls the status (restoring N, V, D, I, Z, C), then the low and the
   * high byte of PC, from the three stack cells above SP; four cycles.
   */
  method RTI(cpu: CPU, cycles: U32, memory: Mem) returns (remaining: U32)
    requires memory.Valid()
    modifies cpu`SP, cpu`PC, cpu`N, cpu`V, cpu`D, cpu`I, cpu`Z, cpu`C
    ensures cpu.SP == old(cpu.SP) + 3
    ensures cpu.Flags() == UnpackStatus(memory.Data[StackAddress(old(cpu.SP) + 1)])
    ensures Lo(cpu.PC) == memory.Data[StackAddress(old(cpu.SP) + 2)]
    ensures Hi(cpu.PC) == memory.Data[StackAddress(old(cpu.SP) + 3)]
    ensures remaining == Spend(cycles, 4)
  {
    var sp0 := cpu.SP;
    var status := memory.Read(StackAddress(sp0 + 1));
    var lo := memory.Read(StackAddress(sp0 + 2));
    var hi := memory.Read(StackAddress(sp0 + 3));
    var s := UnpackStatus(status);
    cpu.N, cpu.V, cpu.D, cpu.I, cpu.Z, cpu.C := s.n, s.v, s.d, s.i, s.z, s.c;
    cpu.SP := sp0 + 3;
    cpu.PC := MakeWord(lo, hi);
    remaining := Spend(cycles, 4);
  }

  /** The cycles a relative branch spends after fetching its offset. */
  function BranchCost(taken: bool, from: Word, to: Word): (n: nat)
    ensures n <= 3
    ensures !taken ==> n == 1
    ensures taken ==> (n == 3 <==> Addressing.PagesCross(from, to))
  {
    if !taken then 1 else if Addressing.PagesCross(from, to) then 3 else 2
  }

  /**
   * Relative branch: fetch the signed offset; when taken, PC := PC + offset
   * (wrapping), one more cycle, and another when the target is on another
   * page than the byte after the instruction.
   */
  method Branch(cpu: CPU, cycles: U32, memory: Mem, condition: bool) returns (remaining: U32)
    requires memory.Valid()
    modifies cpu`PC
    ensures cpu.PC == if condition then BranchTarget((old(cpu.PC) + 1) % WORD_MOD, memory.Data[old(cpu.PC)])
                      else (old(cpu.PC) + 1) % WORD_MOD
    ensures remaining == Spend(ConsumeCycles(cycles, 1),
                               BranchCost(condition, (old(cpu.PC) + 1) % WORD_MOD, cpu.PC))
  {
    var offset, c := cpu.FetchByte(cycles, memory);
    remaining := Spend(c, 1);
    if condition {
      var oldPC := cpu.PC;
      cpu.PC := BranchTarget(cpu.PC, offset);
      SpendTwice(c, 1, 1);
      remaining := Spend(remaining, 1);
      if Addressing.PagesCross(oldPC, cpu.PC) {
        SpendTwice(c, 2, 1);
        remaining := Spend(remaining, 1);
      }
    }
  }

  /**
   * 65C02 BBRn/BBSn: fetch a zero-page address, test bit `bit` of the byte
   * there (one cycle), then branch on it as `Branch` does.
   */
  method BBR_BBS(cpu: CPU, cycles: U32, memory: Mem, bit: nat, branchOnSet: bool) returns (remaining: U32)
    requires memory.Valid() && bit < 8
    modifies cpu`PC
    ensures var zp := memory.Data[old(cpu.PC)];
            var taken := BitBranchTaken(memory.Data[zp as int], bit, branchOnSet);
            var next := (old(cpu.PC) + 2) % WORD_MOD;
            cpu.PC == if taken then BranchTarget(next, memory.Data[(old(cpu.PC) + 1) % WORD_MOD]) else next
    ensures var zp := memory.Data[old(cpu.PC)];
            var taken := BitBranchTaken(memory.Data[zp as int], bit, branchOnSet);
            remaining == Spend(ConsumeCycles(Spend(ConsumeCycles(cycles, 1), 1), 1),
                               BranchCost(taken, (old(cpu.PC) + 2) % WORD_MOD, cpu.PC))
  {
    ghost var pc0 := cpu.PC;
    var zp, c := cpu.FetchByte(cycles, memory);
    var value := memory.Read(zp as int);
    c := Spend(c, 1);
    var taken := BitBranchTaken(value, bit, branchOnSet);
    ghost var pc1 := cpu.PC;
    assert (pc1 + 1) % WORD_MOD == (pc0 + 2) % WORD_MOD;
    remaining := Branch(cpu, c, memory, taken);
  }

  // ---------------------------------------------------------------
  // Flags and system instructions
  // ---------------------------------------------------------------

  /** CLC: C := 0. */
  method CLC(cpu: CPU, cycles: U32, memory: Mem) returns (remaining: U32)
    modifies cpu`C
    ensures !cpu.C && remaining == Spend(cycles, 1)
  {
    cpu.C := false;
    remaining := Spend(cycles, 1);
  }

  /** CLD: D := 0. */
  method CLD(cpu: CPU, cycles: U32, memory: Mem) returns (remaining: U32)
    modifies cpu`D
    ensures !cpu.D && remaining == Spend(cycles, 1)
  {
    cpu.D := false;
    remaining := Spend(cycles, 1);
  }

  /** CLI: I := 0. */
  method CLI(cpu: CPU, cycles: U32, memory: Mem) returns (remaining: U32)
    modifies cpu`I
    ensures !cpu.I && remaining == Spend(cycles, 1)
  {
    cpu.I := false;
    remaining := Spend(cycles, 1);
  }

  /** CLV: V := 0. */
  method CLV(cpu: CPU, cycles: U32, memory: Mem) returns (remaining: U32)
    modifies cpu`V
    ensures !cpu.V && remaining == Spend(cycles, 1)
  {
    cpu.V := false;
    remaining := Spend(cycles, 1);
  }

  /** SEC: C := 1. */
  method SEC(cpu: CPU, cycles: U32, memory: Mem) returns (remaining: U32)
    modifies cpu`C
    ensures cpu.C && remaining == Spend(cycles, 1)
  {
    cpu.C := true;
    remaining := Spend(cycles, 1);
  }

  /** SED: D := 1 (no decimal arithmetic follows from it). */
  method SED(cpu: CPU, cycles: U32, memory: Mem) returns (remaining: U32)
    modifies cpu`D
    ensures cpu.D && remaining == Spend(cycles, 1)
  {
    cpu.D := true;
    remaining := Spend(cycles, 1);
  }

  /** SEI: I := 1. */
  method SEI(cpu: CPU, cycles: U32, memory: Mem) returns (remaining: U32)
    modifies cpu`I
    ensures cpu.I && remaining == Spend(cycles, 1)
  {
    cpu.I := true;
    remaining := Spend(cycles, 1);
  }

  /** BRK as this emulator runs it: a stop, skipping the padding byte and ending the time slice. */
  method BRK(cpu: CPU, cycles: U32, memory: Mem) returns (remaining: U32)
    modifies cpu`PC
    ensures cpu.PC == (old(cpu.PC) + 2) % WORD_MOD
    ensures remaining == 0
  {
    cpu.PC := (cpu.PC + 2) % WORD_MOD;
    remaining := 0;
  }

  /** NOP: one cycle, nothing else. */
  method NOP(cpu: CPU, cycles: U32, memory: Mem) returns (remaining: U32)
    ensures remaining == Spend(cycles, 1)
  {
    remaining := Spend(cycles, 1);
  }

  /** 65C02 STP: ends the time slice. */
  method STP(cpu: CPU, cycles: U32, memory: Mem) returns (remaining: U32)
    ensures remaining == 0
  {
    remaining := 0;
  }

  /** 65C02 WAI: ends the time slice. */
  method WAI(cpu: CPU, cycles: U32, memory: Mem) returns (remaining: U32)
    ensures remaining == 0
  {
    remaining := 0;
  }

  // ---------------------------------------------------------------
  // 65C02 bit operations
  // ---------------------------------------------------------------

  /** TSB: Z from `(M & A) == 0` on the old M; M := M | A; A is unchanged. */
  method TSB(cpu: CPU, cycles: U32, memory: Mem, address: Word) returns (remaining: U32)
    requires memory.Valid()
    modifies cpu`Z, memory.Data
    ensures cpu.Z == BitTest(cpu.A, old(memory.Data[address])).zero
    ensures memory.Data[..] == old(memory.Data[..])[address := Tsb(cpu.A, old(memory.Data[address]))]
    ensures remaining == Spend(cycles, 2)
  {
    var value := memory.Read(address);
    remaining := Spend(cycles, 1);
    cpu.Z := value & cpu.A == 0;
    memory.Write(address, Tsb(cpu.A, value));
    SpendTwice(cycles, 1, 1);
    remaining := Spend(remaining, 1);
  }

  /** TRB: Z from `(M & A) == 0` on the old M; M := M & ~A; A is unchanged. */
  method TRB(cpu: CPU, cycles: U32, memory: Mem, address: Word) returns (remaining: U32)
    requires memory.Valid()
    modifies cpu`Z, memory.Data
    ensures cpu.Z == BitTest(cpu.A, old(memory.Data[address])).zero
    ensures memory.Data[..] == old(memory.Data[..])[address := Trb(cpu.A, old(memory.Data[address]))]
    ensures remaining == Spend(cycles, 2)
  {
    var value := memory.Read(address);
    remaining := Spend(cycles, 1);
    cpu.Z := value & cpu.A == 0;
    memory.Write(address, Trb(cpu.A, value));
    SpendTwice(cycles, 1, 1);
    remaining := Spend(remaining, 1);
  }

  /** RMBn: clears bit `bit` of the zero-page byte; read and write cycles. */
  method RMB(cpu: CPU, cycles: U32, memory: Mem, zpAddr: bv8, bit: nat) returns (remaining: U32)
    requires memory.Valid() && bit < 8
    modifies memory.Data
    ensures memory.Data[..] == old(memory.Data[..])[zpAddr as int := ResetBit(old(memory.Data[zpAddr as int]), bit)]
    ensures remaining == Spend(cycles, 2)
  {
    var value := memory.Read(zpAddr as int);
    remaining := Spend(cycles, 1);
    memory.Write(zpAddr as int, ResetBit(value, bit));
    SpendTwice(cycles, 1, 1);
    remaining := Spend(remaining, 1);
  }

  /** SMBn: sets bit `bit` of the zero-page byte; read and write cycles. */
  method SMB(cpu: CPU, cycles: U32, memory: Mem, zpAddr: bv8, bit: nat) returns (remaining: U32)
    requires memory.Valid() && bit < 8
    modifies memory.Data
    ensures memory.Data[..] == old(memory.Data[..])[zpAddr as int := SetBit(old(memory.Data[zpAddr as int]), bit)]
    ensures remaining == Spend(cycles, 2)
  {
    var value := memory.Read(zpAddr as int);
    remaining := Spend(cycles, 1);
    memory.Write(zpAddr as int, SetBit(value, bit));
    SpendTwice(cycles, 1, 1);
    remaining := Spend(remaining, 1);
  }

  // ---------------------------------------------------------------
  // Round trips through the stack
  // ---------------------------------------------------------------

  /**
   * PHA then PLA: the pull reads the cell the push wrote, so A comes back,
   * SP returns to its value before the push, and the one cell changed is the
   * stack cell the push wrote.
   */
  method PushPullRoundTrip(cpu: CPU, cycles: U32, memory: Mem) returns (remaining: U32)
    requires memory.Valid()
    modifies cpu`SP, cpu`A, cpu`Z, cpu`N, memory.Data
    ensures cpu.A == old(cpu.A) && cpu.SP == old(cpu.SP)
    ensures memory.Data[..] == old(memory.Data[..])[StackAddress(old(cpu.SP)) := old(cpu.A)]
    ensures remaining == Spend(cycles, 7)
  {
    var c := PHA(cpu, cycles, memory);
    remaining := PLA(cpu, c, memory);
    SpendTwice(cycles, 3, 4);
  }

  /** PHP then PLP: the flags come back as they were (bits 4 and 5 of the pushed byte are dropped). */
  lemma PhpPlpRoundTrip(flags: Status)
    ensures UnpackStatus(PackStatus(flags, true)) == flags
  {
    UnpackPackStatus(flags, true);
  }

  /**
   * RTI after interrupt entry: with the stack as entry left it (PCH, PCL and
   * the packed status pushed from `sp0`, SP three lower), RTI's pulls give
   * back the flags and the interrupted PC, and SP returns to `sp0`.
   */
  lemma {:induction false} ReturnFromInterrupt(before: seq<bv8>, sp0: bv8, pc0: Word, flags: Status, b: bool, pc: Word)
    requires |before| == MEM_SIZE
    requires var after := PushThree(before, sp0, Hi(pc0), Lo(pc0), PackStatus(flags, b));
             Lo(pc) == after[StackAddress(sp0 - 3 + 2)] && Hi(pc) == after[StackAddress(sp0 - 3 + 3)]
    ensures (sp0 - 3) + 3 == sp0
    ensures UnpackStatus(PushThree(before, sp0, Hi(pc0), Lo(pc0), PackStatus(flags, b))[StackAddress(sp0 - 3 + 1)]) == flags
    ensures pc == pc0
  {
    var status := PackStatus(flags, b);
    PushThreeLayout(before, sp0, Hi(pc0), Lo(pc0), status);
    assert sp0 - 3 + 1 == sp0 - 2 && sp0 - 3 + 2 == sp0 - 1 && sp0 - 3 + 3 == sp0;
    UnpackPackStatus(flags, b);
    WordOfBytes(pc);
    WordOfBytes(pc0);
  }
}
