/*
 * The CPU object of src/cpu/cpu.cpp: the registers and flags, the
 * saturating cycle counter, instruction fetch, the stack-page address and
 * interrupt entry.
 *
 * The emulator's handlers, fetches and interrupt entry go through the
 * `SystemMap` bus and report each access to an attached debugger. Here they
 * all go to one flat 64 KB `Mem` instead, and no access is reported.
 */
module Cpu {
  import opened Bits
  import opened Alu
  import opened Memory
  import opened Interrupts
  import Bus

  /**
   * `ConsumeCycles`: subtracts `amount` from the budget without going below
   * zero.
   */
  function ConsumeCycles(cycles: U32, amount: U32): (r: U32)
    ensures r <= cycles
    ensures r == 0 <==> cycles <= amount
    ensures r != 0 ==> r + amount == cycles
  {
    if cycles > amount then cycles - amount else 0
  }

  /**
   * The unguarded `cycles -= n` of the instruction handlers on a `u32`: the
   * budget wraps around below zero instead of stopping there.
   */
  function Spend(cycles: U32, n: nat): (r: U32)
    requires n <= 8
    ensures n <= cycles ==> r == cycles - n
    ensures cycles < n ==> r == cycles - n + U32_MOD
  {
    (cycles - n) % U32_MOD
  }

  /**
   * Two unguarded decrements in a row are one: `u32` wrap-around composes,
   * so a handler that decrements in several steps spends their sum.
   */
  lemma SpendTwice(cycles: U32, a: nat, b: nat)
    requires a + b <= 8
    ensures Spend(Spend(cycles, a), b) == Spend(cycles, a + b)
  {
    var first := Spend(cycles, a);
    if a <= cycles {
      assert first == cycles - a;
    } else {
      assert first == cycles - a + U32_MOD;
      assert b <= first;
    }
  }

  /** `0x0100 | sp`: the stack lives in page 1. */
  function StackAddress(sp: bv8): (a: Word)
    ensures STACK_START <= a <= STACK_END
    ensures a == 0x0100 + sp as int
  {
    ByteRange(sp);
    0x0100 + sp as int
  }

  /** The three stack writes of interrupt entry, from the stack pointer `sp` downwards. */
  function PushThree(mem: seq<bv8>, sp: bv8, first: bv8, second: bv8, third: bv8): seq<bv8>
    requires |mem| == MEM_SIZE
  {
    mem[StackAddress(sp) := first][StackAddress(sp - 1) := second][StackAddress(sp - 2) := third]
  }

  /**
   * Interrupt entry pushes the return address high byte first and the status
   * last: the three bytes land on three distinct stack cells, just above the
   * new stack pointer, and nothing outside the stack page changes.
   */
  lemma PushThreeLayout(mem: seq<bv8>, sp: bv8, first: bv8, second: bv8, third: bv8)
    requires |mem| == MEM_SIZE
    ensures |PushThree(mem, sp, first, second, third)| == MEM_SIZE
    ensures PushThree(mem, sp, first, second, third)[StackAddress(sp - 2)] == third
    ensures PushThree(mem, sp, first, second, third)[StackAddress(sp - 1)] == second
    ensures PushThree(mem, sp, first, second, third)[StackAddress(sp)] == first
    ensures forall a :: 0 <= a < MEM_SIZE && !(STACK_START <= a <= STACK_END) ==>
              PushThree(mem, sp, first, second, third)[a] == mem[a]
  {
    assert sp != sp - 1 && sp - 1 != sp - 2 && sp != sp - 2;
    IntOfByte(sp);
    IntOfByte(sp - 1);
    IntOfByte(sp - 2);
  }

  class CPU {
    var PC: Word
    var SP: bv8
    var A: bv8
    var X: bv8
    var Y: bv8
    var C: bool
    var Z: bool
    var I: bool
    var D: bool
    var B: bool
    var V: bool
    var N: bool
    var interruptController: InterruptController?
    /** The devices registered with the CPU, in registration order. */
    var ioDevices: seq<Bus.Device>
    /** The bus the device list was last synchronised with, if any. */
    var attachedBus: Bus.SystemMap?

    /** A CPU whose registers and flags are all zero, with no controller, devices or bus attached. */
    constructor()
      ensures PC == 0 && SP == 0 && A == 0 && X == 0 && Y == 0
      ensures !C && !Z && !I && !D && !B && !V && !N
      ensures interruptController == null && ioDevices == [] && attachedBus == null
    {
      PC, SP, A, X, Y := 0, 0, 0, 0, 0;
      C, Z, I, D, B, V, N := false, false, false, false, false, false, false;
      interruptController := null;
      ioDevices := [];
      attachedBus := null;
    }

    /**
     * Adds a device to the CPU's list unless it is null or already there, and
     * passes the registration on to the attached bus.
     */
    method RegisterIODevice(device: Option<Bus.Device>)
      requires attachedBus != null ==> attachedBus.Valid() && this !in attachedBus.Repr
      requires attachedBus != null && device.Some? ==>
        Bus.DeviceValid(device.value) &&
        attachedBus.ram !in Bus.DeviceFrame(device.value) && attachedBus.rom !in Bus.DeviceFrame(device.value)
      modifies this`ioDevices, attachedBus
      ensures ioDevices == (if device.Some? then Bus.WithDevice(old(ioDevices), device.value) else old(ioDevices))
      ensures attachedBus != null ==> attachedBus.Valid()
      ensures attachedBus != null ==>
          attachedBus.externalDevices ==
            (if device.Some? then Bus.WithDevice(old(attachedBus.externalDevices), device.value)
             else old(attachedBus.externalDevices))
    {
      if device.Some? {
        ioDevices := Bus.AddIfAbsent(ioDevices, device.value);
        if attachedBus != null {
          attachedBus.RegisterIODevice(device);
        }
      }
    }

    /** Removes every occurrence of a device from the CPU's list and from the attached bus. */
    method UnregisterIODevice(device: Option<Bus.Device>)
      requires attachedBus != null ==> attachedBus.Valid() && this !in attachedBus.Repr
      modifies this`ioDevices, attachedBus
      ensures ioDevices == (if device.Some? then Bus.WithoutDevice(old(ioDevices), device.value) else old(ioDevices))
      ensures attachedBus != null ==> attachedBus.Valid()
      ensures attachedBus != null ==>
          attachedBus.externalDevices ==
            (if device.Some? then Bus.WithoutDevice(old(attachedBus.externalDevices), device.value)
             else old(attachedBus.externalDevices))
    {
      if device.Some? {
        ioDevices := Bus.RemoveAll(ioDevices, device.value);
        if attachedBus != null {
          attachedBus.UnregisterIODevice(device);
        }
      }
    }

    /** The six flags that the status byte carries besides B. */
    function Flags(): (s: Status)
      reads this`N, this`V, this`D, this`I, this`Z, this`C, this`B
      ensures var p := PackStatus(s, B);
        BitOf(p, 7) == N && BitOf(p, 6) == V && BitOf(p, 3) == D && BitOf(p, 2) == I && BitOf(p, 1) == Z && BitOf(p, 0) == C
      ensures UnpackStatus(PackStatus(s, B)) == s
    {
      UnpackPackStatus(Status(N, V, D, I, Z, C), B);
      Status(N, V, D, I, Z, C)
    }

    /** `SPToAddress`: the address the next push writes to. */
    function SPToAddress(): (a: Word)
      reads this`SP
      ensures STACK_START <= a <= STACK_END && a == 0x0100 + SP as int
    {
      StackAddress(SP)
    }

    /** Attaches (or, with null, detaches) the interrupt controller. */
    method SetInterruptController(controller: InterruptController?)
      modifies this`interruptController
      ensures interruptController == controller
    {
      interruptController := controller;
    }

    /** `FetchByte`: the byte at PC; PC moves on by one and one cycle is consumed. */
    method FetchByte(cycles: U32, memory: Mem) returns (data: bv8, remaining: U32)
      requires memory.Valid()
      modifies this`PC
      ensures data == memory.Data[old(PC)]
      ensures PC == (old(PC) + 1) % WORD_MOD
      ensures remaining == ConsumeCycles(cycles, 1)
    {
      data := memory.Read(PC);
      PC := (PC + 1) % WORD_MOD;
      remaining := ConsumeCycles(cycles, 1);
    }

    /** `FetchWord`: the little-endian word at PC; PC moves on by two and two cycles are consumed. */
    method FetchWord(cycles: U32, memory: Mem) returns (data: Word, remaining: U32)
      requires memory.Valid()
      modifies this`PC
      ensures Lo(data) == memory.Data[old(PC)]
      ensures Hi(data) == memory.Data[(old(PC) + 1) % WORD_MOD]
      ensures PC == (old(PC) + 2) % WORD_MOD
      ensures remaining == ConsumeCycles(cycles, 2)
    {
      var lo := memory.Read(PC);
      PC := (PC + 1) % WORD_MOD;
      var hi := memory.Read(PC);
      PC := (PC + 1) % WORD_MOD;
      data := MakeWord(lo, hi);
      remaining := ConsumeCycles(cycles, 2);
    }

    /** Z from `value == 0` and N from bit 7. */
    method UpdateZeroAndNegativeFlags(value: bv8)
      modifies this`Z, this`N
      ensures Z <==> value == 0
      ensures N == Negative(value)
    {
      Z := value == 0;
      N := value & 0x80 != 0;
    }

    /** `UpdateCarryFlag`: C := carry. */
    method UpdateCarryFlag(carry: bool)
      modifies this`C
      ensures C == carry
    {
      C := carry;
    }

    /** `UpdateOverflowFlag`: V := overflow. */
    method UpdateOverflowFlag(overflow: bool)
      modifies this`V
      ensures V == overflow
    {
      V := overflow;
    }

    /** The `pushStack` step of interrupt entry: write at `0x0100 | SP`, then decrement SP. */
    method PushStack(memory: Mem, value: bv8)
      requires memory.Valid()
      modifies this`SP, memory.Data
      ensures memory.Data[..] == old(memory.Data[..])[StackAddress(old(SP)) := value]
      ensures SP == old(SP) - 1
    {
      memory.Write(SPToAddress(), value);
      SP := SP - 1;
    }

    /** The three pushes of interrupt entry: PCH, PCL, then the status byte. */
    method PushInterruptFrame(memory: Mem, pcHigh: bv8, pcLow: bv8, status: bv8)
      requires memory.Valid()
      modifies this`SP, memory.Data
      ensures memory.Data[..] == PushThree(old(memory.Data[..]), old(SP), pcHigh, pcLow, status)
      ensures SP == old(SP) - 3
    {
      ghost var m0, sp0 := memory.Data[..], SP;
      PushStack(memory, pcHigh);
      PushStack(memory, pcLow);
      assert memory.Data[..] == m0[StackAddress(sp0) := pcHigh][StackAddress(sp0 - 1) := pcLow];
      assert SP == sp0 - 2;
      PushStack(memory, status);
    }

    /** `PC = (hi << 8) | lo` with lo at `vector` and hi at `vector + 1`. */
    method LoadVector(memory: Mem, vector: Word)
      requires memory.Valid() && vector < 0xFFFF
      modifies this`PC
      ensures Lo(PC) == memory.Data[vector] && Hi(PC) == memory.Data[vector + 1]
    {
      var lo := memory.Read(vector);
      var hi := memory.Read(vector + 1);
      PC := MakeWord(lo, hi);
    }

    /**
     * The state that interrupt entry through `vector` leaves behind, given
     * the memory, SP, PC and packed status before it: PCH, PCL and the status
     * pushed below the old stack pointer, SP three lower, I set, and PC the
     * little-endian word stored at `vector`.
     */
    predicate Entered(before: seq<bv8>, sp0: bv8, pc0: Word, status: bv8, memory: Mem, vector: Word)
      requires |before| == MEM_SIZE && memory.Valid() && vector < 0xFFFF
      reads this`PC, this`SP, this`I, memory, memory.Data
    {
      && memory.Data[..] == PushThree(before, sp0, Hi(pc0), Lo(pc0), status)
      && SP == sp0 - 3 && I
      && Lo(PC) == memory.Data[vector] && Hi(PC) == memory.Data[vector + 1]
    }

    /** Interrupt entry did not happen: the registers it touches and the memory are as they were. */
    twostate predicate NotEntered(memory: Mem)
      reads this`PC, this`SP, this`I, memory, memory.Data
    {
      PC == old(PC) && SP == old(SP) && I == old(I) && memory.Data[..] == old(memory.Data[..])
    }

    /**
     * Pushes PCH, PCL and the packed status, sets I, loads PC from the
     * little-endian vector and acknowledges the interrupt kind that was
     * serviced.
     */
    method ServiceInterrupt(memory: Mem, vector: Word, isNMI: bool)
      requires memory.Valid() && vector < 0xFFFF
      requires interruptController != null
      modifies this`PC, this`SP, this`I, memory.Data, interruptController.sources
      ensures Entered(old(memory.Data[..]), old(SP), old(PC), PackStatus(old(Flags()), B), memory, vector)
      ensures isNMI ==> forall s :: s in interruptController.sources ==> !s.nmi && s.irq == old(s.irq)
      ensures !isNMI ==> forall s :: s in interruptController.sources ==> !s.irq && s.nmi == old(s.nmi)
    {
      var status := PackStatus(Flags(), B);
      PushInterruptFrame(memory, Hi(PC), Lo(PC), status);
      I := true;
      LoadVector(memory, vector);
      if isNMI {
        interruptController.AcknowledgeNMI();
      } else {
        interruptController.AcknowledgeIRQ();
      }
    }

    /**
     * `checkAndHandleInterrupts`: with no controller nothing happens. A
     * pending NMI is serviced whatever I says and takes priority; IRQs stay
     * pending meanwhile. Otherwise a pending IRQ is serviced only when I is
     * clear; a masked IRQ changes nothing and stays pending.
     */
    method CheckAndHandleInterrupts(memory: Mem)
      requires memory.Valid()
      modifies this`PC, this`SP, this`I, memory.Data
      modifies if interruptController == null then [] else interruptController.sources
      ensures interruptController == null ==> NotEntered(memory)
      ensures interruptController != null && old(interruptController.PendingNMI()) ==>
        && Entered(old(memory.Data[..]), old(SP), old(PC), PackStatus(old(Flags()), B), memory, NMI_VECTOR)
        && (forall s :: s in interruptController.sources ==> !s.nmi && s.irq == old(s.irq))
      ensures interruptController != null && !old(interruptController.PendingNMI())
              && old(interruptController.PendingIRQ()) && !old(I) ==>
        && Entered(old(memory.Data[..]), old(SP), old(PC), PackStatus(old(Flags()), B), memory, IRQ_VECTOR)
        && (forall s :: s in interruptController.sources ==> !s.irq && s.nmi == old(s.nmi))
      ensures interruptController != null && !old(interruptController.PendingNMI())
              && (!old(interruptController.PendingIRQ()) || old(I)) ==>
        && NotEntered(memory)
        && interruptController.PendingIRQ() == old(interruptController.PendingIRQ())
        && interruptController.PendingNMI() == old(interruptController.PendingNMI())
    {
      if interruptController == null {
        return;
      }
      if interruptController.PendingNMI() {
        ServiceInterrupt(memory, NMI_VECTOR, true);
        return;
      }
      if interruptController.PendingIRQ() && !I {
        ServiceInterrupt(memory, IRQ_VECTOR, false);
      }
    }
  }
}
