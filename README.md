# cpu6502 in Dafny

A verified model of the core of the cpu6502 emulator: a 6502/65C02 CPU with its
instruction handlers, addressing modes, interrupt entry and 256-entry dispatch table,
the constant opcode metadata table, the 64 KB memory, the `SystemMap` bus, the
memory-mapped devices, the interrupt controller and the debugger. It also models the two
ROM tools that inject the Woz monitor into a ROM image and patch a `JMP $FF24` into it.

Modules, one per file:

| module | file | models |
|---|---|---|
| `Bits` | bits.dfy | bytes (`bv8`), 16- and 32-bit words as ints with explicit wrap-around, little-endian words, signed offsets |
| `Memory` | memory.dfy | `Mem`: the 64 KB array and the memory map constants |
| `Alu` | alu.dfy | the flag arithmetic of ADC, SBC, CMP, BIT, shifts, rotates, TSB/TRB, RMB/SMB, BBR/BBS, status packing and branch targets, as functions |
| `Cpu` | cpu.dfy | `CPU`: registers, flags, the cycle budget, fetches, the stack page, NMI/IRQ entry and the I/O device list |
| `Addressing` | addressing.dfy | every addressing mode, including the zero-page wrap and the JMP-indirect page bug |
| `Instructions` | instructions.dfy | every instruction handler as a method on the CPU and memory |
| `Dispatch` | dispatch.dfy | the handler table, its agreement with the metadata table, and one instruction step |
| `InstructionSet` | instruction_set.dfy | the 256-entry opcode metadata table and its lookup functions |
| `Interrupts` | interrupts.dfy | interrupt sources and the interrupt controller |
| `Bus` | system_map.dfy | `SystemMap` decoding over RAM, ROM, the C64 I/O block and registered devices |
| `TextScreens` | text_screen.dfy | the 40x24 text screen |
| `Timers` | basic_timer.dfy | the 32-bit basic timer |
| `PiaDevice` | pia.dfy | the PIA 6821 keyboard and display |
| `AciaDevice` | acia.dfy | the ACIA 6551 |
| `ViaPort` | via_port.dfy | the VIA port with its data-direction register |
| `C64Io` | c64_io.dfy | the C64 keyboard and screen I/O |
| `AppleIo` | apple_io.dfy | the Apple I keyboard and display I/O |
| `Files` | file_device.dfy | the file device's registers, file-name buffer and load/save range checks |
| `Debugging` | debugger.dfy | breakpoints, watchpoints, the access log and the trace |
| `RomTools` | rom_tools.dfy | the two Python ROM tools, over a map from paths to byte strings |

State that the C++ changes in place is a Dafny `class`: `Mem`, `CPU`, `SystemMap`,
`InterruptController`, every device, `Debugger`. Its methods carry `modifies` clauses and
state the whole new state. Bit twiddling and table lookups are functions with lemmas beside
them. Bytes are `bv8`. The 16- and 32-bit quantities are bounded `int`s, and every
wrap-around is written out (`% 0x10000`, `% 0x1_0000_0000`). This includes the handlers'
unguarded `cycles--` on an unsigned 32-bit budget, which is `Cpu.Spend`.

In the states column, "the budget" is the unsigned 32-bit cycle count that a handler
receives by reference.

## Model

| member | source | states |
|---|---|---|
| Bits.MakeWord | src/cpu/cpu.cpp:76-87 | the little-endian word built from a low and a high byte gives those bytes back through `Lo` and `Hi` |
| Bits.WordOfBytes | src/cpu/cpu.cpp:76-87 | every 16-bit word is the little-endian join of its own low and high byte, so `MakeWord` inverts `Lo`/`Hi` |
| Bits.Signed | src/cpu/instructions.cpp:438-455 | the `int8_t` reading of a byte: in -128..127, congruent to the byte mod 256, negative exactly when bit 7 is set |
| Memory.Mem.constructor | mem.hpp:26-28 | a fresh 65536-byte memory |
| Memory.Mem.Initialize | src/mem/mem.cpp:4-8 | every one of the 65536 cells is zero afterwards |
| Memory.Mem.Read | src/mem/mem.cpp:12-14 | the byte the memory holds at the address, as the snapshot `Data[..]` that the CPU contracts speak of sees it |
| Memory.Mem.Write | src/mem/mem.cpp:18-20 | the store changes exactly the addressed cell |
| Memory.ReadAfterWrite | src/mem/mem.cpp:12-20 | after `Write`, `Read` of the written address gives the stored byte and `Read` of any other address its old byte |
| Alu.Adc | src/cpu/instructions.cpp:181-198 | binary ADC: the sum of A, the operand and carry modulo 256, carry out exactly when the sum exceeds 0xFF |
| Alu.Sbc | src/cpu/instructions.cpp:200-217 | binary SBC: A minus the operand minus the borrow, modulo 256, carry (no borrow) exactly when the difference is non-negative |
| Alu.AddOverflowFlag | src/cpu/instructions.cpp:193-194 | V after an addition is set exactly when both operands have the same sign and the result's sign differs |
| Alu.SubOverflowFlag | src/cpu/instructions.cpp:212-213 | V after a subtraction is set exactly when the operands' signs differ and the result's sign differs from A |
| Alu.Compare | src/cpu/instructions.cpp:219-227 | CMP/CPX/CPY: C when register >= operand, Z when equal, N from bit 7 of the 8-bit difference |
| Alu.BitTest | src/cpu/instructions.cpp:170-178 | BIT: Z exactly when A and the operand share no set bit; N and V copy bits 7 and 6 of the operand |
| Alu.Tsb | src/cpu/instructions.cpp:585-594 | TSB stores the operand with every bit of A set, bit by bit |
| Alu.Trb | src/cpu/instructions.cpp:596-605 | TRB stores the operand with every bit of A cleared, bit by bit |
| Alu.ResetBit | src/cpu/instructions.cpp:608-616 | RMBn clears bit n and keeps the other seven |
| Alu.SetBit | src/cpu/instructions.cpp:618-626 | SMBn sets bit n and keeps the other seven |
| Alu.BitBranchTaken | src/cpu/instructions.cpp:629-637 | BBRn/BBSn branch exactly when bit n of the zero-page byte matches the instruction's polarity (clear for BBR, set for BBS) |
| Alu.Asl | src/cpu/instructions.cpp:301-325 | ASL: carry is the old bit 7, the value doubles modulo 256 |
| Alu.Lsr | src/cpu/instructions.cpp:327-351 | LSR: carry is the old bit 0, the value halves |
| Alu.Rol | src/cpu/instructions.cpp:353-378 | ROL: carry is the old bit 7, the value doubles and takes the old carry in bit 0 |
| Alu.Ror | src/cpu/instructions.cpp:380-405 | ROR: carry is the old bit 0, the value halves and takes the old carry in bit 7 |
| Alu.Increment | src/cpu/instructions.cpp:250-261 | INC wraps 0xFF to 0x00 |
| Alu.Decrement | src/cpu/instructions.cpp:275-286 | DEC wraps 0x00 to 0xFF |
| Alu.PackStatus | src/cpu/instructions.cpp:113-121 | the status byte PHP pushes: N V 1 B D I Z C from bit 7 down to bit 0 |
| Alu.UnpackStatus | src/cpu/instructions.cpp:131-143 | PLP takes N, V, D, I, Z and C from their bits of the pulled byte |
| Alu.BranchTarget | src/cpu/instructions.cpp:438-455 | a relative branch lands at PC plus the signed offset, modulo 65536 |
| Alu.AdcOverflow | src/cpu/instructions.cpp:181-198 | V after ADC is set exactly when the signed sum leaves -128..127 |
| Alu.SbcOverflow | src/cpu/instructions.cpp:200-217 | V after SBC is set exactly when the signed difference leaves -128..127 |
| Alu.SbcIsAdcOfComplement | src/cpu/instructions.cpp:181-217 | SBC gives the same value, carry and overflow as ADC of the complemented operand |
| Alu.CompareIsSubtraction | src/cpu/instructions.cpp:219-227 | the compare flags are those of SBC with carry set: C, Z of the difference, N of the difference |
| Alu.CompareCarryIsSubtraction | src/cpu/instructions.cpp:219-227 | the compare's carry is SBC's carry with no borrow in |
| Alu.CompareZeroIsSubtraction | src/cpu/instructions.cpp:219-227 | the compare's Z is set exactly when SBC with no borrow gives zero |
| Alu.CompareNegativeIsSubtraction | src/cpu/instructions.cpp:219-227 | the compare's N is bit 7 of SBC with no borrow |
| Alu.RorUndoesRol | src/cpu/instructions.cpp:353-405 | ROR after ROL restores the byte and the carry |
| Alu.RolUndoesRor | src/cpu/instructions.cpp:353-405 | ROL after ROR restores the byte and the carry |
| Alu.RolExample | src/cpu/instructions.cpp:353-378 | ROL of 0x40 with carry in gives 0x81 and clears carry |
| Alu.IncrementDecrementInverse | src/cpu/instructions.cpp:250-286 | INC and DEC undo each other on every byte |
| Alu.UnpackPackStatus | src/cpu/instructions.cpp:113-143 | pulling the byte PHP pushed gives back every flag |
| Alu.PackUnpackStatus | src/cpu/instructions.cpp:113-143 | pushing the flags pulled from a byte gives that byte with bit 5 forced on |
| Alu.TrbUndoesTsb | src/cpu/instructions.cpp:585-605 | TRB with A undoes TSB with A when the operand shared no bit with A |
| Alu.TrbAfterTsb | src/cpu/instructions.cpp:585-605 | TRB after TSB equals TRB alone, and TSB after TRB equals TSB alone |
| Alu.SetResetBitInverse | src/cpu/instructions.cpp:608-626 | SMBn undoes RMBn when bit n was set, and RMBn undoes SMBn when it was clear |
| Alu.BranchExample | src/cpu/instructions.cpp:438-455 | a forward branch by 0x10 and a backward branch by -2 land where the 6502 would |
| Addressing.ZeroPageIndexed | src/cpu/addressing.cpp:17-29 | zero-page indexing wraps within page zero |
| Addressing.PagesCross | src/cpu/addressing.cpp:118-120 | true exactly when the two addresses differ once their low bytes are cleared (`& 0xFF00`) |
| Addressing.IndirectHighAddress | src/cpu/addressing.cpp:99-116 | the high-byte address is on the pointer's own page, one cell on with the low byte wrapping from 0xFF to 0x00 |
| Addressing.Indexed | src/cpu/addressing.cpp:36-56 | absolute indexing wraps modulo 65536 |
| Addressing.OperandWord | src/cpu/addressing.cpp:31-34 | the two operand bytes after the opcode, little-endian, with PC+1 wrapping |
| Addressing.ZeroPagePointer | src/cpu/addressing.cpp:58-97 | a zero-page pointer's high byte comes from the next zero-page cell, wrapping 0xFF to 0x00 |
| Addressing.IndirectTarget | src/cpu/addressing.cpp:99-116 | JMP (ind) reads the target's low byte at the pointer and its high byte at `IndirectHighAddress` |
| Addressing.PagesCrossSymmetric | src/cpu/addressing.cpp:118-120 | crossing a page is symmetric and never happens between an address and itself |
| Addressing.PagesCrossIffHighBytesDiffer | src/cpu/addressing.cpp:118-120 | two addresses are on different pages exactly when their high bytes differ |
| Addressing.IndexedCrossesIffCarry | src/cpu/addressing.cpp:36-56 | indexing crosses a page exactly when the low byte plus the index carries |
| Addressing.IndirectPageBug | src/cpu/addressing.cpp:99-116 | with the pointer's low byte 0xFF the high byte is fetched from the start of the same page, otherwise from the next cell; never from another page |
| Addressing.IndirectPageBugExample | src/cpu/addressing.cpp:99-116 | pointer 0x30FF takes its high byte from 0x3000, pointer 0x3010 from 0x3011 |
| Addressing.Immediate | src/cpu/addressing.cpp:6-10 | the operand is at PC, PC advances by one, no cycle is spent |
| Addressing.ZeroPage | src/cpu/addressing.cpp:12-15 | the address is the byte at PC (within page zero), PC advances by one, one cycle |
| Addressing.ZeroPageX | src/cpu/addressing.cpp:17-22 | zero page plus X wrapping in page zero, one fetch cycle and one extra |
| Addressing.ZeroPageY | src/cpu/addressing.cpp:24-29 | zero page plus Y wrapping in page zero, one fetch cycle and one extra |
| Addressing.Absolute | src/cpu/addressing.cpp:31-34 | the little-endian operand word, PC advances by two, two cycles |
| Addressing.AbsoluteX | src/cpu/addressing.cpp:36-45 | operand word plus X; one more cycle exactly when the penalty applies and a page is crossed |
| Addressing.AbsoluteY | src/cpu/addressing.cpp:47-56 | operand word plus Y; one more cycle exactly when the penalty applies and a page is crossed |
| Addressing.IndirectX | src/cpu/addressing.cpp:58-69 | pointer read at (zp + X) wrapping in page zero |
| Addressing.IndirectY | src/cpu/addressing.cpp:71-87 | pointer read at zp, plus Y; a crossing adds one cycle when the penalty applies |
| Addressing.IndirectZeroPage | src/cpu/addressing.cpp:90-97 | 65C02 (zp): pointer read at zp with the page-zero wrap |
| Addressing.Indirect | src/cpu/addressing.cpp:99-116 | JMP (ind) through `IndirectTarget` of the operand word, keeping the NMOS page bug |
| Cpu.ConsumeCycles | src/cpu/cpu.cpp:53-56 | subtracts without going below zero: zero exactly when the budget does not exceed the amount, otherwise the exact difference |
| Cpu.Spend | src/cpu/instructions.cpp:29-34 | the handlers' `cycles--` on an unsigned 32-bit counter: a plain difference when it fits, wrapping past zero otherwise |
| Cpu.SpendTwice | src/cpu/instructions.cpp:29-34 | spending a and then b cycles is spending a + b |
| Cpu.StackAddress | src/cpu/cpu.cpp:379-381 | the stack cell of SP is 0x0100 + SP, always in page one |
| Cpu.PushThreeLayout | src/cpu/cpu.cpp:338-341 | interrupt entry leaves PCH, PCL and the status byte in the three stack cells below SP and touches nothing outside page one |
| Cpu.CPU.constructor | src/cpu/cpu.cpp:171-193 | all registers and flags zero, no controller, no devices, no bus |
| Cpu.CPU.RegisterIODevice | src/cpu/cpu.cpp:16-28 | adds the device to the CPU's list when absent and registers it on the attached bus the same way; no device means no change |
| Cpu.CPU.UnregisterIODevice | src/cpu/cpu.cpp:30-40 | removes every copy of the device from the CPU's list and from the attached bus |
| Cpu.CPU.SPToAddress | src/cpu/cpu.cpp:379-381 | SP as an address in page one |
| Cpu.CPU.SetInterruptController | src/cpu/cpu.cpp:309-311 | the controller is attached |
| Cpu.CPU.Flags | src/cpu/cpu.cpp:325-335 | the six flags that the pushed status byte carries: packed with B, bits 7, 6, 3, 2, 1, 0 are N, V, D, I, Z, C, and unpacking gives the flags back |
| Cpu.CPU.FetchByte | src/cpu/cpu.cpp:67-74 | reads the byte at PC, advances PC by one with wrap, one cycle |
| Cpu.CPU.FetchWord | src/cpu/cpu.cpp:76-87 | reads the little-endian word at PC, advances PC by two, two cycles |
| Cpu.CPU.UpdateZeroAndNegativeFlags | src/cpu/cpu.cpp:157-160 | Z exactly when the value is zero, N from bit 7 |
| Cpu.CPU.UpdateCarryFlag | src/cpu/cpu.cpp:162-164 | C takes the given value |
| Cpu.CPU.UpdateOverflowFlag | src/cpu/cpu.cpp:166-168 | V takes the given value |
| Cpu.CPU.PushStack | src/cpu/cpu.cpp:320-323 | stores at 0x0100 + SP and decrements SP with 8-bit wrap |
| Cpu.CPU.PushInterruptFrame | src/cpu/cpu.cpp:338-341 | pushes PCH, PCL and the status byte in that order; SP drops by three |
| Cpu.CPU.LoadVector | src/cpu/cpu.cpp:343-345 | PC is the little-endian word at the vector address |
| Cpu.CPU.ServiceInterrupt | src/cpu/cpu.cpp:338-351 | pushes the frame, sets I, loads PC from the vector and acknowledges NMI or IRQ on every source |
| Cpu.CPU.CheckAndHandleInterrupts | src/cpu/cpu.cpp:317-361 | no controller: nothing; a pending NMI always wins; else a pending IRQ is taken only when I is clear; otherwise nothing changes |
| Instructions.LDA | src/cpu/instructions.cpp:29-34 | A takes the addressed byte, Z/N follow it, one cycle |
| Instructions.LDX | src/cpu/instructions.cpp:36-41 | X takes the addressed byte, Z/N follow it, one cycle |
| Instructions.LDY | src/cpu/instructions.cpp:43-48 | Y takes the addressed byte, Z/N follow it, one cycle |
| Instructions.STA | src/cpu/instructions.cpp:50-54 | only the addressed cell changes, to A |
| Instructions.STX | src/cpu/instructions.cpp:56-60 | only the addressed cell changes, to X |
| Instructions.STY | src/cpu/instructions.cpp:62-66 | only the addressed cell changes, to Y |
| Instructions.STZ | src/cpu/instructions.cpp:579-582 | only the addressed cell changes, to zero, and no cycle is charged |
| Instructions.TAX | src/cpu/instructions.cpp:69-73 | X := A with Z/N |
| Instructions.TAY | src/cpu/instructions.cpp:75-79 | Y := A with Z/N |
| Instructions.TXA | src/cpu/instructions.cpp:81-85 | A := X with Z/N |
| Instructions.TYA | src/cpu/instructions.cpp:87-91 | A := Y with Z/N |
| Instructions.TSX | src/cpu/instructions.cpp:93-97 | X := SP with Z/N |
| Instructions.TXS | src/cpu/instructions.cpp:99-103 | SP := X, flags untouched |
| Instructions.PHA | src/cpu/instructions.cpp:106-111 | A goes to the stack cell of SP, SP drops by one, three cycles |
| Instructions.PHX | src/cpu/instructions.cpp:548-553 | X goes to the stack cell of SP, SP drops by one |
| Instructions.PHY | src/cpu/instructions.cpp:555-560 | Y goes to the stack cell of SP, SP drops by one |
| Instructions.PHP | src/cpu/instructions.cpp:113-121 | the status byte with B and bit 5 set goes to the stack |
| Instructions.PLA | src/cpu/instructions.cpp:123-129 | SP rises by one and A is the byte there, with Z/N |
| Instructions.PLX | src/cpu/instructions.cpp:562-568 | SP rises by one and X is the byte there, with Z/N |
| Instructions.PLY | src/cpu/instructions.cpp:570-576 | SP rises by one and Y is the byte there, with Z/N |
| Instructions.PLP | src/cpu/instructions.cpp:131-143 | SP rises by one and the flags are unpacked from the byte there |
| Instructions.AND | src/cpu/instructions.cpp:146-152 | A := A & operand with Z/N |
| Instructions.EOR | src/cpu/instructions.cpp:154-160 | A := A ^ operand with Z/N |
| Instructions.ORA | src/cpu/instructions.cpp:162-168 | A := A \| operand with Z/N |
| Instructions.BIT | src/cpu/instructions.cpp:170-178 | Z, N, V as `BitTest`; A unchanged |
| Instructions.ADC | src/cpu/instructions.cpp:181-198 | A, C, V as `Adc`, Z/N of the result |
| Instructions.SBC | src/cpu/instructions.cpp:200-217 | A, C, V as `Sbc`, Z/N of the result |
| Instructions.CMP | src/cpu/instructions.cpp:219-227 | C, Z, N as `Compare` of A |
| Instructions.CPX | src/cpu/instructions.cpp:229-237 | C, Z, N as `Compare` of X |
| Instructions.CPY | src/cpu/instructions.cpp:239-247 | C, Z, N as `Compare` of Y |
| Instructions.INC | src/cpu/instructions.cpp:250-261 | only the addressed cell changes, to its increment, with Z/N |
| Instructions.DEC | src/cpu/instructions.cpp:275-286 | only the addressed cell changes, to its decrement, with Z/N |
| Instructions.INX | src/cpu/instructions.cpp:263-267 | X wraps upward with Z/N |
| Instructions.INY | src/cpu/instructions.cpp:269-273 | Y wraps upward with Z/N |
| Instructions.DEX | src/cpu/instructions.cpp:288-292 | X wraps downward with Z/N |
| Instructions.DEY | src/cpu/instructions.cpp:294-298 | Y wraps downward with Z/N |
| Instructions.INC_A | src/cpu/instructions.cpp:535-539 | A wraps upward with Z/N |
| Instructions.DEC_A | src/cpu/instructions.cpp:541-545 | A wraps downward with Z/N |
| Instructions.StoreShift | src/cpu/instructions.cpp:301-405 | a shift result goes to A or to the addressed cell, with C and Z/N from it |
| Instructions.ASL | src/cpu/instructions.cpp:301-325 | accumulator or memory form of `Asl` |
| Instructions.LSR | src/cpu/instructions.cpp:327-351 | accumulator or memory form of `Lsr` |
| Instructions.ROL | src/cpu/instructions.cpp:353-378 | accumulator or memory form of `Rol` with the old carry |
| Instructions.ROR | src/cpu/instructions.cpp:380-405 | accumulator or memory form of `Ror` with the old carry |
| Instructions.JMP | src/cpu/instructions.cpp:408-411 | PC := the resolved address |
| Instructions.RTS | src/cpu/instructions.cpp:419-436 | SP rises by two and PC is the pulled word plus one |
| Instructions.RTI | src/cpu/instructions.cpp:502-528 | SP rises by three; flags from the first pulled byte, PC from the next two |
| Instructions.BranchCost | src/cpu/instructions.cpp:438-455 | one cycle when not taken; when taken two, or three exactly when the branch crosses a page |
| Instructions.Branch | src/cpu/instructions.cpp:438-455 | PC skips the offset byte, and when the condition holds it moves by the signed offset; cycles as `BranchCost` |
| Instructions.BBR_BBS | src/cpu/instructions.cpp:629-637 | reads the zero-page address and offset; branches from the next instruction exactly when `BitBranchTaken`; the budget pays the saturating fetch, one cycle for the bit test, then `Branch`'s fetch and `BranchCost` |
| Instructions.CLC | src/cpu/instructions.cpp:458-461 | C cleared |
| Instructions.CLD | src/cpu/instructions.cpp:463-466 | D cleared |
| Instructions.CLI | src/cpu/instructions.cpp:468-471 | I cleared |
| Instructions.CLV | src/cpu/instructions.cpp:473-476 | V cleared |
| Instructions.SEC | src/cpu/instructions.cpp:478-481 | C set |
| Instructions.SED | src/cpu/instructions.cpp:483-486 | D set |
| Instructions.SEI | src/cpu/instructions.cpp:488-491 | I set |
| Instructions.BRK | src/cpu/instructions.cpp:494-500 | PC advances by two, past the padding byte, and the budget drops to zero; no interrupt frame is pushed |
| Instructions.NOP | src/cpu/instructions.cpp:530-532 | only one cycle |
| Instructions.STP | src/cpu/instructions.cpp:640-643 | the budget is exhausted |
| Instructions.WAI | src/cpu/instructions.cpp:645-648 | the budget is exhausted |
| Instructions.TSB | src/cpu/instructions.cpp:585-594 | Z as `BitTest` of the old cell; only the cell changes, to `Tsb` |
| Instructions.TRB | src/cpu/instructions.cpp:596-605 | Z as `BitTest` of the old cell; only the cell changes, to `Trb` |
| Instructions.RMB | src/cpu/instructions.cpp:608-616 | only the zero-page cell changes, with bit n cleared |
| Instructions.SMB | src/cpu/instructions.cpp:618-626 | only the zero-page cell changes, with bit n set |
| Instructions.PushPullRoundTrip | src/cpu/instructions.cpp:106-129 | running the PHA handler and then the PLA handler restores A and SP, changes only the stack cell PHA wrote, and costs seven cycles |
| Instructions.PhpPlpRoundTrip | src/cpu/instructions.cpp:113-143 | PLP after PHP gives back every flag |
| Instructions.ReturnFromInterrupt | src/cpu/instructions.cpp:502-528 | RTI after interrupt entry restores the flags and the interrupted PC, and SP returns to its value before entry |
| Interrupts.InterruptSource.constructor | include/interrupt_controller.hpp:44-69 | a source with the given IRQ and NMI lines |
| Interrupts.InterruptSource.ClearIRQ | include/interrupt_controller.hpp:63 | drops IRQ, keeps NMI |
| Interrupts.InterruptSource.ClearNMI | include/interrupt_controller.hpp:68 | drops NMI, keeps IRQ |
| Interrupts.Without | src/interrupt/interrupt_controller.cpp:13-15 | the erase-remove result: every kept source differs from the removed one, and every other source is kept |
| Interrupts.WithoutAppend | src/interrupt/interrupt_controller.cpp:13-15 | removing from a list with one more source at the end gives the removal from the front part, followed by the last source unless it is the one removed |
| Interrupts.WithoutAbsent | src/interrupt/interrupt_controller.cpp:13-15 | removing a source that is not registered changes nothing |
| Interrupts.WithoutCount | src/interrupt/interrupt_controller.cpp:13-15 | removal drops exactly as many entries as there were copies of the source |
| Interrupts.InterruptController.constructor | src/interrupt/interrupt_controller.cpp:4-5 | no sources |
| Interrupts.InterruptController.PendingIRQ | src/interrupt/interrupt_controller.cpp:17-24 | true exactly when some registered source has its IRQ line up; never with no sources |
| Interrupts.InterruptController.PendingNMI | src/interrupt/interrupt_controller.cpp:26-33 | true exactly when some registered source has its NMI line up; never with no sources |
| Interrupts.InterruptController.RegisterSource | src/interrupt/interrupt_controller.cpp:7-11 | a non-null source is appended; null is ignored |
| Interrupts.InterruptController.UnregisterSource | src/interrupt/interrupt_controller.cpp:13-15 | every copy of the source is removed |
| Interrupts.InterruptController.HasIRQ | src/interrupt/interrupt_controller.cpp:17-24 | true exactly when some registered source requests IRQ |
| Interrupts.InterruptController.HasNMI | src/interrupt/interrupt_controller.cpp:26-33 | true exactly when some registered source requests NMI |
| Interrupts.InterruptController.AcknowledgeIRQ | src/interrupt/interrupt_controller.cpp:35-41 | every source's IRQ is cleared and its NMI kept |
| Interrupts.InterruptController.AcknowledgeNMI | src/interrupt/interrupt_controller.cpp:43-49 | every source's NMI is cleared and its IRQ kept |
| Interrupts.InterruptController.ClearAll | src/interrupt/interrupt_controller.cpp:51-54 | no source requests anything afterwards |
| Interrupts.InterruptController.GetSourceCount | src/interrupt/interrupt_controller.cpp:56-58 | the number of registered sources |
| Dispatch.GetHandlerAt | src/cpu/instructions.cpp:1274-1276 | `GetHandler` returns the table entry installed for the opcode |
| Dispatch.Row0LowAgrees | include/cpu/instruction_set.hpp:24-31 | for opcodes 0x00-0x07 the installed handler has the metadata entry's mnemonic and addressing mode, and a `---` entry keeps the default handler (0x02 runs COP) |
| Dispatch.Row0HighAgrees | include/cpu/instruction_set.hpp:32-39 | for opcodes 0x08-0x0F the installed handler has the metadata entry's mnemonic and addressing mode, and a `---` entry keeps the default handler |
| Dispatch.Row1LowAgrees | include/cpu/instruction_set.hpp:42-49 | for opcodes 0x10-0x17 the installed handler has the metadata entry's mnemonic and addressing mode, and a `---` entry keeps the default handler |
| Dispatch.Row1HighAgrees | include/cpu/instruction_set.hpp:50-57 | for opcodes 0x18-0x1F the installed handler has the metadata entry's mnemonic and addressing mode, and a `---` entry keeps the default handler |
| Dispatch.Row2LowAgrees | include/cpu/instruction_set.hpp:60-67 | for opcodes 0x20-0x27 the installed handler has the metadata entry's mnemonic and addressing mode, and a `---` entry keeps the default handler |
| Dispatch.Row2HighAgrees | include/cpu/instruction_set.hpp:68-75 | for opcodes 0x28-0x2F the installed handler has the metadata entry's mnemonic and addressing mode, and a `---` entry keeps the default handler |
| Dispatch.Row3LowAgrees | include/cpu/instruction_set.hpp:78-85 | for opcodes 0x30-0x37 the installed handler has the metadata entry's mnemonic and addressing mode, and a `---` entry keeps the default handler |
| Dispatch.Row3HighAgrees | include/cpu/instruction_set.hpp:86-93 | for opcodes 0x38-0x3F the installed handler has the metadata entry's mnemonic and addressing mode, and a `---` entry keeps the default handler |
| Dispatch.Row4LowAgrees | include/cpu/instruction_set.hpp:96-103 | for opcodes 0x40-0x47 the installed handler has the metadata entry's mnemonic and addressing mode, and a `---` entry keeps the default handler |
| Dispatch.Row4HighAgrees | include/cpu/instruction_set.hpp:104-111 | for opcodes 0x48-0x4F the installed handler has the metadata entry's mnemonic and addressing mode, and a `---` entry keeps the default handler |
| Dispatch.Row5LowAgrees | include/cpu/instruction_set.hpp:114-121 | for opcodes 0x50-0x57 the installed handler has the metadata entry's mnemonic and addressing mode, and a `---` entry keeps the default handler |
| Dispatch.Row5HighAgrees | include/cpu/instruction_set.hpp:122-129 | for opcodes 0x58-0x5F the installed handler has the metadata entry's mnemonic and addressing mode, and a `---` entry keeps the default handler |
| Dispatch.Row6LowAgrees | include/cpu/instruction_set.hpp:132-139 | for opcodes 0x60-0x67 the installed handler has the metadata entry's mnemonic and addressing mode, and a `---` entry keeps the default handler |
| Dispatch.Row6HighAgrees | include/cpu/instruction_set.hpp:140-147 | for opcodes 0x68-0x6F the installed handler has the metadata entry's mnemonic and addressing mode, and a `---` entry keeps the default handler |
| Dispatch.Row7LowAgrees | include/cpu/instruction_set.hpp:150-157 | for opcodes 0x70-0x77 the installed handler has the metadata entry's mnemonic and addressing mode, and a `---` entry keeps the default handler |
| Dispatch.Row7HighAgrees | include/cpu/instruction_set.hpp:158-165 | for opcodes 0x78-0x7F the installed handler has the metadata entry's mnemonic and addressing mode, and a `---` entry keeps the default handler |
| Dispatch.Row8LowAgrees | include/cpu/instruction_set.hpp:168-175 | for opcodes 0x80-0x87 the installed handler has the metadata entry's mnemonic and addressing mode, and a `---` entry keeps the default handler |
| Dispatch.Row8HighAgrees | include/cpu/instruction_set.hpp:176-183 | for opcodes 0x88-0x8F the installed handler has the metadata entry's mnemonic and addressing mode, and a `---` entry keeps the default handler |
| Dispatch.Row9LowAgrees | include/cpu/instruction_set.hpp:186-193 | for opcodes 0x90-0x97 the installed handler has the metadata entry's mnemonic and addressing mode, and a `---` entry keeps the default handler |
| Dispatch.Row9HighAgrees | include/cpu/instruction_set.hpp:194-201 | for opcodes 0x98-0x9F the installed handler has the metadata entry's mnemonic and addressing mode, and a `---` entry keeps the default handler |
| Dispatch.RowALowAgrees | include/cpu/instruction_set.hpp:204-211 | for opcodes 0xA0-0xA7 the installed handler has the metadata entry's mnemonic and addressing mode, and a `---` entry keeps the default handler |
| Dispatch.RowAHighAgrees | include/cpu/instruction_set.hpp:212-219 | for opcodes 0xA8-0xAF the installed handler has the metadata entry's mnemonic and addressing mode, and a `---` entry keeps the default handler |
| Dispatch.RowBLowAgrees | include/cpu/instruction_set.hpp:222-229 | for opcodes 0xB0-0xB7 the installed handler has the metadata entry's mnemonic and addressing mode, and a `---` entry keeps the default handler |
| Dispatch.RowBHighAgrees | include/cpu/instruction_set.hpp:230-237 | for opcodes 0xB8-0xBF the installed handler has the metadata entry's mnemonic and addressing mode, and a `---` entry keeps the default handler |
| Dispatch.RowCLowAgrees | include/cpu/instruction_set.hpp:240-247 | for opcodes 0xC0-0xC7 the installed handler has the metadata entry's mnemonic and addressing mode, and a `---` entry keeps the default handler |
| Dispatch.RowCHighAgrees | include/cpu/instruction_set.hpp:248-255 | for opcodes 0xC8-0xCF the installed handler has the metadata entry's mnemonic and addressing mode, and a `---` entry keeps the default handler |
| Dispatch.RowDLowAgrees | include/cpu/instruction_set.hpp:258-265 | for opcodes 0xD0-0xD7 the installed handler has the metadata entry's mnemonic and addressing mode, and a `---` entry keeps the default handler |
| Dispatch.RowDHighAgrees | include/cpu/instruction_set.hpp:266-273 | for opcodes 0xD8-0xDF the installed handler has the metadata entry's mnemonic and addressing mode, and a `---` entry keeps the default handler |
| Dispatch.RowELowAgrees | include/cpu/instruction_set.hpp:276-283 | for opcodes 0xE0-0xE7 the installed handler has the metadata entry's mnemonic and addressing mode, and a `---` entry keeps the default handler |
| Dispatch.RowEHighAgrees | include/cpu/instruction_set.hpp:284-291 | for opcodes 0xE8-0xEF the installed handler has the metadata entry's mnemonic and addressing mode, and a `---` entry keeps the default handler |
| Dispatch.RowFLowAgrees | include/cpu/instruction_set.hpp:294-301 | for opcodes 0xF0-0xF7 the installed handler has the metadata entry's mnemonic and addressing mode, and a `---` entry keeps the default handler |
| Dispatch.RowFHighAgrees | include/cpu/instruction_set.hpp:302-309 | for opcodes 0xF8-0xFF the installed handler has the metadata entry's mnemonic and addressing mode, and a `---` entry keeps the default handler |
| Dispatch.AgreesInRow | src/cpu/instructions.cpp:651-1272 | entry j of handler row k agrees with entry j of metadata row k |
| Dispatch.HandlerAgreesWithMetadata | src/cpu/instructions.cpp:651-1272 | for all 256 opcodes the dispatch table and the metadata table name the same instruction and addressing mode |
| Dispatch.DefaultHandlerIffUnlisted | src/cpu/instructions.cpp:651-666 | an opcode keeps the logging default handler exactly when the metadata lists it as `---`, except 0x02, which alone runs COP |
| Dispatch.UnlistedRunsDefault | include/cpu/instruction_set.hpp:321-323 | `isImplemented` is false exactly for the opcodes whose handler is the default one or COP |
| Dispatch.ConditionalBranchOpcodes | src/cpu/instructions.cpp:1094-1118 | the eight opcodes xxx10000 are the conditional branches; bits 7-6 pick the flag and bit 5 the value branched on |
| Dispatch.BitInstructionOpcodes | src/cpu/instructions.cpp:1231-1267 | RMBn at 0x07+16n, SMBn at 0x87+16n, BBRn at 0x0F+16n and BBSn at 0x8F+16n |
| Dispatch.EffectiveAddress | src/cpu/addressing.cpp:6-116 | immediate mode addresses the operand byte itself; the zero-page modes stay in page zero |
| Dispatch.LengthAgreesWithMetadata | include/cpu/instruction_set.hpp:24-311 | for every implemented opcode except BBR/BBS, one plus the bytes the handler fetches is the length of the metadata entry's addressing mode |
| Dispatch.Resolve | src/cpu/addressing.cpp:6-116 | the address is `EffectiveAddress` for the mode, and PC moves past exactly the mode's operand bytes |
| Dispatch.ApplyOperation | src/cpu/instructions.cpp:29-298 | only JMP moves PC, to the resolved address; an operation that does not store leaves memory unchanged |
| Dispatch.ApplyShift | src/cpu/instructions.cpp:301-405 | the accumulator form of a shift or rotate leaves memory unchanged |
| Dispatch.ApplyImplied | src/cpu/instructions.cpp:494-500 | no implied instruction other than BRK, RTI and RTS moves PC; BRK moves it by two and ends the budget |
| Dispatch.Run | src/cpu/instructions.cpp:651-1272 | a handler that falls through leaves PC after its operand bytes; the default handler and COP spend one cycle and change nothing else; JMP, JMP (abs,X) and JSR land on their targets |
| Dispatch.Step | src/cpu/cpu.cpp:260-305 | one instruction: the opcode is the byte at PC, the handler is `GetHandler` of it, and PC ends after the opcode and its operands; an unlisted opcode costs the fetch cycle and one more and leaves memory alone |
| InstructionSet.ShapeAt | tests/instruction_set_coverage_test.cpp:22-37 | every entry's opcode field is its index, its mnemonic has at least three characters, its cycle count is positive, and 2..7 when implemented |
| InstructionSet.ImplementedAt | include/cpu/instruction_set.hpp:321-323 | an entry's mnemonic starts with `-` exactly when its opcode is one of the 44 listed unimplemented opcodes |
| InstructionSet.OnlyFlagsAt | tests/instruction_set_coverage_test.cpp:56-78 | an entry is flagged 65C02-only exactly when its opcode is one of the listed 65C02 additions |
| InstructionSet.BitInstructionsAt | include/cpu/instruction_set.hpp:24-311 | every RMB/SMB/BBR/BBS entry takes 5 cycles and is 65C02-only |
| InstructionSet.BranchesAt | tests/instruction_set_coverage_test.cpp:161-176 | conditional branches take 2 base cycles; BRA takes 3 and is 65C02-only |
| InstructionSet.AllEntryFacts | include/cpu/instruction_set.hpp:24-311 | all of the above hold for every one of the 256 entries |
| InstructionSet.GetMetadata | include/cpu/instruction_set.hpp:313-315 | the entry for an opcode carries that opcode, a mnemonic of at least three characters and a positive cycle count |
| InstructionSet.Is65C02Opcode | include/cpu/instruction_set.hpp:317-319 | true exactly for the opcodes flagged as 65C02 additions |
| InstructionSet.IsImplemented | include/cpu/instruction_set.hpp:321-323 | false exactly for the 44 opcodes listed `---` |
| InstructionSet.OpcodeMatchesIndex | tests/instruction_set_coverage_test.cpp:22-37 | the table has 256 entries and entry i describes opcode i |
| InstructionSet.CyclesInRange | tests/instruction_set_coverage_test.cpp:22-37 | every opcode's cycle count is positive, and between 2 and 7 when implemented |
| InstructionSet.BitInstructionTiming | tests/instruction_set_coverage_test.cpp:161-176 | a single-bit instruction takes 5 cycles and is a 65C02 opcode |
| InstructionSet.BranchTiming | tests/instruction_set_coverage_test.cpp:161-176 | conditional branches take 2 cycles; BRA (0x80) takes 3 and is a 65C02 opcode |
| InstructionSet.ListIsIncreasing | tests/instruction_set_coverage_test.cpp:82-99 | the unimplemented list has 44 distinct opcodes in increasing order |
| InstructionSet.ListMatchesPredicate | tests/instruction_set_coverage_test.cpp:82-99 | an opcode is in the unimplemented list exactly when `isImplemented` rejects it |
| InstructionSet.ImplementedCount | tests/instruction_set_coverage_test.cpp:103-130 | exactly 212 of the 256 opcodes are implemented, which meets the test's bound of at least 210 |
| Bus.DeviceRead | src/cpu/system_map.cpp:39-42 | a read through a device returns that device's own read value and keeps its invariant and frame |
| Bus.DeviceWrite | src/cpu/system_map.cpp:69-74 | a write through a device keeps its invariant and its frame |
| Bus.WithDevice | src/cpu/system_map.cpp:116-122 | registration appends the device unless present: the old list is a prefix, the device is in the result and no duplicate appears |
| Bus.WithoutDevice | src/cpu/system_map.cpp:124-130 | erase-remove: the device is absent afterwards, every other device is kept and nothing new appears |
| Bus.RegisterIsIdempotent | src/cpu/system_map.cpp:116-122 | registering a device twice is registering it once |
| Bus.UnregisterUndoesRegister | src/cpu/system_map.cpp:116-130 | unregistering a newly registered device gives back the old list |
| Bus.WithoutAppended | src/cpu/system_map.cpp:124-130 | removing the device last appended gives back the list before it |
| Bus.WithoutAbsent | src/cpu/system_map.cpp:124-130 | removing a device that is not registered changes nothing |
| Bus.WithoutSnoc | src/cpu/system_map.cpp:124-130 | removal distributes over appending one device |
| Bus.FirstClaim | src/cpu/system_map.cpp:39-43 | the index of the first device that claims the address, none claiming before it; none when no device claims it |
| Bus.C64Claims | src/cpu/system_map.cpp:45-47 | reads are claimed for the two keyboard-matrix bytes and the monitor input port, writes for the 1024 screen-RAM bytes and the monitor output port |
| Bus.RouteOf | src/cpu/system_map.cpp:38-101 | an access goes to the first claiming device; with none, to the C64 I/O when it claims the address; otherwise to the RAM cell at the address below 0x8000 or the ROM cell at address - 0x8000 from there on |
| Bus.C64ClaimsAgree | src/cpu/system_map.cpp:45-47 | the bus's C64 routing test is the C64 device's own `handlesRead`/`handlesWrite` |
| Bus.DeviceRouting | src/cpu/system_map.cpp:38-66 | an access goes to device k exactly when k claims it and no earlier device does |
| Bus.MemoryRouting | src/cpu/system_map.cpp:48-55 | an access nobody claims goes to RAM below 0x8000 and to ROM at address - 0x8000 from there on |
| Bus.SerialAndAudioAreRam | src/cpu/system_map.cpp:56-63 | unclaimed accesses to the serial (0x5000-0x5004) and audio (0x6000-0x6FFF) ranges reach RAM, so the serial and audio branches are never taken |
| Bus.RoutesAreInRange | src/cpu/system_map.cpp:48-55 | every route names a registered device, a RAM cell or a ROM cell inside its array |
| Bus.ReadAndWriteShareCell | src/cpu/system_map.cpp:38-101 | with no device claiming the address, a read and a write reach the same RAM or ROM cell |
| Bus.SystemMap.constructor | src/cpu/system_map.cpp:25-31 | no external devices, RAM and ROM all zero |
| Bus.SystemMap.FindClaimant | src/cpu/system_map.cpp:39-43 | the loop over the external devices finds `FirstClaim` |
| Bus.SystemMap.ExternalRead | src/cpu/system_map.cpp:39-42 | the value is the claiming device's read value |
| Bus.SystemMap.C64Read | src/cpu/system_map.cpp:45-47 | the value is the C64 device's read value |
| Bus.SystemMap.Read | src/cpu/system_map.cpp:38-66 | the value is the one the route gives; RAM, ROM and the device list are unchanged, and only the routed device may change |
| Bus.SystemMap.ExternalWrite | src/cpu/system_map.cpp:69-74 | the bus invariant is kept and only the device's frame may change |
| Bus.SystemMap.C64Write | src/cpu/system_map.cpp:76-79 | the bus invariant is kept and only the C64 device may change |
| Bus.SystemMap.StoreCell | src/cpu/system_map.cpp:80-89 | exactly one RAM or ROM cell changes, to the value |
| Bus.SystemMap.Write | src/cpu/system_map.cpp:68-101 | only the routed target changes; a RAM or ROM route changes exactly that cell |
| Bus.SystemMap.LoadROM | src/cpu/system_map.cpp:107-110 | an image longer than 32 KB is refused and ROM is left alone; otherwise it lands at the start of ROM and the rest is unchanged |
| Bus.SystemMap.ClearRAM | src/cpu/system_map.cpp:112-114 | every RAM cell is zero |
| Bus.SystemMap.RegisterIODevice | src/cpu/system_map.cpp:116-122 | no device: no change; otherwise the device list becomes `WithDevice` |
| Bus.SystemMap.UnregisterIODevice | src/cpu/system_map.cpp:124-130 | no device: no change; otherwise the device list becomes `WithoutDevice` |
| Bus.AddIfAbsent | src/cpu/system_map.cpp:117-121 | the find-then-push_back computes `WithDevice` |
| Bus.RemoveAll | src/cpu/system_map.cpp:126-129 | the remove-erase loop computes `WithoutDevice` |
| Bus.WriteThenRead | src/cpu/system_map.cpp:68-101 | a value written to an unclaimed address reads back |
| AciaDevice.ACIADevice.HandlesRead | src/devices/acia_device.cpp:15-17 | reads are claimed for the four-register window except the write-only command and control registers |
| AciaDevice.ACIADevice.HandlesWrite | src/devices/acia_device.cpp:19-21 | writes are claimed for the four-register window except the read-only status register |
| AciaDevice.ACIADevice.ReadValue | src/devices/acia_device.cpp:23-40 | DATA reads the oldest received byte, STATUS the status register; DATA with nothing received and every unclaimed address read 0 |
| AciaDevice.UpdatedStatus | src/devices/acia_device.cpp:92-102 | the status keeps its other bits, sets TX_DATA_EMPTY (bit 4) and sets RX_DATA_READY (bit 3) exactly when input is pending |
| AciaDevice.ACIADevice.constructor | src/devices/acia_device.cpp:8-13 | status TX_DATA_EMPTY and DSR, command and control zero, both FIFOs empty |
| AciaDevice.ACIADevice.UpdateStatus | src/devices/acia_device.cpp:92-102 | the status becomes `UpdatedStatus` of whether input is pending; nothing else changes |
| AciaDevice.ACIADevice.Read | src/devices/acia_device.cpp:23-40 | the value is the register's; reading DATA with input pending pops the oldest byte and refreshes the status; any other read changes nothing |
| AciaDevice.ACIADevice.Write | src/devices/acia_device.cpp:42-70 | DATA appends to the output; CMD and CTRL store the value; a CTRL write with low bits 00 is a soft reset that empties both FIFOs and restores the reset status |
| AciaDevice.ACIADevice.PushInput | src/devices/acia_device.cpp:72-75 | the byte joins the input FIFO and RX_DATA_READY is set |
| AciaDevice.ACIADevice.PushInputString | src/devices/acia_device.cpp:77-82 | the bytes join the input FIFO in order and the status reflects pending input |
| AciaDevice.ACIADevice.ClearOutput | src/devices/acia_device.cpp:88-90 | the output buffer is emptied; input and status are kept |
| AciaDevice.ReceiveScenario | src/devices/acia_device.cpp:23-75 | two received bytes read back in order; status reads 0x58 while data waits and 0x50 after; an empty FIFO reads 0 |
| AciaDevice.ResetScenario | src/devices/acia_device.cpp:42-70 | a soft reset leaves status 0x50, no output and DATA reading 0 |
| AppleIo.AppleIO.HandlesRead | src/devices/apple_io.cpp:16-18 | only the keyboard port is readable; the display port is not |
| AppleIo.AppleIO.HandlesWrite | src/devices/apple_io.cpp:21-23 | only the display port is writable; the keyboard port is not |
| AppleIo.AppleIO.ReadValue | src/devices/apple_io.cpp:26-38 | the keyboard port reads the oldest typed key; with no key, or at any other address, the read is 0 |
| AppleIo.AppleIO.constructor | src/devices/apple_io.cpp:13 | no keys and an empty screen buffer |
| AppleIo.AppleIO.Read | src/devices/apple_io.cpp:26-38 | KBD pops and returns the oldest key, or 0 with none; other addresses return 0 and change nothing |
| AppleIo.AppleIO.Write | src/devices/apple_io.cpp:41-46 | a write to the screen register appends the byte to the screen buffer; other writes change nothing |
| AppleIo.AppleIO.PushInput | src/devices/apple_io.cpp:49-51 | the key joins the end of the queue |
| AppleIo.KeyboardIsFifo | tests/test_apple_io.cpp:50-69 | two keys come back in typing order, then the register reads 0 |
| AppleIo.ScreenCollectsWrites | tests/test_apple_io.cpp:84-101 | the screen buffer is exactly the sequence of bytes written to the screen register |
| C64Io.C64IO.HandlesRead | src/devices/c64_io.cpp:13-16 | reads are claimed for the two keyboard-matrix bytes and the monitor input port, never for screen RAM |
| C64Io.C64IO.HandlesWrite | src/devices/c64_io.cpp:19-22 | writes are claimed for the 1024 screen-RAM bytes and the monitor output port, never for the keyboard ports |
| C64Io.C64IO.ReadValue | src/devices/c64_io.cpp:27-41 | a keyboard port reads the oldest key with bit 7 clear, or the 0x80 sentinel when no key waits; every other address reads 0xFF |
| C64Io.Echo | src/devices/c64_io.cpp:44-58 | the byte shown for a screen-RAM write is always printable ASCII and is the byte itself when that is printable |
| C64Io.C64IO.constructor | src/devices/c64_io.cpp:10 | no keys, empty output, 1024 screen cells holding spaces |
| C64Io.C64IO.Read | src/devices/c64_io.cpp:27-41 | a keyboard read with a key waiting pops it and returns it with bit 7 clear; with no key it returns the 0x80 sentinel |
| C64Io.C64IO.Write | src/devices/c64_io.cpp:44-58 | a screen-RAM write stores the cell and echoes a printable byte; the character-out port appends to the output; other writes change nothing |
| C64Io.C64IO.PushInput | src/devices/c64_io.cpp:61-63 | the key joins the end of the queue |
| C64Io.KeyboardScenario | src/devices/c64_io.cpp:27-41 | keys come back in order with bit 7 clear, the matrix port reads 0xFF and an empty queue reads 0x80 |
| ViaPort.ViaPortDevice.HandlesRead | src/devices/via_port_device.cpp:13-15 | reads are claimed for the two odd registers of the block at 0x6000: port A and its direction register |
| ViaPort.ViaPortDevice.HandlesWrite | src/devices/via_port_device.cpp:17-19 | writes are claimed for the same two registers |
| ViaPort.ViaPortDevice.ReadValue | src/devices/via_port_device.cpp:21-28 | port A reads the port, DDRA the direction mask, any unclaimed address 0 |
| ViaPort.MergePort | src/devices/via_port_device.cpp:30-37 | each port bit comes from the written value when its DDR bit marks it an output, and keeps its old value otherwise |
| ViaPort.RepeatedWriteIdempotent | src/devices/via_port_device.cpp:30-37 | writing the same value twice leaves the port as writing it once |
| ViaPort.ViaPortDevice.constructor | src/devices/via_port_device.cpp:7-11 | port A reads 0xFF with every line an input |
| ViaPort.ViaPortDevice.Read | src/devices/via_port_device.cpp:21-28 | the register's value; 0 for an address the device does not handle |
| ViaPort.ViaPortDevice.Write | src/devices/via_port_device.cpp:30-37 | port A becomes `MergePort` of the write; DDRA takes the value; other addresses change nothing |
| ViaPort.DirectionScenario | src/devices/via_port_device.cpp:21-37 | with all lines inputs a write leaves 0xFF; after DDRA := 0x0F only the low nibble of the written value lands |
| PiaDevice.PIA.HandlesRead | src/devices/pia.cpp:8-10 | reads are claimed for exactly the four registers of the block at 0xD010 |
| PiaDevice.PIA.HandlesWrite | src/devices/pia.cpp:12-14 | writes are claimed for the same four registers |
| PiaDevice.PIA.ReadValue | src/devices/pia.cpp:16-41 | KBD reads the oldest key or 0; KBDCR reads the control register's low seven bits with bit 7 set when a key is ready or stored set; DSP reads 0x80 (display ready); DSPCR reads its register; anything else 0 |
| PiaDevice.PIA.constructor | src/devices/pia.cpp:3-10 | control registers zero, no key ready, display ready, empty queues |
| PiaDevice.PIA.Read | src/devices/pia.cpp:16-41 | the register's value; KBD consumes the oldest key; nothing else changes |
| PiaDevice.PIA.Write | src/devices/pia.cpp:43-70 | KBDCR and DSPCR store the value; a DSP byte with bit 7 clear is appended as a 7-bit character; with bit 7 set it is dropped |
| PiaDevice.PIA.PushKeyboardCharacter | src/devices/pia.cpp:72-76 | the key joins the queue with bit 7 set and the key-ready flag rises |
| PiaDevice.PIA.ClearDisplayOutput | src/devices/pia.cpp:82-84 | the display output is emptied; the keyboard is kept |
| PiaDevice.PIA.HasKeyboardInput | src/devices/pia.cpp:86-88 | true exactly when a key is queued, which under the invariant is the key-ready flag |
| PiaDevice.KeyboardScenario | tests/memory_map_test.cpp:203-221 | typed keys read back in order with bit 7 set, KBDCR shows bit 7 while a key waits, and the drained register reads 0 |
| PiaDevice.DisplayScenario | src/devices/pia.cpp:43-70 | DSP writes of 'H', 0xC1 and CR, then a write to KBD, leave exactly "H\r" on the display |
| Timers.Digits | src/devices/basic_timer.cpp:60-90 | the four little-endian bytes of a 32-bit register, each in 0..255 |
| Timers.DigitsOfFromDigits | src/devices/basic_timer.cpp:60-135 | four bytes assembled into a register split back into the same four bytes |
| Timers.ReadByte | src/devices/basic_timer.cpp:60-90 | byte k of a register read as `(value >> 8k) & 0xFF` |
| Timers.WriteByte | src/devices/basic_timer.cpp:92-135 | a byte write sets byte k and keeps the other three |
| Timers.BytesDetermineRegister | src/devices/basic_timer.cpp:60-90 | two registers with the same four bytes are equal |
| Timers.DigitsOfValue | src/devices/basic_timer.cpp:60-90 | a register is the sum of its four bytes times their weights |
| Timers.FourWritesRoundTrip | tests/test_timer_device.cpp:42-62 | writing the four bytes of a register then reading them gives back what was written |
| Timers.Add32 | src/devices/basic_timer.cpp:188-227 | the counter sum wraps modulo 2^32 |
| Timers.WithEnable | src/devices/basic_timer.cpp:157-169 | the control byte with only its enable bit set to the given value |
| Timers.BasicTimer.constructor | src/devices/basic_timer.cpp:4-14 | counter, limit and control zero; every flag clear; not initialized |
| Timers.BasicTimer.Initialize | src/devices/basic_timer.cpp:20-37 | always succeeds; the first call resets all state, a repeated call changes nothing |
| Timers.BasicTimer.Cleanup | src/devices/basic_timer.cpp:39-50 | an initialized timer is disabled and its IRQ cleared; counter, limit and control are kept |
| Timers.BasicTimer.StatusRegister | src/devices/basic_timer.cpp:268-284 | bit 0 is enabled, bit 1 IRQ pending, bit 2 limit reached, the other bits zero |
| Timers.BasicTimer.HandlesRead | src/devices/basic_timer.cpp:52-54 | reads are claimed for ten registers: four counter bytes, four limit bytes, control and status |
| Timers.BasicTimer.HandlesWrite | src/devices/basic_timer.cpp:56-58 | writes are claimed for the first nine of them; the status register is read-only |
| Timers.BasicTimer.ReadValue | src/devices/basic_timer.cpp:60-90 | counter and limit registers read as their little-endian bytes, then control and status; unclaimed addresses read 0 |
| Timers.BasicTimer.HasIRQ | src/devices/basic_timer.cpp:171-173 | the timer asserts IRQ exactly when IRQs are enabled and the status register shows an IRQ pending |
| Timers.BasicTimer.Read | src/devices/basic_timer.cpp:60-90 | the register's value; 0 for an address the timer does not handle |
| Timers.BasicTimer.UpdateControlFlags | src/devices/basic_timer.cpp:246-266 | the control byte sets enable, IRQ enable and auto-reload; the IRQ-flag bit acknowledges a pending IRQ; the reset bit zeroes the counter and clears IRQ and limit-reached |
| Timers.BasicTimer.Write | src/devices/basic_timer.cpp:92-135 | counter and limit bytes are replaced one at a time; the control register goes through `UpdateControlFlags`; unhandled addresses change nothing |
| Timers.BasicTimer.SetCounter | src/devices/basic_timer.cpp:141-144 | the counter takes the value and nothing else changes |
| Timers.BasicTimer.SetLimit | src/devices/basic_timer.cpp:233-236 | the limit takes the value and nothing else changes |
| Timers.BasicTimer.Reset | src/devices/basic_timer.cpp:146-151 | the counter is zero, no IRQ is pending and the limit is not reached; the configuration is kept |
| Timers.BasicTimer.SetEnabled | src/devices/basic_timer.cpp:157-169 | the enable flag and the control byte's enable bit both take the value |
| Timers.BasicTimer.ClearIRQ | src/devices/basic_timer.cpp:175-178 | no IRQ is pending afterwards; everything else is kept |
| Timers.BasicTimer.Tick | src/devices/basic_timer.cpp:188-227 | a disabled timer ignores ticks; below the limit (or with limit 0) the counter adds the cycles mod 2^32; reaching the limit sets limit-reached, raises the IRQ when enabled, and then either reloads keeping the overshoot or stops at the limit and disables itself |
| Timers.BasicTimer.ReachLimit | src/devices/basic_timer.cpp:202-224 | the limit branch: reload keeping the overshoot, or stop at the limit and clear the enable bit |
| Timers.StoppedAtLimit | src/devices/basic_timer.cpp:188-224 | a one-shot timer ticked past its limit stops with the counter at the limit and the enable bit gone from control and status; a later `Tick` of any length leaves counter, control and status as they were |
| Timers.AutoReloadScenario | tests/test_timer_device.cpp:175-198 | limit 100 with auto-reload, 150 cycles: counter 50, IRQ raised, status 0x07 |
| Timers.OneShotScenario | tests/test_timer_device.cpp:199-221 | limit 100, control 0x03 (enable and IRQ enable, no auto-reload), 150 cycles: IRQ raised, counter stopped at 100, timer disabled with control reading 0x02, and 500 more cycles change nothing |
| Timers.ByteRegisterScenario | tests/test_timer_device.cpp:63-85 | the limit written as bytes 0x40, 0x42, 0x0F, 0x00 at 0xFC04-0xFC07 reads back the same bytes and holds 1000000 |
| Files.NameOf | src/devices/file_device.cpp:71-78 | the file name is the longest zero-free prefix of the name buffer, ending at the first zero byte |
| Files.NameIsUnique | src/devices/file_device.cpp:71-78 | any zero-free prefix followed by a zero (or the buffer's end) is that name |
| Files.SaveFitsMeansBlockInside | src/devices/file_device.cpp:154-158 | the overflow-safe save check accepts exactly the blocks that end inside the 64 KB address space |
| Files.Loaded | src/devices/file_device.cpp:103-146 | memory with the file's bytes at start..start+size and every other cell unchanged |
| Files.SaveThenLoadKeepsMemory | src/devices/file_device.cpp:103-186 | loading back a block just saved from the same place leaves memory unchanged |
| Files.LoadThenSaveKeepsFile | src/devices/file_device.cpp:103-186 | saving the block just loaded gives back the file's bytes |
| Files.OperationStatus | src/devices/file_device.cpp:80-101 | the status register after an operation is either OK (0) or ERROR (1) |
| Files.OperationSucceeds | src/devices/file_device.cpp:80-186 | status is OK exactly when a name is set, memory is attached, and the operation is a load of an existing file that fits or a save of a block that fits |
| Files.FilesAfter | src/devices/file_device.cpp:148-186 | a successful save stores the memory block under the name; anything else leaves the host files alone |
| Files.MemoryAfter | src/devices/file_device.cpp:103-146 | a successful load lays the file into memory; anything else leaves memory alone |
| Files.FileDevice.constructor | src/devices/file_device.cpp:7-10 | registers, status and name buffer zero, no last file name, the given memory and host files |
| Files.FileDevice.HandlesRead | src/devices/file_device.cpp:12-15 | reads are claimed for the six registers from 0xFE00 and the 64-byte name buffer from 0xFE10 |
| Files.FileDevice.HandlesWrite | src/devices/file_device.cpp:17-20 | writes are claimed for the same six registers and name buffer |
| Files.FileDevice.ReadValue | src/devices/file_device.cpp:22-40 | CONTROL reads the control register and STATUS the result of the last operation (0 OK, 1 ERROR); start and length registers read as their low and high bytes; name-buffer addresses read the buffer; unhandled addresses read 0 |
| Files.FileDevice.Read | src/devices/file_device.cpp:22-40 | the value is `ReadValue` and nothing changes |
| Files.FileDevice.UpdateFilename | src/devices/file_device.cpp:66-69 | exactly one cell of the name buffer changes |
| Files.FileDevice.GetFilenameFromBuffer | src/devices/file_device.cpp:71-78 | the loop computes `NameOf` of the buffer |
| Files.FileDevice.LoadBinary | src/devices/file_device.cpp:103-146 | succeeds exactly when memory is attached, the file exists and fits; then memory is `Loaded`, otherwise unchanged |
| Files.FileDevice.SaveBinary | src/devices/file_device.cpp:148-186 | succeeds exactly when memory is attached and the block fits; then the host file holds the block, otherwise the files are unchanged |
| Files.FileDevice.ExecuteOperation | src/devices/file_device.cpp:80-101 | takes the name from the buffer, sets the status by `OperationStatus` and applies `FilesAfter` and `MemoryAfter` |
| Files.FileDevice.Write | src/devices/file_device.cpp:42-64 | register bytes replace one half of their word; a name-buffer write stores one cell; a control write runs the operation and resets control to 0; the status register is writable |
| Files.RegisterBytesRoundTrip | src/devices/file_device.cpp:42-64 | writing the low and then the high byte of a 16-bit register gives the word made of the two bytes |
| Files.LoadScenario | tests/test_file_device.cpp:181-197 | name "A", start 0x8000, control 1: status 0, control back to 0, and the five file bytes at 0x8000 |
| Files.SaveScenario | tests/test_file_device.cpp:200-226 | four bytes at 0x8500, length 4, control 2: status 0 and the host file holds exactly those bytes |
| Files.EmptyNameScenario | tests/test_file_device.cpp:245-252 | a load with no name written reports ERROR |
| Files.UnknownOperationScenario | tests/test_file_device.cpp:268-273 | control value 99 reports ERROR and leaves the files untouched |
| TextScreens.Blank | src/devices/text_screen.cpp:82-86 | a 40x24 buffer of spaces |
| TextScreens.ScrolledUp | src/devices/text_screen.cpp:145-164 | the scrolled buffer keeps the 960-cell size |
| TextScreens.ScrollMovesRowsUp | src/devices/text_screen.cpp:145-164 | after a scroll every row holds the row below it and the last row is blank |
| TextScreens.LineFeed | src/devices/text_screen.cpp:184-195 | a newline returns to column 0 and keeps the cursor on the screen |
| TextScreens.Advanced | src/devices/text_screen.cpp:166-180 | advancing keeps the cursor on the screen |
| TextScreens.Put | src/devices/text_screen.cpp:221-225 | storing a character at the cursor keeps the cursor where it is |
| TextScreens.Backspaced | src/devices/text_screen.cpp:209-217 | a backspace keeps the cursor on the screen |
| TextScreens.NextTab | src/devices/text_screen.cpp:200-208 | the next tab stop is the first multiple of 8 after the column, at most 8 columns on |
| TextScreens.TabFill | src/devices/text_screen.cpp:200-208 | writing spaces and advancing, any number of times, keeps the cursor on the screen |
| TextScreens.Processed | src/devices/text_screen.cpp:182-227 | processing any character keeps the cursor on the screen and the buffer at 960 cells |
| TextScreens.TabFillWithinLine | src/devices/text_screen.cpp:200-208 | n tab spaces that fit on the line blank exactly the n cells from the cursor and move the column by n |
| TextScreens.PrintableStoresAndAdvances | src/devices/text_screen.cpp:221-225 | a printable character is stored at the cursor and the column moves one right |
| TextScreens.PrintableAtLineEnd | src/devices/text_screen.cpp:166-180 | a printable character in the last column wraps the cursor to the start of the next row |
| TextScreens.NewlineAtBottom | src/devices/text_screen.cpp:184-195 | a newline on the last row scrolls when auto-scroll is on, and otherwise wraps to the top row |
| TextScreens.ControlKeepsCells | src/devices/text_screen.cpp:196-227 | CR moves to column 0; other non-printable characters except newline, tab and backspace change nothing; none of them touches a cell |
| TextScreens.BackspaceUndoesAdvance | src/devices/text_screen.cpp:209-225 | a backspace after a printable character puts the cursor back on that character |
| TextScreens.TabToNextStop | src/devices/text_screen.cpp:200-208 | a tab before column 32 blanks the cells up to the next stop and moves the cursor there on the same row |
| TextScreens.TabWrapsAtLineEnd | src/devices/text_screen.cpp:200-208 | corrected tab: from column 32 on, the tab blanks exactly the cells from the cursor to the end of its line and then takes a line feed; above the bottom row that is column 0 of the next row with no other cell changed |
| TextScreens.TabLoopNeverExits | src/devices/text_screen.cpp:200-208 | as written: from column 32 on the next stop is 40, and after any number of steps the loop guard still holds |
| TextScreens.TabLoopAsWrittenExits | src/devices/text_screen.cpp:200-208 | before column 32 the loop as written runs exactly NextTab - col steps |
| TextScreens.Visible | src/devices/text_screen.cpp:88-109 | a printable byte shows as itself and anything else as a printable replacement |
| TextScreens.RowText | src/devices/text_screen.cpp:88-109 | each rendered row is 40 characters |
| TextScreens.RenderedRows | src/devices/text_screen.cpp:88-109 | the rendered text is 24 rows of 40 characters separated by newlines, with no newline after the last |
| TextScreens.RenderedLayout | src/devices/text_screen.cpp:88-109 | the character at row r, column c of the rendering is the visible form of that cell, and each row but the last ends in a newline |
| TextScreens.TextScreen.constructor | src/devices/text_screen.cpp:5-10 | a blank screen, the cursor home and auto-scroll on |
| TextScreens.TextScreen.HandlesRead | src/devices/text_screen.cpp:12-14 | reads are claimed for the whole top kilobyte, 0xFC00-0xFFFF: video RAM and the four registers above it |
| TextScreens.TextScreen.HandlesWrite | src/devices/text_screen.cpp:16-18 | writes are claimed for the same kilobyte |
| TextScreens.TextScreen.ReadValue | src/devices/text_screen.cpp:20-44 | the first 960 bytes read the cells; the cursor registers read the column and row, the control register its value; the rest of video RAM, the character port and unclaimed addresses read 0 |
| TextScreens.TextScreen.Read | src/devices/text_screen.cpp:20-44 | the register's value; the cursor registers read the column and the row |
| TextScreens.TextScreen.Clear | src/devices/text_screen.cpp:82-86 | a blank screen with the cursor home; the control register is kept |
| TextScreens.TextScreen.SetCursorPosition | src/devices/text_screen.cpp:119-122 | the column and row are taken modulo 40 and 24; the buffer is kept |
| TextScreens.TextScreen.SetAutoScroll | src/devices/text_screen.cpp:133-139 | only the auto-scroll bit of the control register changes |
| TextScreens.TextScreen.ScrollUp | src/devices/text_screen.cpp:145-164 | the buffer becomes `ScrolledUp` and the cursor goes to the start of the last row |
| TextScreens.TextScreen.AdvanceCursor | src/devices/text_screen.cpp:166-180 | the cursor state becomes `Advanced` |
| TextScreens.TextScreen.Tab | src/devices/text_screen.cpp:200-208 | the corrected tab loop runs `NextTab - col` steps of `TabFill` |
| TextScreens.TextScreen.ProcessCharacter | src/devices/text_screen.cpp:182-227 | the screen becomes `Processed` of the character |
| TextScreens.TextScreen.Write | src/devices/text_screen.cpp:46-75 | video RAM writes store a cell; cursor writes set the column or row modulo the screen size; a control write with the clear bit clears the screen and drops the bit; the character port runs `Processed` |
| TextScreens.TextScreen.GetBuffer | src/devices/text_screen.cpp:88-109 | the text is `RenderedRows` of the buffer |
| TextScreens.TabScenario | tests/test_text_screen.cpp:212-220 | 'A', tab, 'B' from home puts 'A' in column 0, spaces in 1..7 and 'B' in column 8 |
| Debugging.Debugger.constructor | src/debugger/debugger.cpp:5-6 | nothing attached, no breakpoints or watchpoints, empty logs, no hit recorded |
| Debugging.Debugger.Attach | src/debugger/debugger.cpp:8-11 | the CPU and memory are attached; the rest is kept |
| Debugging.Debugger.AddBreakpoint | src/debugger/debugger.cpp:13-15 | the address joins the breakpoint set |
| Debugging.Debugger.RemoveBreakpoint | src/debugger/debugger.cpp:17-19 | the address leaves the breakpoint set |
| Debugging.Debugger.HasBreakpoint | src/debugger/debugger.cpp:21-23 | true exactly when adding the address again would change nothing, and exactly when removing it would change the set |
| Debugging.Debugger.ClearBreakpoints | src/debugger/debugger.cpp:25-27 | no breakpoints remain |
| Debugging.Debugger.AddWatchpoint | src/debugger/debugger.cpp:29-31 | the address joins the watchpoint set |
| Debugging.Debugger.RemoveWatchpoint | src/debugger/debugger.cpp:33-35 | the address leaves the watchpoint set |
| Debugging.Debugger.HasWatchpoint | src/debugger/debugger.cpp:37-39 | true exactly when adding the address again would change nothing, and exactly when removing it would change the set |
| Debugging.Debugger.ShouldBreak | src/debugger/debugger.cpp:45-47 | execution stops at a PC exactly when a breakpoint is set there; watchpoints play no part |
| Debugging.Debugger.ClearWatchpoints | src/debugger/debugger.cpp:41-43 | no watchpoints remain |
| Debugging.Debugger.NotifyBreakpoint | src/debugger/debugger.cpp:49-52 | a hit is recorded at the given PC |
| Debugging.Debugger.TraceInstruction | src/debugger/debugger.cpp:54-56 | the PC and opcode are appended to the trace |
| Debugging.Debugger.NotifyMemoryAccess | src/debugger/debugger.cpp:58-64 | the access is logged; a watched address records a hit there, any other keeps the last hit |
| Debugging.Debugger.InspectCPU | src/debugger/debugger.cpp:82-100 | with no CPU, all zeros; otherwise the registers, and each flag as 1 exactly when it is set |
| Debugging.Debugger.ReadMemory | src/debugger/debugger.cpp:102-107 | 0 with no memory attached, otherwise the memory cell |
| Debugging.Debugger.WriteMemory | src/debugger/debugger.cpp:109-114 | with memory attached exactly the addressed cell changes |
| Debugging.BreakpointSetScenario | src/debugger/debugger.cpp:13-39 | an added breakpoint is found, a removed one is not, and breakpoints are not watchpoints |
| Debugging.WatchpointScenario | tests/test_debugger.cpp:33-58 | a store to the watched zero-page address 0 records a hit at 0x0000, and all three accesses are logged |
| Debugging.HitIsStickyScenario | src/debugger/debugger.cpp:25-52 | a hit at 0x8003 survives clearing the breakpoints, after which that PC no longer stops |
| Debugging.DetachedMemoryScenario | src/debugger/debugger.cpp:102-114 | with no memory a read gives 0 and a write is lost |
| Debugging.TraceScenario | src/debugger/debugger.cpp:54-56 | the trace keeps the instructions in the order they ran |
| RomTools.Injected | tools/inject_wozmon.py:16-20 | the image keeps its length; the payload bytes that fit replace the bytes from 0x7F00 on; every other byte is kept |
| RomTools.InjectIsIdempotent | tools/inject_wozmon.py:16-22 | injecting the same payload twice gives the same image as once |
| RomTools.InjectedPayloadReadsBack | tools/inject_wozmon.py:16-22 | a payload that fits reads back whole from 0x7F00 |
| RomTools.RomPath | tools/inject_wozmon.py:9-11 | the ROM path is the second argument when given, else src/wozmon/rom.bin under the repository root |
| RomTools.InjectWozmon | tools/inject_wozmon.py:5-22 | fewer than two arguments exit 2; a missing file exits 1; otherwise exit 0 with the ROM file replaced by `Injected` |
| RomTools.Patched | tools/patch_rom.py:26-28 | the image keeps its length, holds the patch at 0x7F08..0x7F0A and is otherwise unchanged |
| RomTools.PatchRom | tools/patch_rom.py:7-28 | a missing ROM exits 1 and a short one exits 2, both writing nothing; a ROM of at least 0x7F0B bytes always exits 0 with the ROM `Patched` (an already patched image is its own patched image); exit 0 happens exactly then; no file appears or disappears |
| RomTools.PatchedAlready | tools/patch_rom.py:21-24 | an image already holding the patch is its own patched image |
| RomTools.PatchIsIdempotent | tools/patch_rom.py:21-28 | for any ROM long enough to patch, a second run finds the patch in place, exits 0 and writes nothing |
| RomTools.PatchIsJmpFF24 | tools/patch_rom.py:13-14 | the three patch bytes decode as an absolute JMP to 0xFF24 by the opcode table and little-endian order |

## Left out

- `CPU::Execute` (src/cpu/cpu.cpp:260-305) is not modelled as a loop. Its body is breakpoint checks, debugger hooks and logging around a fetch and dispatch. The model gives a single step: `Dispatch.Step` fetches an opcode and runs its handler, and `Dispatch.Run` runs one handler. Interrupt entry is `Cpu.CPU.CheckAndHandleInterrupts`, called on its own.
- Timers.BasicTimer.HasIRQ: in the C++ the timer is itself an `InterruptSource` (include/devices/basic_timer.hpp:61) that the interrupt controller polls. In the model the controller's sources are `Interrupts.InterruptSource` objects with plain IRQ and NMI lines, so a timer cannot be registered with `Interrupts.InterruptController`; the timer's `HasIRQ` and `ClearIRQ` stand alone.
- JSR is not modelled. Its handler calls `CPU::PushPCToStack`, which src/cpu/cpu.cpp does not define; only the legacy CPU at the repository root does. In the model opcode 0x20 jumps to its operand and pushes no return address.
- The root-level `cpu.cpp`, `cpu.hpp` and `test.cpp` are an earlier CPU and are not part of this model.
- Decimal (BCD) mode: ADC and SBC in the source are binary only and ignore D, and so does the model.
- The handlers run over the flat 64 KB `Mem`, not over the `SystemMap` bus that `Execute` passes them. `Bus` models that bus's decoding on its own, and the two are not connected. A handler's memory effect is therefore stated for plain RAM, not for a device's side effects.
- Cpu.CPU.FetchByte: reads the flat `Mem`, not the `SystemMap` bus the source passes (src/cpu/cpu.cpp:67-74), and does not report the access to an attached debugger.
- Cpu.CPU.FetchWord: as `Cpu.CPU.FetchByte`, for the two bytes it reads (src/cpu/cpu.cpp:76-87).
- Cpu.CPU.CheckAndHandleInterrupts: pushes the interrupt frame and reads the vector in the flat `Mem`, not through the bus, and reports none of those accesses to a debugger.
- The per-access `notifyMemoryAccess` calls that src/cpu/cpu.cpp makes on every CPU read and write (lines 69-135) are not modelled, and nothing links the CPU to `Debugging.Debugger`. So in the model a watchpoint is hit only by calling `Debugging.Debugger.NotifyMemoryAccess` directly, never by a running instruction.
- The memory-map constants of mem.hpp (lines 31-41) are declared as constants of `Memory`. That the regions are adjacent is arithmetic on those constants and is not stated as a lemma. What the model does prove is that stack accesses stay in page one (`Cpu.StackAddress`) and that interrupt entry reads its vectors at `NMI_VECTOR` and `IRQ_VECTOR` (`Cpu.CPU.CheckAndHandleInterrupts`).
- `Files.FileDevice` loads into and saves from a flat `Mem` in the same way. The host file system is the device's `files` field, a map from file names to their bytes. A load fails on the host only when the name is missing, and a save never fails there; other host I/O errors are not modelled.
- Handler cycle counts are not compared with the metadata table's cycle column. The handlers' own unguarded decrements are modelled as written (`Cpu.Spend`).
- Logging (`CPU::LogMemoryAccess`, log rotation, the logger), the SDL GUI, the TCP serial device, the audio device, the scripting API, the `main` programs and the demos are not part of this model. They are I/O, threads or rendering.
- The timer's mutex and atomics are plain fields. The model is sequential.
- `CPU::syncIODeviceRegistrations` is not modelled; only `Execute` calls it. The bus that registrations are forwarded to is the CPU's `attachedBus` field, set by the caller.
- `include/devices/via_device.hpp`, the joystick device and `peripheral_device.hpp` have no implementations and are not part of this model.
- A `shared_ptr` to a device is an `Option<Bus.Device>` in the operations that accept a null one; elsewhere devices are always present.
- `std::vector`, `std::queue` and `std::string` fields are `seq` fields. Their allocation and capacity are not modelled.
- The Python tools' printed messages are not modelled; only the exit status and the files are.
- Bus.SystemMap: its methods require every registered device to be valid and disjoint from RAM, ROM and the other devices. The C++ gives no such guarantee, but nothing there shares state between devices.
- Cpu.CPU: its methods require that the CPU is not part of an attached bus's footprint.
- Bus.DeviceWrite: the device's new state is given by that device's own `Write` contract, not restated here.
- Bus.SystemMap.Write: a write that a device claims is stated through `Bus.DeviceWrite`, so the device's new state is only as precise as that device's `Write` contract.
- Bus.SystemMap.ExternalWrite: as `Bus.SystemMap.Write`, for the registered-device branch.
- Bus.SystemMap.C64Write: the C64 I/O block's new state is given by `C64Io.C64IO.Write`'s contract.
- Dispatch.Run: states the effect on PC and the fall-through of the default handler only. The full effect of each opcode is the contract of the handler it dispatches to.
- Dispatch.Step: states the fetched opcode, the handler chosen, and the PC and budget only. The handler's full effect is its own contract.
- Dispatch.ApplyOperation: states only which handler runs and the PC that results; the register and flag effects are in the handler's contract.
- Dispatch.ApplyShift: as `Dispatch.ApplyOperation`, for the shift and rotate handlers.
- Dispatch.ApplyImplied: as `Dispatch.ApplyOperation`, for the implied-mode handlers.
- Dispatch.EffectiveAddress: states only that immediate mode gives the operand's own address and that the zero-page modes stay in page zero. The exact address of each mode is the contract of the matching `Addressing` method.
- TextScreens.TextScreen.Tab: models the tab as it evidently should behave, not as written; see Findings.
- TextScreens.Processed: a tab from column 32..39 ends at column 0 of the next line, as the corrected `TextScreens.TextScreen.Tab` does; as written the source loops forever there (see Findings).
- TextScreens.TextScreen.ProcessCharacter: a tab from column 32..39 ends at column 0 of the next line, as the corrected `TextScreens.TextScreen.Tab` does; as written the source loops forever there (see Findings).
- TextScreens.TextScreen.Write: a tab from column 32..39 ends at column 0 of the next line, as the corrected `TextScreens.TextScreen.Tab` does; as written the source loops forever there (see Findings).
- The tests' hard-coded opcode lists are subsets of what the metadata table says. The table also marks 0x54 as unimplemented, and also flags 0x32, 0x74 and 0xFF as 65C02. The model follows the table: `InstructionSet.ListMatchesPredicate` and `InstructionSet.ImplementedCount` are stated on the table's full list of 44 unimplemented opcodes.

## Findings

| source | as written | input that shows it | evidently intended | confidence | as-written member | corrected member |
|---|---|---|---|---|---|---|
| src/devices/text_screen.cpp:200-208 | a tab writes spaces until the column reaches the next multiple of 8; from column 32 that stop is 40, which the column never reaches because advancing from column 39 wraps it to 0 of the next row, so the loop never ends | a tab written with the cursor in column 32..39 | blank to the end of the line and continue at column 0 of the next line | not executed | `TextScreens.TabLoopNeverExits` | `TextScreens.TabWrapsAtLineEnd` (the loop: `TextScreens.TextScreen.Tab`) |
