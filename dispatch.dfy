/*
 * The dispatch of src/cpu/instructions.cpp and the loop body of
 * CPU::Execute in src/cpu/cpu.cpp.
 *
 * InitializeInstructionTable fills a 256-entry table of handlers once: every
 * opcode first gets a handler that reports it and spends one cycle, then the
 * implemented opcodes are overwritten one by one (a later assignment wins).
 * The table's final content is modelled as the function `GetHandler` from an
 * opcode to a `Handler` value naming what the stored lambda does: which
 * instruction handler of module Instructions it calls, and with which
 * addressing mode of module Addressing it computes the operand address.
 * `Run` performs a handler and `Step` is one iteration of the execution loop.
 */
module Dispatch {
  import opened Bits
  import opened Memory
  import opened Cpu
  import InstructionSet
  import Addressing
  import Instructions

  // ---------------------------------------------------------------
  // What a table entry does
  // ---------------------------------------------------------------

  /** The addressing-mode function a handler calls for its operand address. */
  datatype Mode =
    | ModeImmediate
    | ModeZeroPage
    | ModeZeroPageX
    | ModeZeroPageY
    | ModeAbsolute
    | ModeAbsoluteX(pageCrossPenalty: bool)
    | ModeAbsoluteY(pageCrossPenalty: bool)
    | ModeIndirectX
    | ModeIndirectY(pageCrossPenalty: bool)
    | ModeIndirectZeroPage
    | ModeIndirect

  /** The instruction handlers that take an effective address. */
  datatype Operation =
    | LDA | LDX | LDY | STA | STX | STY | STZ
    | AND | EOR | ORA | BIT | ADC | SBC | CMP | CPX | CPY
    | INC | DEC | TSB | TRB | JMP

  /** The shift and rotate handlers, which work on A or on a memory cell. */
  datatype ShiftOperation = ASL | LSR | ROL | ROR

  /** The handlers that take no operand address. */
  datatype ImpliedOperation =
    | TAX | TAY | TXA | TYA | TSX | TXS
    | PHA | PHP | PLA | PLP | PHX | PHY | PLX | PLY
    | INX | INY | DEX | DEY | INC_A | DEC_A
    | CLC | CLD | CLI | CLV | SEC | SED | SEI
    | BRK | RTI | RTS | NOP | WAI | STP

  /** The status flag a conditional branch tests. */
  datatype Flag = FlagN | FlagV | FlagC | FlagZ

  type BitIndex = n: nat | n < 8

  /** The content of one table entry. */
  datatype Handler =
    | Unimplemented
    | Coprocessor
    | WithOperand(op: Operation, mode: Mode)
    | ShiftAccumulator(shift: ShiftOperation)
    | ShiftMemory(shift: ShiftOperation, mode: Mode)
    | Implied(implied: ImpliedOperation)
    | JumpToSubroutine
    | JumpAbsoluteX
    | BranchIf(flag: Flag, whenSet: bool)
    | BranchAlways
    | ResetMemoryBit(bit: BitIndex)
    | SetMemoryBit(bit: BitIndex)
    | BranchOnBit(bit: BitIndex, branchOnSet: bool)

  // ---------------------------------------------------------------
  // The table
  // ---------------------------------------------------------------

  /*
   * The table after InitializeInstructionTable, row by row: entry j of
   * HANDLERS_k is the handler of opcode 16 * k + j. Only the 44 opcodes the
   * reference table lists as "---" keep the default handler, except 0x02,
   * which the dispatch runs as the 65C02 COP (a one-byte NOP). Where the
   * initialisation assigns an opcode twice (0x5A and 0x7A), the later
   * assignment is the one kept.
   */

  const HANDLERS_0: seq<Handler> := [
    Implied(BRK),  // 0x00
    WithOperand(ORA, ModeIndirectX),  // 0x01
    Coprocessor,  // 0x02
    Unimplemented,  // 0x03
    WithOperand(TSB, ModeZeroPage),  // 0x04
    WithOperand(ORA, ModeZeroPage),  // 0x05
    ShiftMemory(ASL, ModeZeroPage),  // 0x06
    ResetMemoryBit(0),  // 0x07
    Implied(PHP),  // 0x08
    WithOperand(ORA, ModeImmediate),  // 0x09
    ShiftAccumulator(ASL),  // 0x0A
    Unimplemented,  // 0x0B
    WithOperand(TSB, ModeAbsolute),  // 0x0C
    WithOperand(ORA, ModeAbsolute),  // 0x0D
    ShiftMemory(ASL, ModeAbsolute),  // 0x0E
    BranchOnBit(0, false)   // 0x0F
  ]

  const HANDLERS_1: seq<Handler> := [
    BranchIf(FlagN, false),  // 0x10
    WithOperand(ORA, ModeIndirectY(true)),  // 0x11
    WithOperand(ORA, ModeIndirectZeroPage),  // 0x12
    Unimplemented,  // 0x13
    WithOperand(TRB, ModeZeroPage),  // 0x14
    WithOperand(ORA, ModeZeroPageX),  // 0x15
    ShiftMemory(ASL, ModeZeroPageX),  // 0x16
    ResetMemoryBit(1),  // 0x17
    Implied(CLC),  // 0x18
    WithOperand(ORA, ModeAbsoluteY(true)),  // 0x19
    Implied(INC_A),  // 0x1A
    Unimplemented,  // 0x1B
    WithOperand(TRB, ModeAbsolute),  // 0x1C
    WithOperand(ORA, ModeAbsoluteX(true)),  // 0x1D
    ShiftMemory(ASL, ModeAbsoluteX(false)),  // 0x1E
    BranchOnBit(1, false)   // 0x1F
  ]

  const HANDLERS_2: seq<Handler> := [
    JumpToSubroutine,  // 0x20
    WithOperand(AND, ModeIndirectX),  // 0x21
    Unimplemented,  // 0x22
    Unimplemented,  // 0x23
    WithOperand(BIT, ModeZeroPage),  // 0x24
    WithOperand(AND, ModeZeroPage),  // 0x25
    ShiftMemory(ROL, ModeZeroPage),  // 0x26
    ResetMemoryBit(2),  // 0x27
    Implied(PLP),  // 0x28
    WithOperand(AND, ModeImmediate),  // 0x29
    ShiftAccumulator(ROL),  // 0x2A
    Unimplemented,  // 0x2B
    WithOperand(BIT, ModeAbsolute),  // 0x2C
    WithOperand(AND, ModeAbsolute),  // 0x2D
    ShiftMemory(ROL, ModeAbsolute),  // 0x2E
    BranchOnBit(2, false)   // 0x2F
  ]

  const HANDLERS_3: seq<Handler> := [
    BranchIf(FlagN, true),  // 0x30
    WithOperand(AND, ModeIndirectY(true)),  // 0x31
    WithOperand(AND, ModeIndirectZeroPage),  // 0x32
    Unimplemented,  // 0x33
    WithOperand(BIT, ModeZeroPageX),  // 0x34
    WithOperand(AND, ModeZeroPageX),  // 0x35
    ShiftMemory(ROL, ModeZeroPageX),  // 0x36
    ResetMemoryBit(3),  // 0x37
    Implied(SEC),  // 0x38
    WithOperand(AND, ModeAbsoluteY(true)),  // 0x39
    Implied(DEC_A),  // 0x3A
    Unimplemented,  // 0x3B
    WithOperand(BIT, ModeAbsoluteX(true)),  // 0x3C
    WithOperand(AND, ModeAbsoluteX(true)),  // 0x3D
    ShiftMemory(ROL, ModeAbsoluteX(false)),  // 0x3E
    BranchOnBit(3, false)   // 0x3F
  ]

  const HANDLERS_4: seq<Handler> := [
    Implied(RTI),  // 0x40
    WithOperand(EOR, ModeIndirectX),  // 0x41
    Unimplemented,  // 0x42
    Unimplemented,  // 0x43
    Unimplemented,  // 0x44
    WithOperand(EOR, ModeZeroPage),  // 0x45
    ShiftMemory(LSR, ModeZeroPage),  // 0x46
    ResetMemoryBit(4),  // 0x47
    Implied(PHA),  // 0x48
    WithOperand(EOR, ModeImmediate),  // 0x49
    ShiftAccumulator(LSR),  // 0x4A
    Unimplemented,  // 0x4B
    WithOperand(JMP, ModeAbsolute),  // 0x4C
    WithOperand(EOR, ModeAbsolute),  // 0x4D
    ShiftMemory(LSR, ModeAbsolute),  // 0x4E
    BranchOnBit(4, false)   // 0x4F
  ]

  const HANDLERS_5: seq<Handler> := [
    BranchIf(FlagV, false),  // 0x50
    WithOperand(EOR, ModeIndirectY(true)),  // 0x51
    WithOperand(EOR, ModeIndirectZeroPage),  // 0x52
    Unimplemented,  // 0x53
    Unimplemented,  // 0x54
    WithOperand(EOR, ModeZeroPageX),  // 0x55
    ShiftMemory(LSR, ModeZeroPageX),  // 0x56
    ResetMemoryBit(5),  // 0x57
    Implied(CLI),  // 0x58
    WithOperand(EOR, ModeAbsoluteY(true)),  // 0x59
    Implied(PHY),  // 0x5A
    Unimplemented,  // 0x5B
    Unimplemented,  // 0x5C
    WithOperand(EOR, ModeAbsoluteX(true)),  // 0x5D
    ShiftMemory(LSR, ModeAbsoluteX(false)),  // 0x5E
    BranchOnBit(5, false)   // 0x5F
  ]

  const HANDLERS_6: seq<Handler> := [
    Implied(RTS),  // 0x60
    WithOperand(ADC, ModeIndirectX),  // 0x61
    Unimplemented,  // 0x62
    Unimplemented,  // 0x63
    WithOperand(STZ, ModeZeroPage),  // 0x64
    WithOperand(ADC, ModeZeroPage),  // 0x65
    ShiftMemory(ROR, ModeZeroPage),  // 0x66
    ResetMemoryBit(6),  // 0x67
    Implied(PLA),  // 0x68
    WithOperand(ADC, ModeImmediate),  // 0x69
    ShiftAccumulator(ROR),  // 0x6A
    Unimplemented,  // 0x6B
    WithOperand(JMP, ModeIndirect),  // 0x6C
    WithOperand(ADC, ModeAbsolute),  // 0x6D
    ShiftMemory(ROR, ModeAbsolute),  // 0x6E
    BranchOnBit(6, false)   // 0x6F
  ]

  const HANDLERS_7: seq<Handler> := [
    BranchIf(FlagV, true),  // 0x70
    WithOperand(ADC, ModeIndirectY(true)),  // 0x71
    WithOperand(ADC, ModeIndirectZeroPage),  // 0x72
    Unimplemented,  // 0x73
    WithOperand(STZ, ModeZeroPageX),  // 0x74
    WithOperand(ADC, ModeZeroPageX),  // 0x75
    ShiftMemory(ROR, ModeZeroPageX),  // 0x76
    ResetMemoryBit(7),  // 0x77
    Implied(SEI),  // 0x78
    WithOperand(ADC, ModeAbsoluteY(true)),  // 0x79
    Implied(PLY),  // 0x7A
    Unimplemented,  // 0x7B
    JumpAbsoluteX,  // 0x7C
    WithOperand(ADC, ModeAbsoluteX(true)),  // 0x7D
    ShiftMemory(ROR, ModeAbsoluteX(false)),  // 0x7E
    BranchOnBit(7, false)   // 0x7F
  ]

  const HANDLERS_8: seq<Handler> := [
    BranchAlways,  // 0x80
    WithOperand(STA, ModeIndirectX),  // 0x81
    Unimplemented,  // 0x82
    Unimplemented,  // 0x83
    WithOperand(STY, ModeZeroPage),  // 0x84
    WithOperand(STA, ModeZeroPage),  // 0x85
    WithOperand(STX, ModeZeroPage),  // 0x86
    SetMemoryBit(0),  // 0x87
    Implied(DEY),  // 0x88
    WithOperand(BIT, ModeImmediate),  // 0x89
    Implied(TXA),  // 0x8A
    Unimplemented,  // 0x8B
    WithOperand(STY, ModeAbsolute),  // 0x8C
    WithOperand(STA, ModeAbsolute),  // 0x8D
    WithOperand(STX, ModeAbsolute),  // 0x8E
    BranchOnBit(0, true)   // 0x8F
  ]

  const HANDLERS_9: seq<Handler> := [
    BranchIf(FlagC, false),  // 0x90
    WithOperand(STA, ModeIndirectY(false)),  // 0x91
    WithOperand(STA, ModeIndirectZeroPage),  // 0x92
    Unimplemented,  // 0x93
    WithOperand(STY, ModeZeroPageX),  // 0x94
    WithOperand(STA, ModeZeroPageX),  // 0x95
    WithOperand(STX, ModeZeroPageY),  // 0x96
    SetMemoryBit(1),  // 0x97
    Implied(TYA),  // 0x98
    WithOperand(STA, ModeAbsoluteY(false)),  // 0x99
    Implied(TXS),  // 0x9A
    Unimplemented,  // 0x9B
    WithOperand(STZ, ModeAbsolute),  // 0x9C
    WithOperand(STA, ModeAbsoluteX(false)),  // 0x9D
    WithOperand(STZ, ModeAbsoluteX(false)),  // 0x9E
    BranchOnBit(1, true)   // 0x9F
  ]

  const HANDLERS_A: seq<Handler> := [
    WithOperand(LDY, ModeImmediate),  // 0xA0
    WithOperand(LDA, ModeIndirectX),  // 0xA1
    WithOperand(LDX, ModeImmediate),  // 0xA2
    Unimplemented,  // 0xA3
    WithOperand(LDY, ModeZeroPage),  // 0xA4
    WithOperand(LDA, ModeZeroPage),  // 0xA5
    WithOperand(LDX, ModeZeroPage),  // 0xA6
    SetMemoryBit(2),  // 0xA7
    Implied(TAY),  // 0xA8
    WithOperand(LDA, ModeImmediate),  // 0xA9
    Implied(TAX),  // 0xAA
    Unimplemented,  // 0xAB
    WithOperand(LDY, ModeAbsolute),  // 0xAC
    WithOperand(LDA, ModeAbsolute),  // 0xAD
    WithOperand(LDX, ModeAbsolute),  // 0xAE
    BranchOnBit(2, true)   // 0xAF
  ]

  const HANDLERS_B: seq<Handler> := [
    BranchIf(FlagC, true),  // 0xB0
    WithOperand(LDA, ModeIndirectY(true)),  // 0xB1
    WithOperand(LDA, ModeIndirectZeroPage),  // 0xB2
    Unimplemented,  // 0xB3
    WithOperand(LDY, ModeZeroPageX),  // 0xB4
    WithOperand(LDA, ModeZeroPageX),  // 0xB5
    WithOperand(LDX, ModeZeroPageY),  // 0xB6
    SetMemoryBit(3),  // 0xB7
    Implied(CLV),  // 0xB8
    WithOperand(LDA, ModeAbsoluteY(true)),  // 0xB9
    Implied(TSX),  // 0xBA
    Unimplemented,  // 0xBB
    WithOperand(LDY, ModeAbsoluteX(true)),  // 0xBC
    WithOperand(LDA, ModeAbsoluteX(true)),  // 0xBD
    WithOperand(LDX, ModeAbsoluteY(true)),  // 0xBE
    BranchOnBit(3, true)   // 0xBF
  ]

  const HANDLERS_C: seq<Handler> := [
    WithOperand(CPY, ModeImmediate),  // 0xC0
    WithOperand(CMP, ModeIndirectX),  // 0xC1
    Unimplemented,  // 0xC2
    Unimplemented,  // 0xC3
    WithOperand(CPY, ModeZeroPage),  // 0xC4
    WithOperand(CMP, ModeZeroPage),  // 0xC5
    WithOperand(DEC, ModeZeroPage),  // 0xC6
    SetMemoryBit(4),  // 0xC7
    Implied(INY),  // 0xC8
    WithOperand(CMP, ModeImmediate),  // 0xC9
    Implied(DEX),  // 0xCA
    Implied(WAI),  // 0xCB
    WithOperand(CPY, ModeAbsolute),  // 0xCC
    WithOperand(CMP, ModeAbsolute),  // 0xCD
    WithOperand(DEC, ModeAbsolute),  // 0xCE
    BranchOnBit(4, true)   // 0xCF
  ]

  const HANDLERS_D: seq<Handler> := [
    BranchIf(FlagZ, false),  // 0xD0
    WithOperand(CMP, ModeIndirectY(true)),  // 0xD1
    WithOperand(CMP, ModeIndirectZeroPage),  // 0xD2
    Unimplemented,  // 0xD3
    Unimplemented,  // 0xD4
    WithOperand(CMP, ModeZeroPageX),  // 0xD5
    WithOperand(DEC, ModeZeroPageX),  // 0xD6
    SetMemoryBit(5),  // 0xD7
    Implied(CLD),  // 0xD8
    WithOperand(CMP, ModeAbsoluteY(true)),  // 0xD9
    Implied(PHX),  // 0xDA
    Implied(STP),  // 0xDB
    Unimplemented,  // 0xDC
    WithOperand(CMP, ModeAbsoluteX(true)),  // 0xDD
    WithOperand(DEC, ModeAbsoluteX(false)),  // 0xDE
    BranchOnBit(5, true)   // 0xDF
  ]

  const HANDLERS_E: seq<Handler> := [
    WithOperand(CPX, ModeImmediate),  // 0xE0
    WithOperand(SBC, ModeIndirectX),  // 0xE1
    Unimplemented,  // 0xE2
    Unimplemented,  // 0xE3
    WithOperand(CPX, ModeZeroPage),  // 0xE4
    WithOperand(SBC, ModeZeroPage),  // 0xE5
    WithOperand(INC, ModeZeroPage),  // 0xE6
    SetMemoryBit(6),  // 0xE7
    Implied(INX),  // 0xE8
    WithOperand(SBC, ModeImmediate),  // 0xE9
    Implied(NOP),  // 0xEA
    Unimplemented,  // 0xEB
    WithOperand(CPX, ModeAbsolute),  // 0xEC
    WithOperand(SBC, ModeAbsolute),  // 0xED
    WithOperand(INC, ModeAbsolute),  // 0xEE
    BranchOnBit(6, true)   // 0xEF
  ]

  const HANDLERS_F: seq<Handler> := [
    BranchIf(FlagZ, true),  // 0xF0
    WithOperand(SBC, ModeIndirectY(true)),  // 0xF1
    WithOperand(SBC, ModeIndirectZeroPage),  // 0xF2
    Unimplemented,  // 0xF3
    Unimplemented,  // 0xF4
    WithOperand(SBC, ModeZeroPageX),  // 0xF5
    WithOperand(INC, ModeZeroPageX),  // 0xF6
    SetMemoryBit(7),  // 0xF7
    Implied(SED),  // 0xF8
    WithOperand(SBC, ModeAbsoluteY(true)),  // 0xF9
    Implied(PLX),  // 0xFA
    Unimplemented,  // 0xFB
    Unimplemented,  // 0xFC
    WithOperand(SBC, ModeAbsoluteX(true)),  // 0xFD
    WithOperand(INC, ModeAbsoluteX(false)),  // 0xFE
    BranchOnBit(7, true)   // 0xFF
  ]

  function HandlerRow(k: int): (r: seq<Handler>)
    requires 0 <= k < 16
    ensures |r| == 16
  {
    match k
    case 0 => HANDLERS_0
    case 1 => HANDLERS_1
    case 2 => HANDLERS_2
    case 3 => HANDLERS_3
    case 4 => HANDLERS_4
    case 5 => HANDLERS_5
    case 6 => HANDLERS_6
    case 7 => HANDLERS_7
    case 8 => HANDLERS_8
    case 9 => HANDLERS_9
    case 10 => HANDLERS_A
    case 11 => HANDLERS_B
    case 12 => HANDLERS_C
    case 13 => HANDLERS_D
    case 14 => HANDLERS_E
    case 15 => HANDLERS_F
  }

  /** The handler InitializeInstructionTable leaves at `opcode`. */
  function GetHandler(opcode: bv8): Handler
  {
    HandlerRow((opcode >> 4) as int)[(opcode & 0x0F) as int]
  }

  /** Looking a byte up is looking its value up. */
  lemma GetHandlerAt(opcode: bv8)
    ensures GetHandler(opcode) == HandlerAt(opcode as int)
  {
    OpcodeNibbles(opcode);
  }

  lemma OpcodeNibbles(opcode: bv8)
    ensures (opcode >> 4) as int == opcode as int / 16
    ensures (opcode & 0x0F) as int == opcode as int % 16
  {
  }

  /** The handler of opcode `i`, for an opcode given as an integer. */
  function HandlerAt(i: int): Handler
    requires 0 <= i < 256
  {
    HandlerRow(i / 16)[i % 16]
  }

  // ---------------------------------------------------------------
  // The names the reference table gives each entry
  // ---------------------------------------------------------------

  function OperationName(op: Operation): string
  {
    match op
    case LDA => "LDA" case LDX => "LDX" case LDY => "LDY" case STA => "STA" case STX => "STX"
    case STY => "STY" case STZ => "STZ" case AND => "AND" case EOR => "EOR" case ORA => "ORA"
    case BIT => "BIT" case ADC => "ADC" case SBC => "SBC" case CMP => "CMP" case CPX => "CPX"
    case CPY => "CPY" case INC => "INC" case DEC => "DEC" case TSB => "TSB" case TRB => "TRB"
    case JMP => "JMP"
  }

  function ShiftName(shift: ShiftOperation): string
  {
    match shift
    case ASL => "ASL" case LSR => "LSR" case ROL => "ROL" case ROR => "ROR"
  }

  function ImpliedName(op: ImpliedOperation): string
  {
    match op
    case TAX => "TAX" case TAY => "TAY" case TXA => "TXA" case TYA => "TYA" case TSX => "TSX"
    case TXS => "TXS" case PHA => "PHA" case PHP => "PHP" case PLA => "PLA" case PLP => "PLP"
    case PHX => "PHX" case PHY => "PHY" case PLX => "PLX" case PLY => "PLY" case INX => "INX"
    case INY => "INY" case DEX => "DEX" case DEY => "DEY" case INC_A => "INC" case DEC_A => "DEC"
    case CLC => "CLC" case CLD => "CLD" case CLI => "CLI" case CLV => "CLV" case SEC => "SEC"
    case SED => "SED" case SEI => "SEI" case BRK => "BRK" case RTI => "RTI" case RTS => "RTS"
    case NOP => "NOP" case WAI => "WAI" case STP => "STP"
  }

  function BranchName(flag: Flag, whenSet: bool): string
  {
    match flag
    case FlagN => if whenSet then "BMI" else "BPL"
    case FlagV => if whenSet then "BVS" else "BVC"
    case FlagC => if whenSet then "BCS" else "BCC"
    case FlagZ => if whenSet then "BEQ" else "BNE"
  }

  function Digit(n: BitIndex): char
  {
    ('0' as int + n) as char
  }

  /** The mnemonic of the instruction a handler performs. */
  function Mnemonic(h: Handler): string
  {
    match h
    case Unimplemented => "---"
    case Coprocessor => "COP"
    case WithOperand(op, _) => OperationName(op)
    case ShiftAccumulator(shift) => ShiftName(shift)
    case ShiftMemory(shift, _) => ShiftName(shift)
    case Implied(op) => ImpliedName(op)
    case JumpToSubroutine => "JSR"
    case JumpAbsoluteX => "JMP"
    case BranchIf(flag, whenSet) => BranchName(flag, whenSet)
    case BranchAlways => "BRA"
    case ResetMemoryBit(n) => "RMB" + [Digit(n)]
    case SetMemoryBit(n) => "SMB" + [Digit(n)]
    case BranchOnBit(n, branchOnSet) => (if branchOnSet then "BBS" else "BBR") + [Digit(n)]
  }

  function ModeName(mode: Mode): string
  {
    match mode
    case ModeImmediate => "Immediate"
    case ModeZeroPage => "Zero Page"
    case ModeZeroPageX => "Zero Page,X"
    case ModeZeroPageY => "Zero Page,Y"
    case ModeAbsolute => "Absolute"
    case ModeAbsoluteX(_) => "Absolute,X"
    case ModeAbsoluteY(_) => "Absolute,Y"
    case ModeIndirectX => "(Indirect,X)"
    case ModeIndirectY(_) => "(Indirect),Y"
    case ModeIndirectZeroPage => "(Zero Page)"
    case ModeIndirect => "(Indirect)"
  }

  /** The addressing-mode name of the instruction a handler performs. */
  function ModeOf(h: Handler): string
  {
    match h
    case WithOperand(_, mode) => ModeName(mode)
    case ShiftMemory(_, mode) => ModeName(mode)
    case ShiftAccumulator(_) => "Accumulator"
    case Implied(op) => if op == INC_A || op == DEC_A then "Accumulator" else "Implied"
    case JumpToSubroutine => "Absolute"
    case JumpAbsoluteX => "Absolute,X"
    case BranchIf(_, _) => "Relative"
    case BranchAlways => "Relative"
    case BranchOnBit(_, _) => "Relative"
    case ResetMemoryBit(_) => "Zero Page"
    case SetMemoryBit(_) => "Zero Page"
    case Unimplemented => "Implied"
    case Coprocessor => "Implied"
  }

  /**
   * The table entry `h` of opcode `i` agrees with the reference-table entry
   * `m` of the same opcode: the same mnemonic and addressing mode, or "---"
   * where the entry keeps the default handler. COP sits at 0x02 only.
   */
  predicate Agrees(i: int, h: Handler, m: InstructionSet.InstructionMetadata)
  {
    && (h.Coprocessor? <==> i == 0x02)
    && (if h.Unimplemented? || h.Coprocessor? then m.mnemonic == "---" else Mnemonic(h) == m.mnemonic)
    && (!h.Unimplemented? ==> ModeOf(h) == m.addressingMode)
  }

  lemma Row0LowAgrees()
    ensures forall j :: 0 <= j < 8 ==> Agrees(InstructionSet.RowStart(0) + j, HANDLERS_0[j], InstructionSet.ROW_0[j])
  {
    forall j | 0 <= j < 8
      ensures Agrees(InstructionSet.RowStart(0) + j, HANDLERS_0[j], InstructionSet.ROW_0[j])
    {
      assert j == 0 || j == 1 || j == 2 || j == 3 || j == 4 || j == 5 || j == 6 || j == 7;
    }
  }

  lemma Row0HighAgrees()
    ensures forall j :: 8 <= j < 16 ==> Agrees(InstructionSet.RowStart(0) + j, HANDLERS_0[j], InstructionSet.ROW_0[j])
  {
    forall j | 8 <= j < 16
      ensures Agrees(InstructionSet.RowStart(0) + j, HANDLERS_0[j], InstructionSet.ROW_0[j])
    {
      assert j == 8 || j == 9 || j == 10 || j == 11 || j == 12 || j == 13 || j == 14 || j == 15;
    }
  }

  lemma Row1LowAgrees()
    ensures forall j :: 0 <= j < 8 ==> Agrees(InstructionSet.RowStart(1) + j, HANDLERS_1[j], InstructionSet.ROW_1[j])
  {
    forall j | 0 <= j < 8
      ensures Agrees(InstructionSet.RowStart(1) + j, HANDLERS_1[j], InstructionSet.ROW_1[j])
    {
      assert j == 0 || j == 1 || j == 2 || j == 3 || j == 4 || j == 5 || j == 6 || j == 7;
    }
  }

  lemma Row1HighAgrees()
    ensures forall j :: 8 <= j < 16 ==> Agrees(InstructionSet.RowStart(1) + j, HANDLERS_1[j], InstructionSet.ROW_1[j])
  {
    forall j | 8 <= j < 16
      ensures Agrees(InstructionSet.RowStart(1) + j, HANDLERS_1[j], InstructionSet.ROW_1[j])
    {
      assert j == 8 || j == 9 || j == 10 || j == 11 || j == 12 || j == 13 || j == 14 || j == 15;
    }
  }

  lemma Row2LowAgrees()
    ensures forall j :: 0 <= j < 8 ==> Agrees(InstructionSet.RowStart(2) + j, HANDLERS_2[j], InstructionSet.ROW_2[j])
  {
    forall j | 0 <= j < 8
      ensures Agrees(InstructionSet.RowStart(2) + j, HANDLERS_2[j], InstructionSet.ROW_2[j])
    {
      assert j == 0 || j == 1 || j == 2 || j == 3 || j == 4 || j == 5 || j == 6 || j == 7;
    }
  }

  lemma Row2HighAgrees()
    ensures forall j :: 8 <= j < 16 ==> Agrees(InstructionSet.RowStart(2) + j, HANDLERS_2[j], InstructionSet.ROW_2[j])
  {
    forall j | 8 <= j < 16
      ensures Agrees(InstructionSet.RowStart(2) + j, HANDLERS_2[j], InstructionSet.ROW_2[j])
    {
      assert j == 8 || j == 9 || j == 10 || j == 11 || j == 12 || j == 13 || j == 14 || j == 15;
    }
  }

  lemma Row3LowAgrees()
    ensures forall j :: 0 <= j < 8 ==> Agrees(InstructionSet.RowStart(3) + j, HANDLERS_3[j], InstructionSet.ROW_3[j])
  {
    forall j | 0 <= j < 8
      ensures Agrees(InstructionSet.RowStart(3) + j, HANDLERS_3[j], InstructionSet.ROW_3[j])
    {
      assert j == 0 || j == 1 || j == 2 || j == 3 || j == 4 || j == 5 || j == 6 || j == 7;
    }
  }

  lemma Row3HighAgrees()
    ensures forall j :: 8 <= j < 16 ==> Agrees(InstructionSet.RowStart(3) + j, HANDLERS_3[j], InstructionSet.ROW_3[j])
  {
    forall j | 8 <= j < 16
      ensures Agrees(InstructionSet.RowStart(3) + j, HANDLERS_3[j], InstructionSet.ROW_3[j])
    {
      assert j == 8 || j == 9 || j == 10 || j == 11 || j == 12 || j == 13 || j == 14 || j == 15;
    }
  }

  lemma Row4LowAgrees()
    ensures forall j :: 0 <= j < 8 ==> Agrees(InstructionSet.RowStart(4) + j, HANDLERS_4[j], InstructionSet.ROW_4[j])
  {
    forall j | 0 <= j < 8
      ensures Agrees(InstructionSet.RowStart(4) + j, HANDLERS_4[j], InstructionSet.ROW_4[j])
    {
      assert j == 0 || j == 1 || j == 2 || j == 3 || j == 4 || j == 5 || j == 6 || j == 7;
    }
  }

  lemma Row4HighAgrees()
    ensures forall j :: 8 <= j < 16 ==> Agrees(InstructionSet.RowStart(4) + j, HANDLERS_4[j], InstructionSet.ROW_4[j])
  {
    forall j | 8 <= j < 16
      ensures Agrees(InstructionSet.RowStart(4) + j, HANDLERS_4[j], InstructionSet.ROW_4[j])
    {
      assert j == 8 || j == 9 || j == 10 || j == 11 || j == 12 || j == 13 || j == 14 || j == 15;
    }
  }

  lemma Row5LowAgrees()
    ensures forall j :: 0 <= j < 8 ==> Agrees(InstructionSet.RowStart(5) + j, HANDLERS_5[j], InstructionSet.ROW_5[j])
  {
    forall j | 0 <= j < 8
      ensures Agrees(InstructionSet.RowStart(5) + j, HANDLERS_5[j], InstructionSet.ROW_5[j])
    {
      assert j == 0 || j == 1 || j == 2 || j == 3 || j == 4 || j == 5 || j == 6 || j == 7;
    }
  }

  lemma Row5HighAgrees()
    ensures forall j :: 8 <= j < 16 ==> Agrees(InstructionSet.RowStart(5) + j, HANDLERS_5[j], InstructionSet.ROW_5[j])
  {
    forall j | 8 <= j < 16
      ensures Agrees(InstructionSet.RowStart(5) + j, HANDLERS_5[j], InstructionSet.ROW_5[j])
    {
      assert j == 8 || j == 9 || j == 10 || j == 11 || j == 12 || j == 13 || j == 14 || j == 15;
    }
  }

  lemma Row6LowAgrees()
    ensures forall j :: 0 <= j < 8 ==> Agrees(InstructionSet.RowStart(6) + j, HANDLERS_6[j], InstructionSet.ROW_6[j])
  {
    forall j | 0 <= j < 8
      ensures Agrees(InstructionSet.RowStart(6) + j, HANDLERS_6[j], InstructionSet.ROW_6[j])
    {
      assert j == 0 || j == 1 || j == 2 || j == 3 || j == 4 || j == 5 || j == 6 || j == 7;
    }
  }

  lemma Row6HighAgrees()
    ensures forall j :: 8 <= j < 16 ==> Agrees(InstructionSet.RowStart(6) + j, HANDLERS_6[j], InstructionSet.ROW_6[j])
  {
    forall j | 8 <= j < 16
      ensures Agrees(InstructionSet.RowStart(6) + j, HANDLERS_6[j], InstructionSet.ROW_6[j])
    {
      assert j == 8 || j == 9 || j == 10 || j == 11 || j == 12 || j == 13 || j == 14 || j == 15;
    }
  }

  lemma Row7LowAgrees()
    ensures forall j :: 0 <= j < 8 ==> Agrees(InstructionSet.RowStart(7) + j, HANDLERS_7[j], InstructionSet.ROW_7[j])
  {
    forall j | 0 <= j < 8
      ensures Agrees(InstructionSet.RowStart(7) + j, HANDLERS_7[j], InstructionSet.ROW_7[j])
    {
      assert j == 0 || j == 1 || j == 2 || j == 3 || j == 4 || j == 5 || j == 6 || j == 7;
    }
  }

  lemma Row7HighAgrees()
    ensures forall j :: 8 <= j < 16 ==> Agrees(InstructionSet.RowStart(7) + j, HANDLERS_7[j], InstructionSet.ROW_7[j])
  {
    forall j | 8 <= j < 16
      ensures Agrees(InstructionSet.RowStart(7) + j, HANDLERS_7[j], InstructionSet.ROW_7[j])
    {
      assert j == 8 || j == 9 || j == 10 || j == 11 || j == 12 || j == 13 || j == 14 || j == 15;
    }
  }

  lemma Row8LowAgrees()
    ensures forall j :: 0 <= j < 8 ==> Agrees(InstructionSet.RowStart(8) + j, HANDLERS_8[j], InstructionSet.ROW_8[j])
  {
    forall j | 0 <= j < 8
      ensures Agrees(InstructionSet.RowStart(8) + j, HANDLERS_8[j], InstructionSet.ROW_8[j])
    {
      assert j == 0 || j == 1 || j == 2 || j == 3 || j == 4 || j == 5 || j == 6 || j == 7;
    }
  }

  lemma Row8HighAgrees()
    ensures forall j :: 8 <= j < 16 ==> Agrees(InstructionSet.RowStart(8) + j, HANDLERS_8[j], InstructionSet.ROW_8[j])
  {
    forall j | 8 <= j < 16
      ensures Agrees(InstructionSet.RowStart(8) + j, HANDLERS_8[j], InstructionSet.ROW_8[j])
    {
      assert j == 8 || j == 9 || j == 10 || j == 11 || j == 12 || j == 13 || j == 14 || j == 15;
    }
  }

  lemma Row9LowAgrees()
    ensures forall j :: 0 <= j < 8 ==> Agrees(InstructionSet.RowStart(9) + j, HANDLERS_9[j], InstructionSet.ROW_9[j])
  {
    forall j | 0 <= j < 8
      ensures Agrees(InstructionSet.RowStart(9) + j, HANDLERS_9[j], InstructionSet.ROW_9[j])
    {
      assert j == 0 || j == 1 || j == 2 || j == 3 || j == 4 || j == 5 || j == 6 || j == 7;
    }
  }

  lemma Row9HighAgrees()
    ensures forall j :: 8 <= j < 16 ==> Agrees(InstructionSet.RowStart(9) + j, HANDLERS_9[j], InstructionSet.ROW_9[j])
  {
    forall j | 8 <= j < 16
      ensures Agrees(InstructionSet.RowStart(9) + j, HANDLERS_9[j], InstructionSet.ROW_9[j])
    {
      assert j == 8 || j == 9 || j == 10 || j == 11 || j == 12 || j == 13 || j == 14 || j == 15;
    }
  }

  lemma RowALowAgrees()
    ensures forall j :: 0 <= j < 8 ==> Agrees(InstructionSet.RowStart(10) + j, HANDLERS_A[j], InstructionSet.ROW_A[j])
  {
    forall j | 0 <= j < 8
      ensures Agrees(InstructionSet.RowStart(10) + j, HANDLERS_A[j], InstructionSet.ROW_A[j])
    {
      assert j == 0 || j == 1 || j == 2 || j == 3 || j == 4 || j == 5 || j == 6 || j == 7;
    }
  }

  lemma RowAHighAgrees()
    ensures forall j :: 8 <= j < 16 ==> Agrees(InstructionSet.RowStart(10) + j, HANDLERS_A[j], InstructionSet.ROW_A[j])
  {
    forall j | 8 <= j < 16
      ensures Agrees(InstructionSet.RowStart(10) + j, HANDLERS_A[j], InstructionSet.ROW_A[j])
    {
      assert j == 8 || j == 9 || j == 10 || j == 11 || j == 12 || j == 13 || j == 14 || j == 15;
    }
  }

  lemma RowBLowAgrees()
    ensures forall j :: 0 <= j < 8 ==> Agrees(InstructionSet.RowStart(11) + j, HANDLERS_B[j], InstructionSet.ROW_B[j])
  {
    forall j | 0 <= j < 8
      ensures Agrees(InstructionSet.RowStart(11) + j, HANDLERS_B[j], InstructionSet.ROW_B[j])
    {
      assert j == 0 || j == 1 || j == 2 || j == 3 || j == 4 || j == 5 || j == 6 || j == 7;
    }
  }

  lemma RowBHighAgrees()
    ensures forall j :: 8 <= j < 16 ==> Agrees(InstructionSet.RowStart(11) + j, HANDLERS_B[j], InstructionSet.ROW_B[j])
  {
    forall j | 8 <= j < 16
      ensures Agrees(InstructionSet.RowStart(11) + j, HANDLERS_B[j], InstructionSet.ROW_B[j])
    {
      assert j == 8 || j == 9 || j == 10 || j == 11 || j == 12 || j == 13 || j == 14 || j == 15;
    }
  }

  lemma RowCLowAgrees()
    ensures forall j :: 0 <= j < 8 ==> Agrees(InstructionSet.RowStart(12) + j, HANDLERS_C[j], InstructionSet.ROW_C[j])
  {
    forall j | 0 <= j < 8
      ensures Agrees(InstructionSet.RowStart(12) + j, HANDLERS_C[j], InstructionSet.ROW_C[j])
    {
      assert j == 0 || j == 1 || j == 2 || j == 3 || j == 4 || j == 5 || j == 6 || j == 7;
    }
  }

  lemma RowCHighAgrees()
    ensures forall j :: 8 <= j < 16 ==> Agrees(InstructionSet.RowStart(12) + j, HANDLERS_C[j], InstructionSet.ROW_C[j])
  {
    forall j | 8 <= j < 16
      ensures Agrees(InstructionSet.RowStart(12) + j, HANDLERS_C[j], InstructionSet.ROW_C[j])
    {
      assert j == 8 || j == 9 || j == 10 || j == 11 || j == 12 || j == 13 || j == 14 || j == 15;
    }
  }

  lemma RowDLowAgrees()
    ensures forall j :: 0 <= j < 8 ==> Agrees(InstructionSet.RowStart(13) + j, HANDLERS_D[j], InstructionSet.ROW_D[j])
  {
    forall j | 0 <= j < 8
      ensures Agrees(InstructionSet.RowStart(13) + j, HANDLERS_D[j], InstructionSet.ROW_D[j])
    {
      assert j == 0 || j == 1 || j == 2 || j == 3 || j == 4 || j == 5 || j == 6 || j == 7;
    }
  }

  lemma RowDHighAgrees()
    ensures forall j :: 8 <= j < 16 ==> Agrees(InstructionSet.RowStart(13) + j, HANDLERS_D[j], InstructionSet.ROW_D[j])
  {
    forall j | 8 <= j < 16
      ensures Agrees(InstructionSet.RowStart(13) + j, HANDLERS_D[j], InstructionSet.ROW_D[j])
    {
      assert j == 8 || j == 9 || j == 10 || j == 11 || j == 12 || j == 13 || j == 14 || j == 15;
    }
  }

  lemma RowELowAgrees()
    ensures forall j :: 0 <= j < 8 ==> Agrees(InstructionSet.RowStart(14) + j, HANDLERS_E[j], InstructionSet.ROW_E[j])
  {
    forall j | 0 <= j < 8
      ensures Agrees(InstructionSet.RowStart(14) + j, HANDLERS_E[j], InstructionSet.ROW_E[j])
    {
      assert j == 0 || j == 1 || j == 2 || j == 3 || j == 4 || j == 5 || j == 6 || j == 7;
    }
  }

  lemma RowEHighAgrees()
    ensures forall j :: 8 <= j < 16 ==> Agrees(InstructionSet.RowStart(14) + j, HANDLERS_E[j], InstructionSet.ROW_E[j])
  {
    forall j | 8 <= j < 16
      ensures Agrees(InstructionSet.RowStart(14) + j, HANDLERS_E[j], InstructionSet.ROW_E[j])
    {
      assert j == 8 || j == 9 || j == 10 || j == 11 || j == 12 || j == 13 || j == 14 || j == 15;
    }
  }

  lemma RowFLowAgrees()
    ensures forall j :: 0 <= j < 8 ==> Agrees(InstructionSet.RowStart(15) + j, HANDLERS_F[j], InstructionSet.ROW_F[j])
  {
    forall j | 0 <= j < 8
      ensures Agrees(InstructionSet.RowStart(15) + j, HANDLERS_F[j], InstructionSet.ROW_F[j])
    {
      assert j == 0 || j == 1 || j == 2 || j == 3 || j == 4 || j == 5 || j == 6 || j == 7;
    }
  }

  lemma RowFHighAgrees()
    ensures forall j :: 8 <= j < 16 ==> Agrees(InstructionSet.RowStart(15) + j, HANDLERS_F[j], InstructionSet.ROW_F[j])
  {
    forall j | 8 <= j < 16
      ensures Agrees(InstructionSet.RowStart(15) + j, HANDLERS_F[j], InstructionSet.ROW_F[j])
    {
      assert j == 8 || j == 9 || j == 10 || j == 11 || j == 12 || j == 13 || j == 14 || j == 15;
    }
  }

  lemma AgreesInRow(k: int, j: int)
    requires 0 <= k < 16 && 0 <= j < 16
    ensures Agrees(InstructionSet.RowStart(k) + j, HandlerRow(k)[j], InstructionSet.Row(k)[j])
  {
    if k == 0 { if j < 8 { Row0LowAgrees(); } else { Row0HighAgrees(); } }
    else if k == 1 { if j < 8 { Row1LowAgrees(); } else { Row1HighAgrees(); } }
    else if k == 2 { if j < 8 { Row2LowAgrees(); } else { Row2HighAgrees(); } }
    else if k == 3 { if j < 8 { Row3LowAgrees(); } else { Row3HighAgrees(); } }
    else if k == 4 { if j < 8 { Row4LowAgrees(); } else { Row4HighAgrees(); } }
    else if k == 5 { if j < 8 { Row5LowAgrees(); } else { Row5HighAgrees(); } }
    else if k == 6 { if j < 8 { Row6LowAgrees(); } else { Row6HighAgrees(); } }
    else if k == 7 { if j < 8 { Row7LowAgrees(); } else { Row7HighAgrees(); } }
    else if k == 8 { if j < 8 { Row8LowAgrees(); } else { Row8HighAgrees(); } }
    else if k == 9 { if j < 8 { Row9LowAgrees(); } else { Row9HighAgrees(); } }
    else if k == 10 { if j < 8 { RowALowAgrees(); } else { RowAHighAgrees(); } }
    else if k == 11 { if j < 8 { RowBLowAgrees(); } else { RowBHighAgrees(); } }
    else if k == 12 { if j < 8 { RowCLowAgrees(); } else { RowCHighAgrees(); } }
    else if k == 13 { if j < 8 { RowDLowAgrees(); } else { RowDHighAgrees(); } }
    else if k == 14 { if j < 8 { RowELowAgrees(); } else { RowEHighAgrees(); } }
    else { if j < 8 { RowFLowAgrees(); } else { RowFHighAgrees(); } }
  }

  /**
   * Every table entry performs the instruction the reference table of
   * include/cpu/instruction_set.hpp names for its opcode, in the addressing
   * mode named there; the entries left at the default (and COP at 0x02) are
   * exactly those listed there as "---".
   */
  lemma HandlerAgreesWithMetadata(i: int)
    requires 0 <= i < 256
    ensures Agrees(i, HandlerAt(i), InstructionSet.OPCODES[i])
  {
    InstructionSet.EntryInRow(i);
    AgreesInRow(i / 16, i % 16);
  }

  /**
   * The opcodes that keep the default handler are those the reference table
   * lists as "---", except COP at 0x02.
   */
  lemma DefaultHandlerIffUnlisted(i: int)
    requires 0 <= i < 256
    ensures HandlerAt(i).Unimplemented? <==> InstructionSet.ListedUnimplemented(i) && i != 0x02
    ensures HandlerAt(i).Coprocessor? <==> i == 0x02
  {
    var h := HandlerAt(i);
    HandlerAgreesWithMetadata(i);
    InstructionSet.ImplementedAt(i);
    if !(h.Unimplemented? || h.Coprocessor?) {
      MnemonicNotDashed(h);
    }
  }

  /** An opcode the reference table lists as "---" runs the default handler or COP, and no other does. */
  lemma UnlistedRunsDefault(opcode: bv8)
    ensures !InstructionSet.IsImplemented(opcode) <==> GetHandler(opcode).Unimplemented? || GetHandler(opcode).Coprocessor?
  {
    GetHandlerAt(opcode);
    DefaultHandlerIffUnlisted(opcode as int);
  }

  /** No handler's mnemonic begins with '-'. */
  lemma MnemonicNotDashed(h: Handler)
    requires !(h.Unimplemented? || h.Coprocessor?)
    ensures |Mnemonic(h)| >= 3 && Mnemonic(h)[0] != '-'
  {
  }

  /** The conditional branches sit at opcodes xxy10000: xx picks the flag (N, V, C, Z) and y the value taken on. */
  lemma ConditionalBranchOpcodes(opcode: bv8)
    requires opcode as int % 32 == 0x10
    ensures GetHandler(opcode) == BranchIf(BranchFlag(opcode as int / 64), (opcode as int / 32) % 2 == 1)
  {
    ByteRange(opcode);
    GetHandlerAt(opcode);
    BranchAt(opcode as int);
  }

  lemma BranchAt(i: int)
    requires 0 <= i < 256 && i % 32 == 0x10
    ensures HandlerAt(i) == BranchIf(BranchFlag(i / 64), (i / 32) % 2 == 1)
  {
    assert i == 0x10 || i == 0x30 || i == 0x50 || i == 0x70 || i == 0x90 || i == 0xB0 || i == 0xD0 || i == 0xF0;
  }

  function BranchFlag(k: int): Flag
  {
    if k == 0 then FlagN else if k == 1 then FlagV else if k == 2 then FlagC else FlagZ
  }

  /** RMBn, SMBn, BBRn and BBSn sit at 0x07, 0x87, 0x0F and 0x8F plus 16 times the bit number. */
  lemma BitInstructionOpcodes(n: BitIndex)
    ensures HandlerAt(0x07 + 16 * n) == ResetMemoryBit(n)
    ensures HandlerAt(0x87 + 16 * n) == SetMemoryBit(n)
    ensures HandlerAt(0x0F + 16 * n) == BranchOnBit(n, false)
    ensures HandlerAt(0x8F + 16 * n) == BranchOnBit(n, true)
  {
    assert n == 0 || n == 1 || n == 2 || n == 3 || n == 4 || n == 5 || n == 6 || n == 7;
  }

  // ---------------------------------------------------------------
  // Operand addresses and instruction lengths
  // ---------------------------------------------------------------

  /** The number of operand bytes an addressing mode reads after the opcode. */
  function OperandLength(mode: Mode): nat
  {
    match mode
    case ModeAbsolute => 2
    case ModeAbsoluteX(_) => 2
    case ModeAbsoluteY(_) => 2
    case ModeIndirect => 2
    case _ => 1
  }

  /**
   * The effective address an addressing mode computes, for an instruction
   * whose operand bytes start at `pc`: a reference definition over the
   * address arithmetic of module Addressing.
   */
  function EffectiveAddress(memory: Mem, mode: Mode, pc: Word, x: bv8, y: bv8): (address: Word)
    requires memory.Valid()
    reads memory, memory.Data
    ensures mode.ModeImmediate? ==> address == pc
    ensures mode.ModeZeroPage? || mode.ModeZeroPageX? || mode.ModeZeroPageY? ==> address <= ZERO_PAGE_END
  {
    match mode
    case ModeImmediate => pc
    case ModeZeroPage => memory.Read(pc) as int
    case ModeZeroPageX => Addressing.ZeroPageIndexed(memory.Read(pc), x)
    case ModeZeroPageY => Addressing.ZeroPageIndexed(memory.Read(pc), y)
    case ModeAbsolute => Addressing.OperandWord(memory, pc)
    case ModeAbsoluteX(_) => Addressing.Indexed(Addressing.OperandWord(memory, pc), x)
    case ModeAbsoluteY(_) => Addressing.Indexed(Addressing.OperandWord(memory, pc), y)
    case ModeIndirectX =>
      Addressing.ZeroPagePointer(memory, ToByte(Addressing.ZeroPageIndexed(memory.Read(pc), x)))
    case ModeIndirectY(_) => Addressing.Indexed(Addressing.ZeroPagePointer(memory, memory.Read(pc)), y)
    case ModeIndirectZeroPage => Addressing.ZeroPagePointer(memory, memory.Read(pc))
    case ModeIndirect => Addressing.IndirectTarget(memory, Addressing.OperandWord(memory, pc))
  }

  /** The operand bytes that follow the opcode of a handler's instruction. */
  function OperandBytes(h: Handler): nat
  {
    match h
    case WithOperand(_, mode) => OperandLength(mode)
    case ShiftMemory(_, mode) => OperandLength(mode)
    case JumpToSubroutine => 2
    case JumpAbsoluteX => 2
    case BranchIf(_, _) => 1
    case BranchAlways => 1
    case BranchOnBit(_, _) => 2
    case ResetMemoryBit(_) => 1
    case SetMemoryBit(_) => 1
    case _ => 0
  }

  /** The handler leaves PC just past its operand bytes: it neither jumps, branches, returns nor stops. */
  predicate FallsThrough(h: Handler)
  {
    match h
    case WithOperand(op, _) => op != JMP
    case Implied(op) => !(op == BRK || op == RTI || op == RTS)
    case JumpToSubroutine => false
    case JumpAbsoluteX => false
    case BranchIf(_, _) => false
    case BranchAlways => false
    case BranchOnBit(_, _) => false
    case _ => true
  }

  /** The byte length the reference table's mode name implies: one opcode byte and its operand bytes. */
  function ModeLength(modeName: string): nat
  {
    if modeName == "Implied" || modeName == "Accumulator" then 1
    else if modeName == "Absolute" || modeName == "Absolute,X" || modeName == "Absolute,Y"
         || modeName == "(Indirect)" then 3
    else 2
  }

  /**
   * Every implemented instruction, except the three-byte BBRn/BBSn whose
   * mode the reference table calls "Relative", reads as many operand bytes
   * as its reference-table mode implies.
   */
  lemma LengthAgreesWithMetadata(i: int)
    requires 0 <= i < 256 && !HandlerAt(i).Unimplemented? && !HandlerAt(i).BranchOnBit?
    ensures 1 + OperandBytes(HandlerAt(i)) == ModeLength(InstructionSet.OPCODES[i].addressingMode)
  {
    HandlerAgreesWithMetadata(i);
    ModeLengthOfHandler(HandlerAt(i));
  }

  /** The length a handler's own mode name implies is one plus its operand bytes. */
  lemma ModeLengthOfHandler(h: Handler)
    requires !h.Unimplemented? && !h.BranchOnBit?
    ensures ModeLength(ModeOf(h)) == 1 + OperandBytes(h)
  {
    if h.WithOperand? || h.ShiftMemory? {
      match h.mode
      case ModeImmediate =>
      case ModeZeroPage =>
      case ModeZeroPageX =>
      case ModeZeroPageY =>
      case ModeAbsolute =>
      case ModeAbsoluteX(_) =>
      case ModeAbsoluteY(_) =>
      case ModeIndirectX =>
      case ModeIndirectY(_) =>
      case ModeIndirectZeroPage =>
      case ModeIndirect =>
    }
  }

  // ---------------------------------------------------------------
  // Running a handler
  // ---------------------------------------------------------------

  /** Computes the operand address as the handler's addressing-mode call does, moving PC past the operand. */
  method Resolve(cpu: CPU, cycles: U32, memory: Mem, mode: Mode) returns (address: Word, remaining: U32)
    requires memory.Valid()
    modifies cpu`PC
    ensures address == EffectiveAddress(memory, mode, old(cpu.PC), cpu.X, cpu.Y)
    ensures cpu.PC == (old(cpu.PC) + OperandLength(mode)) % WORD_MOD
  {
    match mode
    case ModeImmediate => address, remaining := Addressing.Immediate(cpu, cycles, memory);
    case ModeZeroPage => address, remaining := Addressing.ZeroPage(cpu, cycles, memory);
    case ModeZeroPageX => address, remaining := Addressing.ZeroPageX(cpu, cycles, memory);
    case ModeZeroPageY => address, remaining := Addressing.ZeroPageY(cpu, cycles, memory);
    case ModeAbsolute => address, remaining := Addressing.Absolute(cpu, cycles, memory);
    case ModeAbsoluteX(penalty) => address, remaining := Addressing.AbsoluteX(cpu, cycles, memory, penalty);
    case ModeAbsoluteY(penalty) => address, remaining := Addressing.AbsoluteY(cpu, cycles, memory, penalty);
    case ModeIndirectX => address, remaining := Addressing.IndirectX(cpu, cycles, memory);
    case ModeIndirectY(penalty) => address, remaining := Addressing.IndirectY(cpu, cycles, memory, penalty);
    case ModeIndirectZeroPage => address, remaining := Addressing.IndirectZeroPage(cpu, cycles, memory);
    case ModeIndirect => address, remaining := Addressing.Indirect(cpu, cycles, memory);
  }

  /** The handlers that write the operand's memory cell. */
  predicate WritesMemory(op: Operation)
  {
    op == STA || op == STX || op == STY || op == STZ || op == INC || op == DEC || op == TSB || op == TRB
  }

  /** Calls the handler of `op` on an effective address. */
  method ApplyOperation(cpu: CPU, cycles: U32, memory: Mem, op: Operation, address: Word) returns (remaining: U32)
    requires memory.Valid()
    modifies cpu`A, cpu`X, cpu`Y, cpu`C, cpu`Z, cpu`V, cpu`N, cpu`PC, memory.Data
    ensures op == JMP ==> cpu.PC == address
    ensures op != JMP ==> cpu.PC == old(cpu.PC)
    ensures !WritesMemory(op) ==> memory.Data[..] == old(memory.Data[..])
  {
    match op
    case LDA => remaining := Instructions.LDA(cpu, cycles, memory, address);
    case LDX => remaining := Instructions.LDX(cpu, cycles, memory, address);
    case LDY => remaining := Instructions.LDY(cpu, cycles, memory, address);
    case STA => remaining := Instructions.STA(cpu, cycles, memory, address);
    case STX => remaining := Instructions.STX(cpu, cycles, memory, address);
    case STY => remaining := Instructions.STY(cpu, cycles, memory, address);
    case STZ => remaining := Instructions.STZ(cpu, cycles, memory, address);
    case AND => remaining := Instructions.AND(cpu, cycles, memory, address);
    case EOR => remaining := Instructions.EOR(cpu, cycles, memory, address);
    case ORA => remaining := Instructions.ORA(cpu, cycles, memory, address);
    case BIT => remaining := Instructions.BIT(cpu, cycles, memory, address);
    case ADC => remaining := Instructions.ADC(cpu, cycles, memory, address);
    case SBC => remaining := Instructions.SBC(cpu, cycles, memory, address);
    case CMP => remaining := Instructions.CMP(cpu, cycles, memory, address);
    case CPX => remaining := Instructions.CPX(cpu, cycles, memory, address);
    case CPY => remaining := Instructions.CPY(cpu, cycles, memory, address);
    case INC => remaining := Instructions.INC(cpu, cycles, memory, address);
    case DEC => remaining := Instructions.DEC(cpu, cycles, memory, address);
    case TSB => remaining := Instructions.TSB(cpu, cycles, memory, address);
    case TRB => remaining := Instructions.TRB(cpu, cycles, memory, address);
    case JMP => remaining := Instructions.JMP(cpu, cycles, memory, address);
  }

  /** Calls the shift handler of `shift` on A or on the cell at `address`. */
  method ApplyShift(cpu: CPU, cycles: U32, memory: Mem, shift: ShiftOperation, address: Word, accumulator: bool)
    returns (remaining: U32)
    requires memory.Valid()
    modifies cpu`A, cpu`C, cpu`Z, cpu`N, memory.Data
    ensures accumulator ==> memory.Data[..] == old(memory.Data[..])
  {
    match shift
    case ASL => remaining := Instructions.ASL(cpu, cycles, memory, address, accumulator);
    case LSR => remaining := Instructions.LSR(cpu, cycles, memory, address, accumulator);
    case ROL => remaining := Instructions.ROL(cpu, cycles, memory, address, accumulator);
    case ROR => remaining := Instructions.ROR(cpu, cycles, memory, address, accumulator);
  }

  /** Calls the handler of an instruction without operand address. */
  method ApplyImplied(cpu: CPU, cycles: U32, memory: Mem, op: ImpliedOperation) returns (remaining: U32)
    requires memory.Valid()
    modifies cpu`PC, cpu`SP, cpu`A, cpu`X, cpu`Y, cpu`C, cpu`Z, cpu`I, cpu`D, cpu`B, cpu`V, cpu`N, memory.Data
    ensures !(op == BRK || op == RTI || op == RTS) ==> cpu.PC == old(cpu.PC)
    ensures op == BRK ==> cpu.PC == (old(cpu.PC) + 2) % WORD_MOD && remaining == 0
  {
    match op
    case TAX => remaining := Instructions.TAX(cpu, cycles, memory);
    case TAY => remaining := Instructions.TAY(cpu, cycles, memory);
    case TXA => remaining := Instructions.TXA(cpu, cycles, memory);
    case TYA => remaining := Instructions.TYA(cpu, cycles, memory);
    case TSX => remaining := Instructions.TSX(cpu, cycles, memory);
    case TXS => remaining := Instructions.TXS(cpu, cycles, memory);
    case PHA => remaining := Instructions.PHA(cpu, cycles, memory);
    case PHP => remaining := Instructions.PHP(cpu, cycles, memory);
    case PLA => remaining := Instructions.PLA(cpu, cycles, memory);
    case PLP => remaining := Instructions.PLP(cpu, cycles, memory);
    case PHX => remaining := Instructions.PHX(cpu, cycles, memory);
    case PHY => remaining := Instructions.PHY(cpu, cycles, memory);
    case PLX => remaining := Instructions.PLX(cpu, cycles, memory);
    case PLY => remaining := Instructions.PLY(cpu, cycles, memory);
    case INX => remaining := Instructions.INX(cpu, cycles, memory);
    case INY => remaining := Instructions.INY(cpu, cycles, memory);
    case DEX => remaining := Instructions.DEX(cpu, cycles, memory);
    case DEY => remaining := Instructions.DEY(cpu, cycles, memory);
    case INC_A => remaining := Instructions.INC_A(cpu, cycles, memory);
    case DEC_A => remaining := Instructions.DEC_A(cpu, cycles, memory);
    case CLC => remaining := Instructions.CLC(cpu, cycles, memory);
    case CLD => remaining := Instructions.CLD(cpu, cycles, memory);
    case CLI => remaining := Instructions.CLI(cpu, cycles, memory);
    case CLV => remaining := Instructions.CLV(cpu, cycles, memory);
    case SEC => remaining := Instructions.SEC(cpu, cycles, memory);
    case SED => remaining := Instructions.SED(cpu, cycles, memory);
    case SEI => remaining := Instructions.SEI(cpu, cycles, memory);
    case BRK => remaining := Instructions.BRK(cpu, cycles, memory);
    case RTI => remaining := Instructions.RTI(cpu, cycles, memory);
    case RTS => remaining := Instructions.RTS(cpu, cycles, memory);
    case NOP => remaining := Instructions.NOP(cpu, cycles, memory);
    case WAI => remaining := Instructions.WAI(cpu, cycles, memory);
    case STP => remaining := Instructions.STP(cpu, cycles, memory);
  }

  /** The value of the flag a conditional branch tests. */
  function FlagValue(cpu: CPU, flag: Flag): bool
    reads cpu`N, cpu`V, cpu`C, cpu`Z
  {
    match flag
    case FlagN => cpu.N
    case FlagV => cpu.V
    case FlagC => cpu.C
    case FlagZ => cpu.Z
  }

  /**
   * Performs one table entry with PC just past the opcode. An instruction
   * that falls through leaves PC just past its operand bytes; the default
   * handler and COP spend one cycle and change nothing else.
   */
  method Run(cpu: CPU, cycles: U32, memory: Mem, h: Handler) returns (remaining: U32)
    requires memory.Valid()
    modifies cpu`PC, cpu`SP, cpu`A, cpu`X, cpu`Y, cpu`C, cpu`Z, cpu`I, cpu`D, cpu`B, cpu`V, cpu`N, memory.Data
    ensures FallsThrough(h) ==> cpu.PC == (old(cpu.PC) + OperandBytes(h)) % WORD_MOD
    ensures h.Unimplemented? || h.Coprocessor? ==>
              && remaining == Spend(cycles, 1)
              && unchanged(cpu)
              && memory.Data[..] == old(memory.Data[..])
    ensures h.WithOperand? && h.op == JMP ==>
              cpu.PC == old(EffectiveAddress(memory, h.mode, cpu.PC, cpu.X, cpu.Y))
    ensures h.JumpAbsoluteX? ==>
              cpu.PC == old(EffectiveAddress(memory, ModeAbsoluteX(false), cpu.PC, cpu.X, cpu.Y))
    ensures h.JumpToSubroutine? ==> cpu.PC == old(Addressing.OperandWord(memory, cpu.PC))
  {
    match h
    case Unimplemented =>
      remaining := Spend(cycles, 1);
    case Coprocessor =>
      remaining := Spend(cycles, 1);
    case WithOperand(op, mode) =>
      var address, c := Resolve(cpu, cycles, memory, mode);
      remaining := ApplyOperation(cpu, c, memory, op, address);
    case ShiftAccumulator(shift) =>
      remaining := ApplyShift(cpu, cycles, memory, shift, 0, true);
    case ShiftMemory(shift, mode) =>
      var address, c := Resolve(cpu, cycles, memory, mode);
      remaining := ApplyShift(cpu, c, memory, shift, address, false);
    case Implied(op) =>
      remaining := ApplyImplied(cpu, cycles, memory, op);
    case JumpToSubroutine =>
      var address, c := cpu.FetchWord(cycles, memory);
      cpu.PC := address;
      remaining := Spend(c, 1);
    case JumpAbsoluteX =>
      var address, c := Addressing.AbsoluteX(cpu, cycles, memory, false);
      cpu.PC := address;
      remaining := Spend(c, 3);
    case BranchIf(flag, whenSet) =>
      remaining := Instructions.Branch(cpu, cycles, memory, FlagValue(cpu, flag) == whenSet);
    case BranchAlways =>
      remaining := Instructions.Branch(cpu, cycles, memory, true);
    case ResetMemoryBit(n) =>
      var zp, c := cpu.FetchByte(cycles, memory);
      remaining := Instructions.RMB(cpu, c, memory, zp, n);
    case SetMemoryBit(n) =>
      var zp, c := cpu.FetchByte(cycles, memory);
      remaining := Instructions.SMB(cpu, c, memory, zp, n);
    case BranchOnBit(n, branchOnSet) =>
      remaining := Instructions.BBR_BBS(cpu, cycles, memory, n, branchOnSet);
  }

  /** Moving PC past the opcode and then past `n` operand bytes, modulo 2^16, moves it `1 + n` bytes. */
  lemma WrapTwice(pc: Word, next: Word, last: Word, n: nat)
    requires next == (pc + 1) % WORD_MOD && last == (next + n) % WORD_MOD
    ensures last == (pc + 1 + n) % WORD_MOD
  {
  }

  /**
   * One iteration of the execution loop: fetch the opcode at PC (one
   * cycle), look its handler up and run it.
   */
  method Step(cpu: CPU, cycles: U32, memory: Mem) returns (opcode: bv8, handler: Handler, remaining: U32)
    requires memory.Valid()
    modifies cpu`PC, cpu`SP, cpu`A, cpu`X, cpu`Y, cpu`C, cpu`Z, cpu`I, cpu`D, cpu`B, cpu`V, cpu`N, memory.Data
    ensures opcode == old(memory.Data[cpu.PC]) && handler == GetHandler(opcode)
    ensures FallsThrough(handler) ==> cpu.PC == (old(cpu.PC) + 1 + OperandBytes(handler)) % WORD_MOD
    ensures handler.Unimplemented? || handler.Coprocessor? ==>
              && cpu.PC == (old(cpu.PC) + 1) % WORD_MOD
              && remaining == Spend(ConsumeCycles(cycles, 1), 1)
              && memory.Data[..] == old(memory.Data[..])
  {
    var c;
    opcode, c := cpu.FetchByte(cycles, memory);
    ghost var operandStart := cpu.PC;
    handler := GetHandler(opcode);
    remaining := Run(cpu, c, memory, handler);
    if FallsThrough(handler) {
      WrapTwice(old(cpu.PC), operandStart, cpu.PC, OperandBytes(handler));
    }
  }
}
