/*
 * The constant opcode reference table of include/cpu/instruction_set.hpp:
 * mnemonic, addressing-mode name, 65C02 base cycle count, description and
 * the 65C02-only flag of all 256 opcodes, with its three query helpers.
 *
 * The header lists the 256 entries row by row (0x00-0x0F, 0x10-0x1F, ...);
 * here each row is a constant and OPCODES[i] is entry i % 16 of row i / 16.
 * The facts the tests check over all 256 entries are proved row by row.
 */
module InstructionSet {

  datatype InstructionMetadata = Meta(
    opcode: int,
    mnemonic: string,
    addressingMode: string,
    cycles: int,
    description: string,
    is65c02Only: bool)

  const ROW_0: seq<InstructionMetadata> := [
    Meta(0x00, "BRK", "Implied", 7, "Break (software interrupt)", false),
    Meta(0x01, "ORA", "(Indirect,X)", 6, "Bitwise OR with accumulator", false),
    Meta(0x02, "---", "Implied", 2, "Unimplemented", false),
    Meta(0x03, "---", "Implied", 2, "Unimplemented", false),
    Meta(0x04, "TSB", "Zero Page", 5, "Test and Set Bits", true),
    Meta(0x05, "ORA", "Zero Page", 3, "Bitwise OR with accumulator", false),
    Meta(0x06, "ASL", "Zero Page", 5, "Arithmetic Shift Left", false),
    Meta(0x07, "RMB0", "Zero Page", 5, "Reset Memory Bit 0", true),
    Meta(0x08, "PHP", "Implied", 3, "Push Processor Status", false),
    Meta(0x09, "ORA", "Immediate", 2, "Bitwise OR with accumulator", false),
    Meta(0x0A, "ASL", "Accumulator", 2, "Arithmetic Shift Left", false),
    Meta(0x0B, "---", "Implied", 2, "Unimplemented", false),
    Meta(0x0C, "TSB", "Absolute", 6, "Test and Set Bits", true),
    Meta(0x0D, "ORA", "Absolute", 4, "Bitwise OR with accumulator", false),
    Meta(0x0E, "ASL", "Absolute", 6, "Arithmetic Shift Left", false),
    Meta(0x0F, "BBR0", "Relative", 5, "Branch on Bit Reset 0", true)
  ]

  const ROW_1: seq<InstructionMetadata> := [
    Meta(0x10, "BPL", "Relative", 2, "Branch if Plus", false),
    Meta(0x11, "ORA", "(Indirect),Y", 5, "Bitwise OR with accumulator", false),
    Meta(0x12, "ORA", "(Zero Page)", 5, "Bitwise OR with accumulator", true),
    Meta(0x13, "---", "Implied", 2, "Unimplemented", false),
    Meta(0x14, "TRB", "Zero Page", 5, "Test and Reset Bits", true),
    Meta(0x15, "ORA", "Zero Page,X", 4, "Bitwise OR with accumulator", false),
    Meta(0x16, "ASL", "Zero Page,X", 6, "Arithmetic Shift Left", false),
    Meta(0x17, "RMB1", "Zero Page", 5, "Reset Memory Bit 1", true),
    Meta(0x18, "CLC", "Implied", 2, "Clear Carry", false),
    Meta(0x19, "ORA", "Absolute,Y", 4, "Bitwise OR with accumulator", false),
    Meta(0x1A, "INC", "Accumulator", 2, "Increment Accumulator", true),
    Meta(0x1B, "---", "Implied", 2, "Unimplemented", false),
    Meta(0x1C, "TRB", "Absolute", 6, "Test and Reset Bits", true),
    Meta(0x1D, "ORA", "Absolute,X", 4, "Bitwise OR with accumulator", false),
    Meta(0x1E, "ASL", "Absolute,X", 7, "Arithmetic Shift Left", false),
    Meta(0x1F, "BBR1", "Relative", 5, "Branch on Bit Reset 1", true)
  ]

  const ROW_2: seq<InstructionMetadata> := [
    Meta(0x20, "JSR", "Absolute", 6, "Jump to Subroutine", false),
    Meta(0x21, "AND", "(Indirect,X)", 6, "Bitwise AND with accumulator", false),
    Meta(0x22, "---", "Implied", 2, "Unimplemented", false),
    Meta(0x23, "---", "Implied", 2, "Unimplemented", false),
    Meta(0x24, "BIT", "Zero Page", 3, "Bit Test", false),
    Meta(0x25, "AND", "Zero Page", 3, "Bitwise AND with accumulator", false),
    Meta(0x26, "ROL", "Zero Page", 5, "Rotate Left", false),
    Meta(0x27, "RMB2", "Zero Page", 5, "Reset Memory Bit 2", true),
    Meta(0x28, "PLP", "Implied", 4, "Pull Processor Status", false),
    Meta(0x29, "AND", "Immediate", 2, "Bitwise AND with accumulator", false),
    Meta(0x2A, "ROL", "Accumulator", 2, "Rotate Left", false),
    Meta(0x2B, "---", "Implied", 2, "Unimplemented", false),
    Meta(0x2C, "BIT", "Absolute", 4, "Bit Test", false),
    Meta(0x2D, "AND", "Absolute", 4, "Bitwise AND with accumulator", false),
    Meta(0x2E, "ROL", "Absolute", 6, "Rotate Left", false),
    Meta(0x2F, "BBR2", "Relative", 5, "Branch on Bit Reset 2", true)
  ]

  const ROW_3: seq<InstructionMetadata> := [
    Meta(0x30, "BMI", "Relative", 2, "Branch if Minus", false),
    Meta(0x31, "AND", "(Indirect),Y", 5, "Bitwise AND with accumulator", false),
    Meta(0x32, "AND", "(Zero Page)", 5, "Bitwise AND with accumulator", true),
    Meta(0x33, "---", "Implied", 2, "Unimplemented", false),
    Meta(0x34, "BIT", "Zero Page,X", 4, "Bit Test", true),
    Meta(0x35, "AND", "Zero Page,X", 4, "Bitwise AND with accumulator", false),
    Meta(0x36, "ROL", "Zero Page,X", 6, "Rotate Left", false),
    Meta(0x37, "RMB3", "Zero Page", 5, "Reset Memory Bit 3", true),
    Meta(0x38, "SEC", "Implied", 2, "Set Carry", false),
    Meta(0x39, "AND", "Absolute,Y", 4, "Bitwise AND with accumulator", false),
    Meta(0x3A, "DEC", "Accumulator", 2, "Decrement Accumulator", true),
    Meta(0x3B, "---", "Implied", 2, "Unimplemented", false),
    Meta(0x3C, "BIT", "Absolute,X", 4, "Bit Test", true),
    Meta(0x3D, "AND", "Absolute,X", 4, "Bitwise AND with accumulator", false),
    Meta(0x3E, "ROL", "Absolute,X", 7, "Rotate Left", false),
    Meta(0x3F, "BBR3", "Relative", 5, "Branch on Bit Reset 3", true)
  ]

  const ROW_4: seq<InstructionMetadata> := [
    Meta(0x40, "RTI", "Implied", 6, "Return from Interrupt", false),
    Meta(0x41, "EOR", "(Indirect,X)", 6, "Bitwise XOR with accumulator", false),
    Meta(0x42, "---", "Implied", 2, "Unimplemented", false),
    Meta(0x43, "---", "Implied", 2, "Unimplemented", false),
    Meta(0x44, "---", "Implied", 3, "Unimplemented", false),
    Meta(0x45, "EOR", "Zero Page", 3, "Bitwise XOR with accumulator", false),
    Meta(0x46, "LSR", "Zero Page", 5, "Logical Shift Right", false),
    Meta(0x47, "RMB4", "Zero Page", 5, "Reset Memory Bit 4", true),
    Meta(0x48, "PHA", "Implied", 3, "Push Accumulator", false),
    Meta(0x49, "EOR", "Immediate", 2, "Bitwise XOR with accumulator", false),
    Meta(0x4A, "LSR", "Accumulator", 2, "Logical Shift Right", false),
    Meta(0x4B, "---", "Implied", 2, "Unimplemented", false),
    Meta(0x4C, "JMP", "Absolute", 3, "Jump", false),
    Meta(0x4D, "EOR", "Absolute", 4, "Bitwise XOR with accumulator", false),
    Meta(0x4E, "LSR", "Absolute", 6, "Logical Shift Right", false),
    Meta(0x4F, "BBR4", "Relative", 5, "Branch on Bit Reset 4", true)
  ]

  const ROW_5: seq<InstructionMetadata> := [
    Meta(0x50, "BVC", "Relative", 2, "Branch if Overflow Clear", false),
    Meta(0x51, "EOR", "(Indirect),Y", 5, "Bitwise XOR with accumulator", false),
    Meta(0x52, "EOR", "(Zero Page)", 5, "Bitwise XOR with accumulator", true),
    Meta(0x53, "---", "Implied", 2, "Unimplemented", false),
    Meta(0x54, "---", "Implied", 3, "Unimplemented", false),
    Meta(0x55, "EOR", "Zero Page,X", 4, "Bitwise XOR with accumulator", false),
    Meta(0x56, "LSR", "Zero Page,X", 6, "Logical Shift Right", false),
    Meta(0x57, "RMB5", "Zero Page", 5, "Reset Memory Bit 5", true),
    Meta(0x58, "CLI", "Implied", 2, "Clear Interrupt Disable", false),
    Meta(0x59, "EOR", "Absolute,Y", 4, "Bitwise XOR with accumulator", false),
    Meta(0x5A, "PHY", "Implied", 3, "Push Y", true),
    Meta(0x5B, "---", "Implied", 2, "Unimplemented", false),
    Meta(0x5C, "---", "Implied", 3, "Unimplemented", false),
    Meta(0x5D, "EOR", "Absolute,X", 4, "Bitwise XOR with accumulator", false),
    Meta(0x5E, "LSR", "Absolute,X", 7, "Logical Shift Right", false),
    Meta(0x5F, "BBR5", "Relative", 5, "Branch on Bit Reset 5", true)
  ]

  const ROW_6: seq<InstructionMetadata> := [
    Meta(0x60, "RTS", "Implied", 6, "Return from Subroutine", false),
    Meta(0x61, "ADC", "(Indirect,X)", 6, "Add with Carry", false),
    Meta(0x62, "---", "Implied", 2, "Unimplemented", false),
    Meta(0x63, "---", "Implied", 2, "Unimplemented", false),
    Meta(0x64, "STZ", "Zero Page", 3, "Store Zero", true),
    Meta(0x65, "ADC", "Zero Page", 3, "Add with Carry", false),
    Meta(0x66, "ROR", "Zero Page", 5, "Rotate Right", false),
    Meta(0x67, "RMB6", "Zero Page", 5, "Reset Memory Bit 6", true),
    Meta(0x68, "PLA", "Implied", 4, "Pull Accumulator", false),
    Meta(0x69, "ADC", "Immediate", 2, "Add with Carry", false),
    Meta(0x6A, "ROR", "Accumulator", 2, "Rotate Right", false),
    Meta(0x6B, "---", "Implied", 2, "Unimplemented", false),
    Meta(0x6C, "JMP", "(Indirect)", 5, "Jump Indirect", false),
    Meta(0x6D, "ADC", "Absolute", 4, "Add with Carry", false),
    Meta(0x6E, "ROR", "Absolute", 6, "Rotate Right", false),
    Meta(0x6F, "BBR6", "Relative", 5, "Branch on Bit Reset 6", true)
  ]

  const ROW_7: seq<InstructionMetadata> := [
    Meta(0x70, "BVS", "Relative", 2, "Branch if Overflow Set", false),
    Meta(0x71, "ADC", "(Indirect),Y", 5, "Add with Carry", false),
    Meta(0x72, "ADC", "(Zero Page)", 5, "Add with Carry", true),
    Meta(0x73, "---", "Implied", 2, "Unimplemented", false),
    Meta(0x74, "STZ", "Zero Page,X", 4, "Store Zero", true),
    Meta(0x75, "ADC", "Zero Page,X", 4, "Add with Carry", false),
    Meta(0x76, "ROR", "Zero Page,X", 6, "Rotate Right", false),
    Meta(0x77, "RMB7", "Zero Page", 5, "Reset Memory Bit 7", true),
    Meta(0x78, "SEI", "Implied", 2, "Set Interrupt Disable", false),
    Meta(0x79, "ADC", "Absolute,Y", 4, "Add with Carry", false),
    Meta(0x7A, "PLY", "Implied", 4, "Pull Y", true),
    Meta(0x7B, "---", "Implied", 2, "Unimplemented", false),
    Meta(0x7C, "JMP", "Absolute,X", 6, "Jump Indirect X", true),
    Meta(0x7D, "ADC", "Absolute,X", 4, "Add with Carry", false),
    Meta(0x7E, "ROR", "Absolute,X", 7, "Rotate Right", false),
    Meta(0x7F, "BBR7", "Relative", 5, "Branch on Bit Reset 7", true)
  ]

  const ROW_8: seq<InstructionMetadata> := [
    Meta(0x80, "BRA", "Relative", 3, "Branch Always", true),
    Meta(0x81, "STA", "(Indirect,X)", 6, "Store Accumulator", false),
    Meta(0x82, "---", "Implied", 2, "Unimplemented", false),
    Meta(0x83, "---", "Implied", 2, "Unimplemented", false),
    Meta(0x84, "STY", "Zero Page", 3, "Store Y Register", false),
    Meta(0x85, "STA", "Zero Page", 3, "Store Accumulator", false),
    Meta(0x86, "STX", "Zero Page", 3, "Store X Register", false),
    Meta(0x87, "SMB0", "Zero Page", 5, "Set Memory Bit 0", true),
    Meta(0x88, "DEY", "Implied", 2, "Decrement Y", false),
    Meta(0x89, "BIT", "Immediate", 2, "Bit Test", true),
    Meta(0x8A, "TXA", "Implied", 2, "Transfer X to Accumulator", false),
    Meta(0x8B, "---", "Implied", 2, "Unimplemented", false),
    Meta(0x8C, "STY", "Absolute", 4, "Store Y Register", false),
    Meta(0x8D, "STA", "Absolute", 4, "Store Accumulator", false),
    Meta(0x8E, "STX", "Absolute", 4, "Store X Register", false),
    Meta(0x8F, "BBS0", "Relative", 5, "Branch on Bit Set 0", true)
  ]

  const ROW_9: seq<InstructionMetadata> := [
    Meta(0x90, "BCC", "Relative", 2, "Branch if Carry Clear", false),
    Meta(0x91, "STA", "(Indirect),Y", 6, "Store Accumulator", false),
    Meta(0x92, "STA", "(Zero Page)", 5, "Store Accumulator", true),
    Meta(0x93, "---", "Implied", 2, "Unimplemented", false),
    Meta(0x94, "STY", "Zero Page,X", 4, "Store Y Register", false),
    Meta(0x95, "STA", "Zero Page,X", 4, "Store Accumulator", false),
    Meta(0x96, "STX", "Zero Page,Y", 4, "Store X Register", false),
    Meta(0x97, "SMB1", "Zero Page", 5, "Set Memory Bit 1", true),
    Meta(0x98, "TYA", "Implied", 2, "Transfer Y to Accumulator", false),
    Meta(0x99, "STA", "Absolute,Y", 5, "Store Accumulator", false),
    Meta(0x9A, "TXS", "Implied", 2, "Transfer X to Stack Pointer", false),
    Meta(0x9B, "---", "Implied", 2, "Unimplemented", false),
    Meta(0x9C, "STZ", "Absolute", 4, "Store Zero", true),
    Meta(0x9D, "STA", "Absolute,X", 5, "Store Accumulator", false),
    Meta(0x9E, "STZ", "Absolute,X", 5, "Store Zero", true),
    Meta(0x9F, "BBS1", "Relative", 5, "Branch on Bit Set 1", true)
  ]

  const ROW_A: seq<InstructionMetadata> := [
    Meta(0xA0, "LDY", "Immediate", 2, "Load Y Register", false),
    Meta(0xA1, "LDA", "(Indirect,X)", 6, "Load Accumulator", false),
    Meta(0xA2, "LDX", "Immediate", 2, "Load X Register", false),
    Meta(0xA3, "---", "Implied", 2, "Unimplemented", false),
    Meta(0xA4, "LDY", "Zero Page", 3, "Load Y Register", false),
    Meta(0xA5, "LDA", "Zero Page", 3, "Load Accumulator", false),
    Meta(0xA6, "LDX", "Zero Page", 3, "Load X Register", false),
    Meta(0xA7, "SMB2", "Zero Page", 5, "Set Memory Bit 2", true),
    Meta(0xA8, "TAY", "Implied", 2, "Transfer Accumulator to Y", false),
    Meta(0xA9, "LDA", "Immediate", 2, "Load Accumulator", false),
    Meta(0xAA, "TAX", "Implied", 2, "Transfer Accumulator to X", false),
    Meta(0xAB, "---", "Implied", 2, "Unimplemented", false),
    Meta(0xAC, "LDY", "Absolute", 4, "Load Y Register", false),
    Meta(0xAD, "LDA", "Absolute", 4, "Load Accumulator", false),
    Meta(0xAE, "LDX", "Absolute", 4, "Load X Register", false),
    Meta(0xAF, "BBS2", "Relative", 5, "Branch on Bit Set 2", true)
  ]

  const ROW_B: seq<InstructionMetadata> := [
    Meta(0xB0, "BCS", "Relative", 2, "Branch if Carry Set", false),
    Meta(0xB1, "LDA", "(Indirect),Y", 5, "Load Accumulator", false),
    Meta(0xB2, "LDA", "(Zero Page)", 5, "Load Accumulator", true),
    Meta(0xB3, "---", "Implied", 2, "Unimplemented", false),
    Meta(0xB4, "LDY", "Zero Page,X", 4, "Load Y Register", false),
    Meta(0xB5, "LDA", "Zero Page,X", 4, "Load Accumulator", false),
    Meta(0xB6, "LDX", "Zero Page,Y", 4, "Load X Register", false),
    Meta(0xB7, "SMB3", "Zero Page", 5, "Set Memory Bit 3", true),
    Meta(0xB8, "CLV", "Implied", 2, "Clear Overflow", false),
    Meta(0xB9, "LDA", "Absolute,Y", 4, "Load Accumulator", false),
    Meta(0xBA, "TSX", "Implied", 2, "Transfer Stack Pointer to X", false),
    Meta(0xBB, "---", "Implied", 2, "Unimplemented", false),
    Meta(0xBC, "LDY", "Absolute,X", 4, "Load Y Register", false),
    Meta(0xBD, "LDA", "Absolute,X", 4, "Load Accumulator", false),
    Meta(0xBE, "LDX", "Absolute,Y", 4, "Load X Register", false),
    Meta(0xBF, "BBS3", "Relative", 5, "Branch on Bit Set 3", true)
  ]

  const ROW_C: seq<InstructionMetadata> := [
    Meta(0xC0, "CPY", "Immediate", 2, "Compare Y Register", false),
    Meta(0xC1, "CMP", "(Indirect,X)", 6, "Compare Accumulator", false),
    Meta(0xC2, "---", "Implied", 2, "Unimplemented", false),
    Meta(0xC3, "---", "Implied", 2, "Unimplemented", false),
    Meta(0xC4, "CPY", "Zero Page", 3, "Compare Y Register", false),
    Meta(0xC5, "CMP", "Zero Page", 3, "Compare Accumulator", false),
    Meta(0xC6, "DEC", "Zero Page", 5, "Decrement", false),
    Meta(0xC7, "SMB4", "Zero Page", 5, "Set Memory Bit 4", true),
    Meta(0xC8, "INY", "Implied", 2, "Increment Y", false),
    Meta(0xC9, "CMP", "Immediate", 2, "Compare Accumulator", false),
    Meta(0xCA, "DEX", "Implied", 2, "Decrement X", false),
    Meta(0xCB, "WAI", "Implied", 3, "Wait for Interrupt", true),
    Meta(0xCC, "CPY", "Absolute", 4, "Compare Y Register", false),
    Meta(0xCD, "CMP", "Absolute", 4, "Compare Accumulator", false),
    Meta(0xCE, "DEC", "Absolute", 6, "Decrement", false),
    Meta(0xCF, "BBS4", "Relative", 5, "Branch on Bit Set 4", true)
  ]

  const ROW_D: seq<InstructionMetadata> := [
    Meta(0xD0, "BNE", "Relative", 2, "Branch if Not Equal", false),
    Meta(0xD1, "CMP", "(Indirect),Y", 5, "Compare Accumulator", false),
    Meta(0xD2, "CMP", "(Zero Page)", 5, "Compare Accumulator", true),
    Meta(0xD3, "---", "Implied", 2, "Unimplemented", false),
    Meta(0xD4, "---", "Implied", 3, "Unimplemented", false),
    Meta(0xD5, "CMP", "Zero Page,X", 4, "Compare Accumulator", false),
    Meta(0xD6, "DEC", "Zero Page,X", 6, "Decrement", false),
    Meta(0xD7, "SMB5", "Zero Page", 5, "Set Memory Bit 5", true),
    Meta(0xD8, "CLD", "Implied", 2, "Clear Decimal", false),
    Meta(0xD9, "CMP", "Absolute,Y", 4, "Compare Accumulator", false),
    Meta(0xDA, "PHX", "Implied", 3, "Push X", true),
    Meta(0xDB, "STP", "Implied", 3, "Stop (Halt)", true),
    Meta(0xDC, "---", "Implied", 3, "Unimplemented", false),
    Meta(0xDD, "CMP", "Absolute,X", 4, "Compare Accumulator", false),
    Meta(0xDE, "DEC", "Absolute,X", 7, "Decrement", false),
    Meta(0xDF, "BBS5", "Relative", 5, "Branch on Bit Set 5", true)
  ]

  const ROW_E: seq<InstructionMetadata> := [
    Meta(0xE0, "CPX", "Immediate", 2, "Compare X Register", false),
    Meta(0xE1, "SBC", "(Indirect,X)", 6, "Subtract with Carry", false),
    Meta(0xE2, "---", "Implied", 2, "Unimplemented", false),
    Meta(0xE3, "---", "Implied", 2, "Unimplemented", false),
    Meta(0xE4, "CPX", "Zero Page", 3, "Compare X Register", false),
    Meta(0xE5, "SBC", "Zero Page", 3, "Subtract with Carry", false),
    Meta(0xE6, "INC", "Zero Page", 5, "Increment", false),
    Meta(0xE7, "SMB6", "Zero Page", 5, "Set Memory Bit 6", true),
    Meta(0xE8, "INX", "Implied", 2, "Increment X", false),
    Meta(0xE9, "SBC", "Immediate", 2, "Subtract with Carry", false),
    Meta(0xEA, "NOP", "Implied", 2, "No Operation", false),
    Meta(0xEB, "---", "Implied", 2, "Unimplemented", false),
    Meta(0xEC, "CPX", "Absolute", 4, "Compare X Register", false),
    Meta(0xED, "SBC", "Absolute", 4, "Subtract with Carry", false),
    Meta(0xEE, "INC", "Absolute", 6, "Increment", false),
    Meta(0xEF, "BBS6", "Relative", 5, "Branch on Bit Set 6", true)
  ]

  const ROW_F: seq<InstructionMetadata> := [
    Meta(0xF0, "BEQ", "Relative", 2, "Branch if Equal", false),
    Meta(0xF1, "SBC", "(Indirect),Y", 5, "Subtract with Carry", false),
    Meta(0xF2, "SBC", "(Zero Page)", 5, "Subtract with Carry", true),
    Meta(0xF3, "---", "Implied", 2, "Unimplemented", false),
    Meta(0xF4, "---", "Implied", 3, "Unimplemented", false),
    Meta(0xF5, "SBC", "Zero Page,X", 4, "Subtract with Carry", false),
    Meta(0xF6, "INC", "Zero Page,X", 6, "Increment", false),
    Meta(0xF7, "SMB7", "Zero Page", 5, "Set Memory Bit 7", true),
    Meta(0xF8, "SED", "Implied", 2, "Set Decimal", false),
    Meta(0xF9, "SBC", "Absolute,Y", 4, "Subtract with Carry", false),
    Meta(0xFA, "PLX", "Implied", 4, "Pull X", true),
    Meta(0xFB, "---", "Implied", 2, "Unimplemented", false),
    Meta(0xFC, "---", "Implied", 3, "Unimplemented", false),
    Meta(0xFD, "SBC", "Absolute,X", 4, "Subtract with Carry", false),
    Meta(0xFE, "INC", "Absolute,X", 7, "Increment", false),
    Meta(0xFF, "BBS7", "Relative", 5, "Branch on Bit Set 7", true)
  ]

  function Row(k: int): (r: seq<InstructionMetadata>)
    requires 0 <= k < 16
    ensures |r| == 16
  {
    match k
    case 0 => ROW_0
    case 1 => ROW_1
    case 2 => ROW_2
    case 3 => ROW_3
    case 4 => ROW_4
    case 5 => ROW_5
    case 6 => ROW_6
    case 7 => ROW_7
    case 8 => ROW_8
    case 9 => ROW_9
    case 10 => ROW_A
    case 11 => ROW_B
    case 12 => ROW_C
    case 13 => ROW_D
    case 14 => ROW_E
    case 15 => ROW_F
  }

  /** Entry `i` of the table: entry i % 16 of row i / 16. */
  function Entry(i: int): InstructionMetadata
    requires 0 <= i < 256
  {
    Row(i / 16)[i % 16]
  }

  function Table(): (t: seq<InstructionMetadata>)
    ensures |t| == 256
    ensures forall i :: 0 <= i < 256 ==> t[i] == Entry(i)
  {
    seq(256, i requires 0 <= i < 256 => Entry(i))
  }

  const OPCODES: seq<InstructionMetadata> := Table()

  /** Entry `i` of the table is entry i % 16 of row i / 16. */
  lemma EntryInRow(i: int)
    requires 0 <= i < 256
    ensures OPCODES[i] == Row(i / 16)[i % 16]
  {
  }

  /** The opcodes whose mnemonic is "---". */
  predicate ListedUnimplemented(i: int)
  {
       i == 0x02 || i == 0x03 || i == 0x0B || i == 0x13 || i == 0x1B || i == 0x22 || i == 0x23 || i == 0x2B
    || i == 0x33 || i == 0x3B || i == 0x42 || i == 0x43 || i == 0x44 || i == 0x4B || i == 0x53 || i == 0x54
    || i == 0x5B || i == 0x5C || i == 0x62 || i == 0x63 || i == 0x6B || i == 0x73 || i == 0x7B || i == 0x82
    || i == 0x83 || i == 0x8B || i == 0x93 || i == 0x9B || i == 0xA3 || i == 0xAB || i == 0xB3 || i == 0xBB
    || i == 0xC2 || i == 0xC3 || i == 0xD3 || i == 0xD4 || i == 0xDC || i == 0xE2 || i == 0xE3 || i == 0xEB
    || i == 0xF3 || i == 0xF4 || i == 0xFB || i == 0xFC
  }

  /** The opcodes flagged as new in the 65C02. */
  predicate Listed65C02(i: int)
  {
       i == 0x04 || i == 0x07 || i == 0x0C || i == 0x0F || i == 0x12 || i == 0x14 || i == 0x17 || i == 0x1A
    || i == 0x1C || i == 0x1F || i == 0x27 || i == 0x2F || i == 0x32 || i == 0x34 || i == 0x37 || i == 0x3A
    || i == 0x3C || i == 0x3F || i == 0x47 || i == 0x4F || i == 0x52 || i == 0x57 || i == 0x5A || i == 0x5F
    || i == 0x64 || i == 0x67 || i == 0x6F || i == 0x72 || i == 0x74 || i == 0x77 || i == 0x7A || i == 0x7C
    || i == 0x7F || i == 0x80 || i == 0x87 || i == 0x89 || i == 0x8F || i == 0x92 || i == 0x97 || i == 0x9C
    || i == 0x9E || i == 0x9F || i == 0xA7 || i == 0xAF || i == 0xB2 || i == 0xB7 || i == 0xBF || i == 0xC7
    || i == 0xCB || i == 0xCF || i == 0xD2 || i == 0xD7 || i == 0xDA || i == 0xDB || i == 0xDF || i == 0xE7
    || i == 0xEF || i == 0xF2 || i == 0xF7 || i == 0xFA || i == 0xFF
  }


  /** The mnemonic starts with the three letters `a`, `b`, `c`. */
  predicate HasPrefix(s: string, a: char, b: char, c: char)
  {
    |s| >= 3 && s[0] == a && s[1] == b && s[2] == c
  }

  /** RMBn, SMBn, BBRn and BBSn: the 65C02 single-bit instructions. */
  predicate IsBitInstruction(mnemonic: string)
  {
    HasPrefix(mnemonic, 'R', 'M', 'B') || HasPrefix(mnemonic, 'S', 'M', 'B')
      || HasPrefix(mnemonic, 'B', 'B', 'R') || HasPrefix(mnemonic, 'B', 'B', 'S')
  }

  /** BPL, BMI, BVC, BVS, BCC, BCS, BNE and BEQ. */
  predicate IsConditionalBranch(mnemonic: string)
  {
    && |mnemonic| == 3
    && (HasPrefix(mnemonic, 'B', 'P', 'L') || HasPrefix(mnemonic, 'B', 'M', 'I')
      || HasPrefix(mnemonic, 'B', 'V', 'C') || HasPrefix(mnemonic, 'B', 'V', 'S')
      || HasPrefix(mnemonic, 'B', 'C', 'C') || HasPrefix(mnemonic, 'B', 'C', 'S')
      || HasPrefix(mnemonic, 'B', 'N', 'E') || HasPrefix(mnemonic, 'B', 'E', 'Q'))
  }

  predicate IsBra(mnemonic: string)
  {
    |mnemonic| == 3 && HasPrefix(mnemonic, 'B', 'R', 'A')
  }

  /** Opcode, mnemonic length and cycle bounds of entry `i`. */
  predicate ShapeFact(i: int, m: InstructionMetadata)
  {
    && m.opcode == i
    && |m.mnemonic| >= 3
    && m.cycles > 0
    && (m.mnemonic[0] != '-' ==> 2 <= m.cycles <= 7)
  }

  /** The mnemonic of entry `i` starts with '-' exactly for the listed opcodes. */
  predicate ImplementedFact(i: int, m: InstructionMetadata)
  {
    |m.mnemonic| > 0 && (m.mnemonic[0] == '-' <==> ListedUnimplemented(i))
  }

  /** The 65C02-only flag of entry `i` is set exactly for the listed opcodes. */
  predicate OnlyFlagFact(i: int, m: InstructionMetadata)
  {
    m.is65c02Only <==> Listed65C02(i)
  }

  /** A single-bit instruction takes 5 cycles and is 65C02-only. */
  predicate BitInstructionFact(m: InstructionMetadata)
  {
    IsBitInstruction(m.mnemonic) ==> m.cycles == 5 && m.is65c02Only
  }

  /** Conditional branches take 2 base cycles, BRA 3. */
  predicate BranchFact(m: InstructionMetadata)
  {
    && (IsConditionalBranch(m.mnemonic) ==> m.cycles == 2)
    && (IsBra(m.mnemonic) ==> m.cycles == 3 && m.is65c02Only)
  }

  /** Everything the table promises about entry `i`. */
  predicate EntryFacts(i: int, m: InstructionMetadata)
  {
    ShapeFact(i, m) && ImplementedFact(i, m) && OnlyFlagFact(i, m) && BitInstructionFact(m) && BranchFact(m)
  }

  /** The first opcode of row `k`. */
  function RowStart(k: int): int
  {
    16 * k
  }

  lemma Row0Shape()
    ensures forall j :: 0 <= j < 16 ==> ShapeFact(RowStart(0) + j, ROW_0[j])
  {
    forall j | 0 <= j < 16
      ensures ShapeFact(RowStart(0) + j, ROW_0[j])
    {
      assert j == 0 || j == 1 || j == 2 || j == 3 || j == 4 || j == 5 || j == 6 || j == 7 || j == 8 || j == 9 || j == 10 || j == 11 || j == 12 || j == 13 || j == 14 || j == 15;
    }
  }

  lemma Row0Implemented()
    ensures forall j :: 0 <= j < 16 ==> ImplementedFact(RowStart(0) + j, ROW_0[j])
  {
    forall j | 0 <= j < 16
      ensures ImplementedFact(RowStart(0) + j, ROW_0[j])
    {
      assert j == 0 || j == 1 || j == 2 || j == 3 || j == 4 || j == 5 || j == 6 || j == 7 || j == 8 || j == 9 || j == 10 || j == 11 || j == 12 || j == 13 || j == 14 || j == 15;
    }
  }

  lemma Row0OnlyFlags()
    ensures forall j :: 0 <= j < 16 ==> OnlyFlagFact(RowStart(0) + j, ROW_0[j])
  {
    forall j | 0 <= j < 16
      ensures OnlyFlagFact(RowStart(0) + j, ROW_0[j])
    {
      assert j == 0 || j == 1 || j == 2 || j == 3 || j == 4 || j == 5 || j == 6 || j == 7 || j == 8 || j == 9 || j == 10 || j == 11 || j == 12 || j == 13 || j == 14 || j == 15;
    }
  }

  lemma Row0BitInstructions()
    ensures forall j :: 0 <= j < 16 ==> BitInstructionFact(ROW_0[j])
  {
    forall j | 0 <= j < 16
      ensures BitInstructionFact(ROW_0[j])
    {
      assert j == 0 || j == 1 || j == 2 || j == 3 || j == 4 || j == 5 || j == 6 || j == 7 || j == 8 || j == 9 || j == 10 || j == 11 || j == 12 || j == 13 || j == 14 || j == 15;
    }
  }

  lemma Row0Branches()
    ensures forall j :: 0 <= j < 16 ==> BranchFact(ROW_0[j])
  {
    forall j | 0 <= j < 16
      ensures BranchFact(ROW_0[j])
    {
      assert j == 0 || j == 1 || j == 2 || j == 3 || j == 4 || j == 5 || j == 6 || j == 7 || j == 8 || j == 9 || j == 10 || j == 11 || j == 12 || j == 13 || j == 14 || j == 15;
    }
  }

  lemma Row1Shape()
    ensures forall j :: 0 <= j < 16 ==> ShapeFact(RowStart(1) + j, ROW_1[j])
  {
    forall j | 0 <= j < 16
      ensures ShapeFact(RowStart(1) + j, ROW_1[j])
    {
      assert j == 0 || j == 1 || j == 2 || j == 3 || j == 4 || j == 5 || j == 6 || j == 7 || j == 8 || j == 9 || j == 10 || j == 11 || j == 12 || j == 13 || j == 14 || j == 15;
    }
  }

  lemma Row1Implemented()
    ensures forall j :: 0 <= j < 16 ==> ImplementedFact(RowStart(1) + j, ROW_1[j])
  {
    forall j | 0 <= j < 16
      ensures ImplementedFact(RowStart(1) + j, ROW_1[j])
    {
      assert j == 0 || j == 1 || j == 2 || j == 3 || j == 4 || j == 5 || j == 6 || j == 7 || j == 8 || j == 9 || j == 10 || j == 11 || j == 12 || j == 13 || j == 14 || j == 15;
    }
  }

  lemma Row1OnlyFlags()
    ensures forall j :: 0 <= j < 16 ==> OnlyFlagFact(RowStart(1) + j, ROW_1[j])
  {
    forall j | 0 <= j < 16
      ensures OnlyFlagFact(RowStart(1) + j, ROW_1[j])
    {
      assert j == 0 || j == 1 || j == 2 || j == 3 || j == 4 || j == 5 || j == 6 || j == 7 || j == 8 || j == 9 || j == 10 || j == 11 || j == 12 || j == 13 || j == 14 || j == 15;
    }
  }

  lemma Row1BitInstructions()
    ensures forall j :: 0 <= j < 16 ==> BitInstructionFact(ROW_1[j])
  {
    forall j | 0 <= j < 16
      ensures BitInstructionFact(ROW_1[j])
    {
      assert j == 0 || j == 1 || j == 2 || j == 3 || j == 4 || j == 5 || j == 6 || j == 7 || j == 8 || j == 9 || j == 10 || j == 11 || j == 12 || j == 13 || j == 14 || j == 15;
    }
  }

  lemma Row1Branches()
    ensures forall j :: 0 <= j < 16 ==> BranchFact(ROW_1[j])
  {
    forall j | 0 <= j < 16
      ensures BranchFact(ROW_1[j])
    {
      assert j == 0 || j == 1 || j == 2 || j == 3 || j == 4 || j == 5 || j == 6 || j == 7 || j == 8 || j == 9 || j == 10 || j == 11 || j == 12 || j == 13 || j == 14 || j == 15;
    }
  }

  lemma Row2Shape()
    ensures forall j :: 0 <= j < 16 ==> ShapeFact(RowStart(2) + j, ROW_2[j])
  {
    forall j | 0 <= j < 16
      ensures ShapeFact(RowStart(2) + j, ROW_2[j])
    {
      assert j == 0 || j == 1 || j == 2 || j == 3 || j == 4 || j == 5 || j == 6 || j == 7 || j == 8 || j == 9 || j == 10 || j == 11 || j == 12 || j == 13 || j == 14 || j == 15;
    }
  }

  lemma Row2Implemented()
    ensures forall j :: 0 <= j < 16 ==> ImplementedFact(RowStart(2) + j, ROW_2[j])
  {
    forall j | 0 <= j < 16
      ensures ImplementedFact(RowStart(2) + j, ROW_2[j])
    {
      assert j == 0 || j == 1 || j == 2 || j == 3 || j == 4 || j == 5 || j == 6 || j == 7 || j == 8 || j == 9 || j == 10 || j == 11 || j == 12 || j == 13 || j == 14 || j == 15;
    }
  }

  lemma Row2OnlyFlags()
    ensures forall j :: 0 <= j < 16 ==> OnlyFlagFact(RowStart(2) + j, ROW_2[j])
  {
    forall j | 0 <= j < 16
      ensures OnlyFlagFact(RowStart(2) + j, ROW_2[j])
    {
      assert j == 0 || j == 1 || j == 2 || j == 3 || j == 4 || j == 5 || j == 6 || j == 7 || j == 8 || j == 9 || j == 10 || j == 11 || j == 12 || j == 13 || j == 14 || j == 15;
    }
  }

  lemma Row2BitInstructions()
    ensures forall j :: 0 <= j < 16 ==> BitInstructionFact(ROW_2[j])
  {
    forall j | 0 <= j < 16
      ensures BitInstructionFact(ROW_2[j])
    {
      assert j == 0 || j == 1 || j == 2 || j == 3 || j == 4 || j == 5 || j == 6 || j == 7 || j == 8 || j == 9 || j == 10 || j == 11 || j == 12 || j == 13 || j == 14 || j == 15;
    }
  }

  lemma Row2Branches()
    ensures forall j :: 0 <= j < 16 ==> BranchFact(ROW_2[j])
  {
    forall j | 0 <= j < 16
      ensures BranchFact(ROW_2[j])
    {
      assert j == 0 || j == 1 || j == 2 || j == 3 || j == 4 || j == 5 || j == 6 || j == 7 || j == 8 || j == 9 || j == 10 || j == 11 || j == 12 || j == 13 || j == 14 || j == 15;
    }
  }

  lemma Row3Shape()
    ensures forall j :: 0 <= j < 16 ==> ShapeFact(RowStart(3) + j, ROW_3[j])
  {
    forall j | 0 <= j < 16
      ensures ShapeFact(RowStart(3) + j, ROW_3[j])
    {
      assert j == 0 || j == 1 || j == 2 || j == 3 || j == 4 || j == 5 || j == 6 || j == 7 || j == 8 || j == 9 || j == 10 || j == 11 || j == 12 || j == 13 || j == 14 || j == 15;
    }
  }

  lemma Row3Implemented()
    ensures forall j :: 0 <= j < 16 ==> ImplementedFact(RowStart(3) + j, ROW_3[j])
  {
    forall j | 0 <= j < 16
      ensures ImplementedFact(RowStart(3) + j, ROW_3[j])
    {
      assert j == 0 || j == 1 || j == 2 || j == 3 || j == 4 || j == 5 || j == 6 || j == 7 || j == 8 || j == 9 || j == 10 || j == 11 || j == 12 || j == 13 || j == 14 || j == 15;
    }
  }

  lemma Row3OnlyFlags()
    ensures forall j :: 0 <= j < 16 ==> OnlyFlagFact(RowStart(3) + j, ROW_3[j])
  {
    forall j | 0 <= j < 16
      ensures OnlyFlagFact(RowStart(3) + j, ROW_3[j])
    {
      assert j == 0 || j == 1 || j == 2 || j == 3 || j == 4 || j == 5 || j == 6 || j == 7 || j == 8 || j == 9 || j == 10 || j == 11 || j == 12 || j == 13 || j == 14 || j == 15;
    }
  }

  lemma Row3BitInstructions()
    ensures forall j :: 0 <= j < 16 ==> BitInstructionFact(ROW_3[j])
  {
    forall j | 0 <= j < 16
      ensures BitInstructionFact(ROW_3[j])
    {
      assert j == 0 || j == 1 || j == 2 || j == 3 || j == 4 || j == 5 || j == 6 || j == 7 || j == 8 || j == 9 || j == 10 || j == 11 || j == 12 || j == 13 || j == 14 || j == 15;
    }
  }

  lemma Row3Branches()
    ensures forall j :: 0 <= j < 16 ==> BranchFact(ROW_3[j])
  {
    forall j | 0 <= j < 16
      ensures BranchFact(ROW_3[j])
    {
      assert j == 0 || j == 1 || j == 2 || j == 3 || j == 4 || j == 5 || j == 6 || j == 7 || j == 8 || j == 9 || j == 10 || j == 11 || j == 12 || j == 13 || j == 14 || j == 15;
    }
  }

  lemma Row4Shape()
    ensures forall j :: 0 <= j < 16 ==> ShapeFact(RowStart(4) + j, ROW_4[j])
  {
    forall j | 0 <= j < 16
      ensures ShapeFact(RowStart(4) + j, ROW_4[j])
    {
      assert j == 0 || j == 1 || j == 2 || j == 3 || j == 4 || j == 5 || j == 6 || j == 7 || j == 8 || j == 9 || j == 10 || j == 11 || j == 12 || j == 13 || j == 14 || j == 15;
    }
  }

  lemma Row4Implemented()
    ensures forall j :: 0 <= j < 16 ==> ImplementedFact(RowStart(4) + j, ROW_4[j])
  {
    forall j | 0 <= j < 16
      ensures ImplementedFact(RowStart(4) + j, ROW_4[j])
    {
      assert j == 0 || j == 1 || j == 2 || j == 3 || j == 4 || j == 5 || j == 6 || j == 7 || j == 8 || j == 9 || j == 10 || j == 11 || j == 12 || j == 13 || j == 14 || j == 15;
    }
  }

  lemma Row4OnlyFlags()
    ensures forall j :: 0 <= j < 16 ==> OnlyFlagFact(RowStart(4) + j, ROW_4[j])
  {
    forall j | 0 <= j < 16
      ensures OnlyFlagFact(RowStart(4) + j, ROW_4[j])
    {
      assert j == 0 || j == 1 || j == 2 || j == 3 || j == 4 || j == 5 || j == 6 || j == 7 || j == 8 || j == 9 || j == 10 || j == 11 || j == 12 || j == 13 || j == 14 || j == 15;
    }
  }

  lemma Row4BitInstructions()
    ensures forall j :: 0 <= j < 16 ==> BitInstructionFact(ROW_4[j])
  {
    forall j | 0 <= j < 16
      ensures BitInstructionFact(ROW_4[j])
    {
      assert j == 0 || j == 1 || j == 2 || j == 3 || j == 4 || j == 5 || j == 6 || j == 7 || j == 8 || j == 9 || j == 10 || j == 11 || j == 12 || j == 13 || j == 14 || j == 15;
    }
  }

  lemma Row4Branches()
    ensures forall j :: 0 <= j < 16 ==> BranchFact(ROW_4[j])
  {
    forall j | 0 <= j < 16
      ensures BranchFact(ROW_4[j])
    {
      assert j == 0 || j == 1 || j == 2 || j == 3 || j == 4 || j == 5 || j == 6 || j == 7 || j == 8 || j == 9 || j == 10 || j == 11 || j == 12 || j == 13 || j == 14 || j == 15;
    }
  }

  lemma Row5Shape()
    ensures forall j :: 0 <= j < 16 ==> ShapeFact(RowStart(5) + j, ROW_5[j])
  {
    forall j | 0 <= j < 16
      ensures ShapeFact(RowStart(5) + j, ROW_5[j])
    {
      assert j == 0 || j == 1 || j == 2 || j == 3 || j == 4 || j == 5 || j == 6 || j == 7 || j == 8 || j == 9 || j == 10 || j == 11 || j == 12 || j == 13 || j == 14 || j == 15;
    }
  }

  lemma Row5Implemented()
    ensures forall j :: 0 <= j < 16 ==> ImplementedFact(RowStart(5) + j, ROW_5[j])
  {
    forall j | 0 <= j < 16
      ensures ImplementedFact(RowStart(5) + j, ROW_5[j])
    {
      assert j == 0 || j == 1 || j == 2 || j == 3 || j == 4 || j == 5 || j == 6 || j == 7 || j == 8 || j == 9 || j == 10 || j == 11 || j == 12 || j == 13 || j == 14 || j == 15;
    }
  }

  lemma Row5OnlyFlags()
    ensures forall j :: 0 <= j < 16 ==> OnlyFlagFact(RowStart(5) + j, ROW_5[j])
  {
    forall j | 0 <= j < 16
      ensures OnlyFlagFact(RowStart(5) + j, ROW_5[j])
    {
      assert j == 0 || j == 1 || j == 2 || j == 3 || j == 4 || j == 5 || j == 6 || j == 7 || j == 8 || j == 9 || j == 10 || j == 11 || j == 12 || j == 13 || j == 14 || j == 15;
    }
  }

  lemma Row5BitInstructions()
    ensures forall j :: 0 <= j < 16 ==> BitInstructionFact(ROW_5[j])
  {
    forall j | 0 <= j < 16
      ensures BitInstructionFact(ROW_5[j])
    {
      assert j == 0 || j == 1 || j == 2 || j == 3 || j == 4 || j == 5 || j == 6 || j == 7 || j == 8 || j == 9 || j == 10 || j == 11 || j == 12 || j == 13 || j == 14 || j == 15;
    }
  }

  lemma Row5Branches()
    ensures forall j :: 0 <= j < 16 ==> BranchFact(ROW_5[j])
  {
    forall j | 0 <= j < 16
      ensures BranchFact(ROW_5[j])
    {
      assert j == 0 || j == 1 || j == 2 || j == 3 || j == 4 || j == 5 || j == 6 || j == 7 || j == 8 || j == 9 || j == 10 || j == 11 || j == 12 || j == 13 || j == 14 || j == 15;
    }
  }

  lemma Row6Shape()
    ensures forall j :: 0 <= j < 16 ==> ShapeFact(RowStart(6) + j, ROW_6[j])
  {
    forall j | 0 <= j < 16
      ensures ShapeFact(RowStart(6) + j, ROW_6[j])
    {
      assert j == 0 || j == 1 || j == 2 || j == 3 || j == 4 || j == 5 || j == 6 || j == 7 || j == 8 || j == 9 || j == 10 || j == 11 || j == 12 || j == 13 || j == 14 || j == 15;
    }
  }

  lemma Row6Implemented()
    ensures forall j :: 0 <= j < 16 ==> ImplementedFact(RowStart(6) + j, ROW_6[j])
  {
    forall j | 0 <= j < 16
      ensures ImplementedFact(RowStart(6) + j, ROW_6[j])
    {
      assert j == 0 || j == 1 || j == 2 || j == 3 || j == 4 || j == 5 || j == 6 || j == 7 || j == 8 || j == 9 || j == 10 || j == 11 || j == 12 || j == 13 || j == 14 || j == 15;
    }
  }

  lemma Row6OnlyFlags()
    ensures forall j :: 0 <= j < 16 ==> OnlyFlagFact(RowStart(6) + j, ROW_6[j])
  {
    forall j | 0 <= j < 16
      ensures OnlyFlagFact(RowStart(6) + j, ROW_6[j])
    {
      assert j == 0 || j == 1 || j == 2 || j == 3 || j == 4 || j == 5 || j == 6 || j == 7 || j == 8 || j == 9 || j == 10 || j == 11 || j == 12 || j == 13 || j == 14 || j == 15;
    }
  }

  lemma Row6BitInstructions()
    ensures forall j :: 0 <= j < 16 ==> BitInstructionFact(ROW_6[j])
  {
    forall j | 0 <= j < 16
      ensures BitInstructionFact(ROW_6[j])
    {
      assert j == 0 || j == 1 || j == 2 || j == 3 || j == 4 || j == 5 || j == 6 || j == 7 || j == 8 || j == 9 || j == 10 || j == 11 || j == 12 || j == 13 || j == 14 || j == 15;
    }
  }

  lemma Row6Branches()
    ensures forall j :: 0 <= j < 16 ==> BranchFact(ROW_6[j])
  {
    forall j | 0 <= j < 16
      ensures BranchFact(ROW_6[j])
    {
      assert j == 0 || j == 1 || j == 2 || j == 3 || j == 4 || j == 5 || j == 6 || j == 7 || j == 8 || j == 9 || j == 10 || j == 11 || j == 12 || j == 13 || j == 14 || j == 15;
    }
  }

  lemma Row7Shape()
    ensures forall j :: 0 <= j < 16 ==> ShapeFact(RowStart(7) + j, ROW_7[j])
  {
    forall j | 0 <= j < 16
      ensures ShapeFact(RowStart(7) + j, ROW_7[j])
    {
      assert j == 0 || j == 1 || j == 2 || j == 3 || j == 4 || j == 5 || j == 6 || j == 7 || j == 8 || j == 9 || j == 10 || j == 11 || j == 12 || j == 13 || j == 14 || j == 15;
    }
  }

  lemma Row7Implemented()
    ensures forall j :: 0 <= j < 16 ==> ImplementedFact(RowStart(7) + j, ROW_7[j])
  {
    forall j | 0 <= j < 16
      ensures ImplementedFact(RowStart(7) + j, ROW_7[j])
    {
      assert j == 0 || j == 1 || j == 2 || j == 3 || j == 4 || j == 5 || j == 6 || j == 7 || j == 8 || j == 9 || j == 10 || j == 11 || j == 12 || j == 13 || j == 14 || j == 15;
    }
  }

  lemma Row7OnlyFlags()
    ensures forall j :: 0 <= j < 16 ==> OnlyFlagFact(RowStart(7) + j, ROW_7[j])
  {
    forall j | 0 <= j < 16
      ensures OnlyFlagFact(RowStart(7) + j, ROW_7[j])
    {
      assert j == 0 || j == 1 || j == 2 || j == 3 || j == 4 || j == 5 || j == 6 || j == 7 || j == 8 || j == 9 || j == 10 || j == 11 || j == 12 || j == 13 || j == 14 || j == 15;
    }
  }

  lemma Row7BitInstructions()
    ensures forall j :: 0 <= j < 16 ==> BitInstructionFact(ROW_7[j])
  {
    forall j | 0 <= j < 16
      ensures BitInstructionFact(ROW_7[j])
    {
      assert j == 0 || j == 1 || j == 2 || j == 3 || j == 4 || j == 5 || j == 6 || j == 7 || j == 8 || j == 9 || j == 10 || j == 11 || j == 12 || j == 13 || j == 14 || j == 15;
    }
  }

  lemma Row7Branches()
    ensures forall j :: 0 <= j < 16 ==> BranchFact(ROW_7[j])
  {
    forall j | 0 <= j < 16
      ensures BranchFact(ROW_7[j])
    {
      assert j == 0 || j == 1 || j == 2 || j == 3 || j == 4 || j == 5 || j == 6 || j == 7 || j == 8 || j == 9 || j == 10 || j == 11 || j == 12 || j == 13 || j == 14 || j == 15;
    }
  }

  lemma Row8Shape()
    ensures forall j :: 0 <= j < 16 ==> ShapeFact(RowStart(8) + j, ROW_8[j])
  {
    forall j | 0 <= j < 16
      ensures ShapeFact(RowStart(8) + j, ROW_8[j])
    {
      assert j == 0 || j == 1 || j == 2 || j == 3 || j == 4 || j == 5 || j == 6 || j == 7 || j == 8 || j == 9 || j == 10 || j == 11 || j == 12 || j == 13 || j == 14 || j == 15;
    }
  }

  lemma Row8Implemented()
    ensures forall j :: 0 <= j < 16 ==> ImplementedFact(RowStart(8) + j, ROW_8[j])
  {
    forall j | 0 <= j < 16
      ensures ImplementedFact(RowStart(8) + j, ROW_8[j])
    {
      assert j == 0 || j == 1 || j == 2 || j == 3 || j == 4 || j == 5 || j == 6 || j == 7 || j == 8 || j == 9 || j == 10 || j == 11 || j == 12 || j == 13 || j == 14 || j == 15;
    }
  }

  lemma Row8OnlyFlags()
    ensures forall j :: 0 <= j < 16 ==> OnlyFlagFact(RowStart(8) + j, ROW_8[j])
  {
    forall j | 0 <= j < 16
      ensures OnlyFlagFact(RowStart(8) + j, ROW_8[j])
    {
      assert j == 0 || j == 1 || j == 2 || j == 3 || j == 4 || j == 5 || j == 6 || j == 7 || j == 8 || j == 9 || j == 10 || j == 11 || j == 12 || j == 13 || j == 14 || j == 15;
    }
  }

  lemma Row8BitInstructions()
    ensures forall j :: 0 <= j < 16 ==> BitInstructionFact(ROW_8[j])
  {
    forall j | 0 <= j < 16
      ensures BitInstructionFact(ROW_8[j])
    {
      assert j == 0 || j == 1 || j == 2 || j == 3 || j == 4 || j == 5 || j == 6 || j == 7 || j == 8 || j == 9 || j == 10 || j == 11 || j == 12 || j == 13 || j == 14 || j == 15;
    }
  }

  lemma Row8Branches()
    ensures forall j :: 0 <= j < 16 ==> BranchFact(ROW_8[j])
  {
    forall j | 0 <= j < 16
      ensures BranchFact(ROW_8[j])
    {
      assert j == 0 || j == 1 || j == 2 || j == 3 || j == 4 || j == 5 || j == 6 || j == 7 || j == 8 || j == 9 || j == 10 || j == 11 || j == 12 || j == 13 || j == 14 || j == 15;
    }
  }

  lemma Row9Shape()
    ensures forall j :: 0 <= j < 16 ==> ShapeFact(RowStart(9) + j, ROW_9[j])
  {
    forall j | 0 <= j < 16
      ensures ShapeFact(RowStart(9) + j, ROW_9[j])
    {
      assert j == 0 || j == 1 || j == 2 || j == 3 || j == 4 || j == 5 || j == 6 || j == 7 || j == 8 || j == 9 || j == 10 || j == 11 || j == 12 || j == 13 || j == 14 || j == 15;
    }
  }

  lemma Row9Implemented()
    ensures forall j :: 0 <= j < 16 ==> ImplementedFact(RowStart(9) + j, ROW_9[j])
  {
    forall j | 0 <= j < 16
      ensures ImplementedFact(RowStart(9) + j, ROW_9[j])
    {
      assert j == 0 || j == 1 || j == 2 || j == 3 || j == 4 || j == 5 || j == 6 || j == 7 || j == 8 || j == 9 || j == 10 || j == 11 || j == 12 || j == 13 || j == 14 || j == 15;
    }
  }

  lemma Row9OnlyFlags()
    ensures forall j :: 0 <= j < 16 ==> OnlyFlagFact(RowStart(9) + j, ROW_9[j])
  {
    forall j | 0 <= j < 16
      ensures OnlyFlagFact(RowStart(9) + j, ROW_9[j])
    {
      assert j == 0 || j == 1 || j == 2 || j == 3 || j == 4 || j == 5 || j == 6 || j == 7 || j == 8 || j == 9 || j == 10 || j == 11 || j == 12 || j == 13 || j == 14 || j == 15;
    }
  }

  lemma Row9BitInstructions()
    ensures forall j :: 0 <= j < 16 ==> BitInstructionFact(ROW_9[j])
  {
    forall j | 0 <= j < 16
      ensures BitInstructionFact(ROW_9[j])
    {
      assert j == 0 || j == 1 || j == 2 || j == 3 || j == 4 || j == 5 || j == 6 || j == 7 || j == 8 || j == 9 || j == 10 || j == 11 || j == 12 || j == 13 || j == 14 || j == 15;
    }
  }

  lemma Row9Branches()
    ensures forall j :: 0 <= j < 16 ==> BranchFact(ROW_9[j])
  {
    forall j | 0 <= j < 16
      ensures BranchFact(ROW_9[j])
    {
      assert j == 0 || j == 1 || j == 2 || j == 3 || j == 4 || j == 5 || j == 6 || j == 7 || j == 8 || j == 9 || j == 10 || j == 11 || j == 12 || j == 13 || j == 14 || j == 15;
    }
  }

  lemma RowAShape()
    ensures forall j :: 0 <= j < 16 ==> ShapeFact(RowStart(10) + j, ROW_A[j])
  {
    forall j | 0 <= j < 16
      ensures ShapeFact(RowStart(10) + j, ROW_A[j])
    {
      assert j == 0 || j == 1 || j == 2 || j == 3 || j == 4 || j == 5 || j == 6 || j == 7 || j == 8 || j == 9 || j == 10 || j == 11 || j == 12 || j == 13 || j == 14 || j == 15;
    }
  }

  lemma RowAImplemented()
    ensures forall j :: 0 <= j < 16 ==> ImplementedFact(RowStart(10) + j, ROW_A[j])
  {
    forall j | 0 <= j < 16
      ensures ImplementedFact(RowStart(10) + j, ROW_A[j])
    {
      assert j == 0 || j == 1 || j == 2 || j == 3 || j == 4 || j == 5 || j == 6 || j == 7 || j == 8 || j == 9 || j == 10 || j == 11 || j == 12 || j == 13 || j == 14 || j == 15;
    }
  }

  lemma RowAOnlyFlags()
    ensures forall j :: 0 <= j < 16 ==> OnlyFlagFact(RowStart(10) + j, ROW_A[j])
  {
    forall j | 0 <= j < 16
      ensures OnlyFlagFact(RowStart(10) + j, ROW_A[j])
    {
      assert j == 0 || j == 1 || j == 2 || j == 3 || j == 4 || j == 5 || j == 6 || j == 7 || j == 8 || j == 9 || j == 10 || j == 11 || j == 12 || j == 13 || j == 14 || j == 15;
    }
  }

  lemma RowABitInstructions()
    ensures forall j :: 0 <= j < 16 ==> BitInstructionFact(ROW_A[j])
  {
    forall j | 0 <= j < 16
      ensures BitInstructionFact(ROW_A[j])
    {
      assert j == 0 || j == 1 || j == 2 || j == 3 || j == 4 || j == 5 || j == 6 || j == 7 || j == 8 || j == 9 || j == 10 || j == 11 || j == 12 || j == 13 || j == 14 || j == 15;
    }
  }

  lemma RowABranches()
    ensures forall j :: 0 <= j < 16 ==> BranchFact(ROW_A[j])
  {
    forall j | 0 <= j < 16
      ensures BranchFact(ROW_A[j])
    {
      assert j == 0 || j == 1 || j == 2 || j == 3 || j == 4 || j == 5 || j == 6 || j == 7 || j == 8 || j == 9 || j == 10 || j == 11 || j == 12 || j == 13 || j == 14 || j == 15;
    }
  }

  lemma RowBShape()
    ensures forall j :: 0 <= j < 16 ==> ShapeFact(RowStart(11) + j, ROW_B[j])
  {
    forall j | 0 <= j < 16
      ensures ShapeFact(RowStart(11) + j, ROW_B[j])
    {
      assert j == 0 || j == 1 || j == 2 || j == 3 || j == 4 || j == 5 || j == 6 || j == 7 || j == 8 || j == 9 || j == 10 || j == 11 || j == 12 || j == 13 || j == 14 || j == 15;
    }
  }

  lemma RowBImplemented()
    ensures forall j :: 0 <= j < 16 ==> ImplementedFact(RowStart(11) + j, ROW_B[j])
  {
    forall j | 0 <= j < 16
      ensures ImplementedFact(RowStart(11) + j, ROW_B[j])
    {
      assert j == 0 || j == 1 || j == 2 || j == 3 || j == 4 || j == 5 || j == 6 || j == 7 || j == 8 || j == 9 || j == 10 || j == 11 || j == 12 || j == 13 || j == 14 || j == 15;
    }
  }

  lemma RowBOnlyFlags()
    ensures forall j :: 0 <= j < 16 ==> OnlyFlagFact(RowStart(11) + j, ROW_B[j])
  {
    forall j | 0 <= j < 16
      ensures OnlyFlagFact(RowStart(11) + j, ROW_B[j])
    {
      assert j == 0 || j == 1 || j == 2 || j == 3 || j == 4 || j == 5 || j == 6 || j == 7 || j == 8 || j == 9 || j == 10 || j == 11 || j == 12 || j == 13 || j == 14 || j == 15;
    }
  }

  lemma RowBBitInstructions()
    ensures forall j :: 0 <= j < 16 ==> BitInstructionFact(ROW_B[j])
  {
    forall j | 0 <= j < 16
      ensures BitInstructionFact(ROW_B[j])
    {
      assert j == 0 || j == 1 || j == 2 || j == 3 || j == 4 || j == 5 || j == 6 || j == 7 || j == 8 || j == 9 || j == 10 || j == 11 || j == 12 || j == 13 || j == 14 || j == 15;
    }
  }

  lemma RowBBranches()
    ensures forall j :: 0 <= j < 16 ==> BranchFact(ROW_B[j])
  {
    forall j | 0 <= j < 16
      ensures BranchFact(ROW_B[j])
    {
      assert j == 0 || j == 1 || j == 2 || j == 3 || j == 4 || j == 5 || j == 6 || j == 7 || j == 8 || j == 9 || j == 10 || j == 11 || j == 12 || j == 13 || j == 14 || j == 15;
    }
  }

  lemma RowCShape()
    ensures forall j :: 0 <= j < 16 ==> ShapeFact(RowStart(12) + j, ROW_C[j])
  {
    forall j | 0 <= j < 16
      ensures ShapeFact(RowStart(12) + j, ROW_C[j])
    {
      assert j == 0 || j == 1 || j == 2 || j == 3 || j == 4 || j == 5 || j == 6 || j == 7 || j == 8 || j == 9 || j == 10 || j == 11 || j == 12 || j == 13 || j == 14 || j == 15;
    }
  }

  lemma RowCImplemented()
    ensures forall j :: 0 <= j < 16 ==> ImplementedFact(RowStart(12) + j, ROW_C[j])
  {
    forall j | 0 <= j < 16
      ensures ImplementedFact(RowStart(12) + j, ROW_C[j])
    {
      assert j == 0 || j == 1 || j == 2 || j == 3 || j == 4 || j == 5 || j == 6 || j == 7 || j == 8 || j == 9 || j == 10 || j == 11 || j == 12 || j == 13 || j == 14 || j == 15;
    }
  }

  lemma RowCOnlyFlags()
    ensures forall j :: 0 <= j < 16 ==> OnlyFlagFact(RowStart(12) + j, ROW_C[j])
  {
    forall j | 0 <= j < 16
      ensures OnlyFlagFact(RowStart(12) + j, ROW_C[j])
    {
      assert j == 0 || j == 1 || j == 2 || j == 3 || j == 4 || j == 5 || j == 6 || j == 7 || j == 8 || j == 9 || j == 10 || j == 11 || j == 12 || j == 13 || j == 14 || j == 15;
    }
  }

  lemma RowCBitInstructions()
    ensures forall j :: 0 <= j < 16 ==> BitInstructionFact(ROW_C[j])
  {
    forall j | 0 <= j < 16
      ensures BitInstructionFact(ROW_C[j])
    {
      assert j == 0 || j == 1 || j == 2 || j == 3 || j == 4 || j == 5 || j == 6 || j == 7 || j == 8 || j == 9 || j == 10 || j == 11 || j == 12 || j == 13 || j == 14 || j == 15;
    }
  }

  lemma RowCBranches()
    ensures forall j :: 0 <= j < 16 ==> BranchFact(ROW_C[j])
  {
    forall j | 0 <= j < 16
      ensures BranchFact(ROW_C[j])
    {
      assert j == 0 || j == 1 || j == 2 || j == 3 || j == 4 || j == 5 || j == 6 || j == 7 || j == 8 || j == 9 || j == 10 || j == 11 || j == 12 || j == 13 || j == 14 || j == 15;
    }
  }

  lemma RowDShape()
    ensures forall j :: 0 <= j < 16 ==> ShapeFact(RowStart(13) + j, ROW_D[j])
  {
    forall j | 0 <= j < 16
      ensures ShapeFact(RowStart(13) + j, ROW_D[j])
    {
      assert j == 0 || j == 1 || j == 2 || j == 3 || j == 4 || j == 5 || j == 6 || j == 7 || j == 8 || j == 9 || j == 10 || j == 11 || j == 12 || j == 13 || j == 14 || j == 15;
    }
  }

  lemma RowDImplemented()
    ensures forall j :: 0 <= j < 16 ==> ImplementedFact(RowStart(13) + j, ROW_D[j])
  {
    forall j | 0 <= j < 16
      ensures ImplementedFact(RowStart(13) + j, ROW_D[j])
    {
      assert j == 0 || j == 1 || j == 2 || j == 3 || j == 4 || j == 5 || j == 6 || j == 7 || j == 8 || j == 9 || j == 10 || j == 11 || j == 12 || j == 13 || j == 14 || j == 15;
    }
  }

  lemma RowDOnlyFlags()
    ensures forall j :: 0 <= j < 16 ==> OnlyFlagFact(RowStart(13) + j, ROW_D[j])
  {
    forall j | 0 <= j < 16
      ensures OnlyFlagFact(RowStart(13) + j, ROW_D[j])
    {
      assert j == 0 || j == 1 || j == 2 || j == 3 || j == 4 || j == 5 || j == 6 || j == 7 || j == 8 || j == 9 || j == 10 || j == 11 || j == 12 || j == 13 || j == 14 || j == 15;
    }
  }

  lemma RowDBitInstructions()
    ensures forall j :: 0 <= j < 16 ==> BitInstructionFact(ROW_D[j])
  {
    forall j | 0 <= j < 16
      ensures BitInstructionFact(ROW_D[j])
    {
      assert j == 0 || j == 1 || j == 2 || j == 3 || j == 4 || j == 5 || j == 6 || j == 7 || j == 8 || j == 9 || j == 10 || j == 11 || j == 12 || j == 13 || j == 14 || j == 15;
    }
  }

  lemma RowDBranches()
    ensures forall j :: 0 <= j < 16 ==> BranchFact(ROW_D[j])
  {
    forall j | 0 <= j < 16
      ensures BranchFact(ROW_D[j])
    {
      assert j == 0 || j == 1 || j == 2 || j == 3 || j == 4 || j == 5 || j == 6 || j == 7 || j == 8 || j == 9 || j == 10 || j == 11 || j == 12 || j == 13 || j == 14 || j == 15;
    }
  }

  lemma RowEShape()
    ensures forall j :: 0 <= j < 16 ==> ShapeFact(RowStart(14) + j, ROW_E[j])
  {
    forall j | 0 <= j < 16
      ensures ShapeFact(RowStart(14) + j, ROW_E[j])
    {
      assert j == 0 || j == 1 || j == 2 || j == 3 || j == 4 || j == 5 || j == 6 || j == 7 || j == 8 || j == 9 || j == 10 || j == 11 || j == 12 || j == 13 || j == 14 || j == 15;
    }
  }

  lemma RowEImplemented()
    ensures forall j :: 0 <= j < 16 ==> ImplementedFact(RowStart(14) + j, ROW_E[j])
  {
    forall j | 0 <= j < 16
      ensures ImplementedFact(RowStart(14) + j, ROW_E[j])
    {
      assert j == 0 || j == 1 || j == 2 || j == 3 || j == 4 || j == 5 || j == 6 || j == 7 || j == 8 || j == 9 || j == 10 || j == 11 || j == 12 || j == 13 || j == 14 || j == 15;
    }
  }

  lemma RowEOnlyFlags()
    ensures forall j :: 0 <= j < 16 ==> OnlyFlagFact(RowStart(14) + j, ROW_E[j])
  {
    forall j | 0 <= j < 16
      ensures OnlyFlagFact(RowStart(14) + j, ROW_E[j])
    {
      assert j == 0 || j == 1 || j == 2 || j == 3 || j == 4 || j == 5 || j == 6 || j == 7 || j == 8 || j == 9 || j == 10 || j == 11 || j == 12 || j == 13 || j == 14 || j == 15;
    }
  }

  lemma RowEBitInstructions()
    ensures forall j :: 0 <= j < 16 ==> BitInstructionFact(ROW_E[j])
  {
    forall j | 0 <= j < 16
      ensures BitInstructionFact(ROW_E[j])
    {
      assert j == 0 || j == 1 || j == 2 || j == 3 || j == 4 || j == 5 || j == 6 || j == 7 || j == 8 || j == 9 || j == 10 || j == 11 || j == 12 || j == 13 || j == 14 || j == 15;
    }
  }

  lemma RowEBranches()
    ensures forall j :: 0 <= j < 16 ==> BranchFact(ROW_E[j])
  {
    forall j | 0 <= j < 16
      ensures BranchFact(ROW_E[j])
    {
      assert j == 0 || j == 1 || j == 2 || j == 3 || j == 4 || j == 5 || j == 6 || j == 7 || j == 8 || j == 9 || j == 10 || j == 11 || j == 12 || j == 13 || j == 14 || j == 15;
    }
  }

  lemma RowFShape()
    ensures forall j :: 0 <= j < 16 ==> ShapeFact(RowStart(15) + j, ROW_F[j])
  {
    forall j | 0 <= j < 16
      ensures ShapeFact(RowStart(15) + j, ROW_F[j])
    {
      assert j == 0 || j == 1 || j == 2 || j == 3 || j == 4 || j == 5 || j == 6 || j == 7 || j == 8 || j == 9 || j == 10 || j == 11 || j == 12 || j == 13 || j == 14 || j == 15;
    }
  }

  lemma RowFImplemented()
    ensures forall j :: 0 <= j < 16 ==> ImplementedFact(RowStart(15) + j, ROW_F[j])
  {
    forall j | 0 <= j < 16
      ensures ImplementedFact(RowStart(15) + j, ROW_F[j])
    {
      assert j == 0 || j == 1 || j == 2 || j == 3 || j == 4 || j == 5 || j == 6 || j == 7 || j == 8 || j == 9 || j == 10 || j == 11 || j == 12 || j == 13 || j == 14 || j == 15;
    }
  }

  lemma RowFOnlyFlags()
    ensures forall j :: 0 <= j < 16 ==> OnlyFlagFact(RowStart(15) + j, ROW_F[j])
  {
    forall j | 0 <= j < 16
      ensures OnlyFlagFact(RowStart(15) + j, ROW_F[j])
    {
      assert j == 0 || j == 1 || j == 2 || j == 3 || j == 4 || j == 5 || j == 6 || j == 7 || j == 8 || j == 9 || j == 10 || j == 11 || j == 12 || j == 13 || j == 14 || j == 15;
    }
  }

  lemma RowFBitInstructions()
    ensures forall j :: 0 <= j < 16 ==> BitInstructionFact(ROW_F[j])
  {
    forall j | 0 <= j < 16
      ensures BitInstructionFact(ROW_F[j])
    {
      assert j == 0 || j == 1 || j == 2 || j == 3 || j == 4 || j == 5 || j == 6 || j == 7 || j == 8 || j == 9 || j == 10 || j == 11 || j == 12 || j == 13 || j == 14 || j == 15;
    }
  }

  lemma RowFBranches()
    ensures forall j :: 0 <= j < 16 ==> BranchFact(ROW_F[j])
  {
    forall j | 0 <= j < 16
      ensures BranchFact(ROW_F[j])
    {
      assert j == 0 || j == 1 || j == 2 || j == 3 || j == 4 || j == 5 || j == 6 || j == 7 || j == 8 || j == 9 || j == 10 || j == 11 || j == 12 || j == 13 || j == 14 || j == 15;
    }
  }

  lemma ShapeInRow(k: int, j: int)
    requires 0 <= k < 16 && 0 <= j < 16
    ensures ShapeFact(RowStart(k) + j, Row(k)[j])
  {
    if k == 0 { Row0Shape(); }
    else if k == 1 { Row1Shape(); }
    else if k == 2 { Row2Shape(); }
    else if k == 3 { Row3Shape(); }
    else if k == 4 { Row4Shape(); }
    else if k == 5 { Row5Shape(); }
    else if k == 6 { Row6Shape(); }
    else if k == 7 { Row7Shape(); }
    else if k == 8 { Row8Shape(); }
    else if k == 9 { Row9Shape(); }
    else if k == 10 { RowAShape(); }
    else if k == 11 { RowBShape(); }
    else if k == 12 { RowCShape(); }
    else if k == 13 { RowDShape(); }
    else if k == 14 { RowEShape(); }
    else { RowFShape(); }
  }

  lemma ShapeAt(i: int)
    requires 0 <= i < 256
    ensures ShapeFact(i, OPCODES[i])
  {
    var k, j := i / 16, i % 16;
    assert i == RowStart(k) + j;
    assert OPCODES[i] == Row(k)[j];
    ShapeInRow(k, j);
  }

  lemma ImplementedInRow(k: int, j: int)
    requires 0 <= k < 16 && 0 <= j < 16
    ensures ImplementedFact(RowStart(k) + j, Row(k)[j])
  {
    if k == 0 { Row0Implemented(); }
    else if k == 1 { Row1Implemented(); }
    else if k == 2 { Row2Implemented(); }
    else if k == 3 { Row3Implemented(); }
    else if k == 4 { Row4Implemented(); }
    else if k == 5 { Row5Implemented(); }
    else if k == 6 { Row6Implemented(); }
    else if k == 7 { Row7Implemented(); }
    else if k == 8 { Row8Implemented(); }
    else if k == 9 { Row9Implemented(); }
    else if k == 10 { RowAImplemented(); }
    else if k == 11 { RowBImplemented(); }
    else if k == 12 { RowCImplemented(); }
    else if k == 13 { RowDImplemented(); }
    else if k == 14 { RowEImplemented(); }
    else { RowFImplemented(); }
  }

  lemma ImplementedAt(i: int)
    requires 0 <= i < 256
    ensures ImplementedFact(i, OPCODES[i])
  {
    var k, j := i / 16, i % 16;
    assert i == RowStart(k) + j;
    assert OPCODES[i] == Row(k)[j];
    ImplementedInRow(k, j);
  }

  lemma OnlyFlagsInRow(k: int, j: int)
    requires 0 <= k < 16 && 0 <= j < 16
    ensures OnlyFlagFact(RowStart(k) + j, Row(k)[j])
  {
    if k == 0 { Row0OnlyFlags(); }
    else if k == 1 { Row1OnlyFlags(); }
    else if k == 2 { Row2OnlyFlags(); }
    else if k == 3 { Row3OnlyFlags(); }
    else if k == 4 { Row4OnlyFlags(); }
    else if k == 5 { Row5OnlyFlags(); }
    else if k == 6 { Row6OnlyFlags(); }
    else if k == 7 { Row7OnlyFlags(); }
    else if k == 8 { Row8OnlyFlags(); }
    else if k == 9 { Row9OnlyFlags(); }
    else if k == 10 { RowAOnlyFlags(); }
    else if k == 11 { RowBOnlyFlags(); }
    else if k == 12 { RowCOnlyFlags(); }
    else if k == 13 { RowDOnlyFlags(); }
    else if k == 14 { RowEOnlyFlags(); }
    else { RowFOnlyFlags(); }
  }

  lemma OnlyFlagsAt(i: int)
    requires 0 <= i < 256
    ensures OnlyFlagFact(i, OPCODES[i])
  {
    var k, j := i / 16, i % 16;
    assert i == RowStart(k) + j;
    assert OPCODES[i] == Row(k)[j];
    OnlyFlagsInRow(k, j);
  }

  lemma BitInstructionsInRow(k: int, j: int)
    requires 0 <= k < 16 && 0 <= j < 16
    ensures BitInstructionFact(Row(k)[j])
  {
    if k == 0 { Row0BitInstructions(); }
    else if k == 1 { Row1BitInstructions(); }
    else if k == 2 { Row2BitInstructions(); }
    else if k == 3 { Row3BitInstructions(); }
    else if k == 4 { Row4BitInstructions(); }
    else if k == 5 { Row5BitInstructions(); }
    else if k == 6 { Row6BitInstructions(); }
    else if k == 7 { Row7BitInstructions(); }
    else if k == 8 { Row8BitInstructions(); }
    else if k == 9 { Row9BitInstructions(); }
    else if k == 10 { RowABitInstructions(); }
    else if k == 11 { RowBBitInstructions(); }
    else if k == 12 { RowCBitInstructions(); }
    else if k == 13 { RowDBitInstructions(); }
    else if k == 14 { RowEBitInstructions(); }
    else { RowFBitInstructions(); }
  }

  lemma BitInstructionsAt(i: int)
    requires 0 <= i < 256
    ensures BitInstructionFact(OPCODES[i])
  {
    var k, j := i / 16, i % 16;
    assert i == RowStart(k) + j;
    assert OPCODES[i] == Row(k)[j];
    BitInstructionsInRow(k, j);
  }

  lemma BranchesInRow(k: int, j: int)
    requires 0 <= k < 16 && 0 <= j < 16
    ensures BranchFact(Row(k)[j])
  {
    if k == 0 { Row0Branches(); }
    else if k == 1 { Row1Branches(); }
    else if k == 2 { Row2Branches(); }
    else if k == 3 { Row3Branches(); }
    else if k == 4 { Row4Branches(); }
    else if k == 5 { Row5Branches(); }
    else if k == 6 { Row6Branches(); }
    else if k == 7 { Row7Branches(); }
    else if k == 8 { Row8Branches(); }
    else if k == 9 { Row9Branches(); }
    else if k == 10 { RowABranches(); }
    else if k == 11 { RowBBranches(); }
    else if k == 12 { RowCBranches(); }
    else if k == 13 { RowDBranches(); }
    else if k == 14 { RowEBranches(); }
    else { RowFBranches(); }
  }

  lemma BranchesAt(i: int)
    requires 0 <= i < 256
    ensures BranchFact(OPCODES[i])
  {
    var k, j := i / 16, i % 16;
    assert i == RowStart(k) + j;
    assert OPCODES[i] == Row(k)[j];
    BranchesInRow(k, j);
  }

  lemma EntryFactsAt(i: int)
    requires 0 <= i < 256
    ensures EntryFacts(i, OPCODES[i])
  {
    ShapeAt(i);
    ImplementedAt(i);
    OnlyFlagsAt(i);
    BitInstructionsAt(i);
    BranchesAt(i);
  }

  lemma AllEntryFacts()
    ensures forall i :: 0 <= i < 256 ==> EntryFacts(i, OPCODES[i])
  {
    forall i | 0 <= i < 256
      ensures EntryFacts(i, OPCODES[i])
    {
      EntryFactsAt(i);
    }
  }

  // ---------------------------------------------------------------
  // Query helpers
  // ---------------------------------------------------------------

  /** The entry for `opcode`; it describes that very opcode. */
  function GetMetadata(opcode: bv8): (m: InstructionMetadata)
    ensures m.opcode == opcode as int
    ensures m.cycles > 0 && |m.mnemonic| >= 3
  {
    EntryFactsAt(opcode as int);
    OPCODES[opcode as int]
  }

  /** The entry's 65C02-only flag: set for exactly the listed opcodes. */
  function Is65C02Opcode(opcode: bv8): (r: bool)
    ensures r <==> Listed65C02(opcode as int)
  {
    EntryFactsAt(opcode as int);
    OPCODES[opcode as int].is65c02Only
  }

  /** An opcode is implemented unless its mnemonic starts with '-': all but the listed ones. */
  function IsImplemented(opcode: bv8): (r: bool)
    ensures r <==> !ListedUnimplemented(opcode as int)
  {
    EntryFactsAt(opcode as int);
    OPCODES[opcode as int].mnemonic[0] != '-'
  }

  // ---------------------------------------------------------------
  // Properties of the whole table
  // ---------------------------------------------------------------

  /** Entry i describes opcode i, for all 256 entries. */
  lemma OpcodeMatchesIndex()
    ensures |OPCODES| == 256
    ensures forall i :: 0 <= i < 256 ==> OPCODES[i].opcode == i
  {
    forall i | 0 <= i < 256
      ensures OPCODES[i].opcode == i
    {
      EntryFactsAt(i);
    }
  }

  /** Every entry costs at least one cycle, and every implemented one between 2 and 7. */
  lemma CyclesInRange(op: bv8)
    ensures GetMetadata(op).cycles > 0
    ensures IsImplemented(op) ==> 2 <= GetMetadata(op).cycles <= 7
  {
    EntryFactsAt(op as int);
  }

  /** RMB, SMB, BBR and BBS take 5 cycles and are 65C02-only. */
  lemma BitInstructionTiming(op: bv8)
    requires IsBitInstruction(GetMetadata(op).mnemonic)
    ensures GetMetadata(op).cycles == 5 && Is65C02Opcode(op)
  {
    EntryFactsAt(op as int);
  }

  /** Conditional branches cost 2 base cycles; BRA, opcode 0x80, costs 3. */
  lemma BranchTiming(op: bv8)
    ensures IsConditionalBranch(GetMetadata(op).mnemonic) ==> GetMetadata(op).cycles == 2
    ensures IsBra(GetMetadata(op).mnemonic) ==> GetMetadata(op).cycles == 3 && Is65C02Opcode(op)
    ensures IsBra(GetMetadata(0x80).mnemonic)
  {
    EntryFactsAt(op as int);
    EntryFactsAt(0x80);
    assert OPCODES[0x80] == ROW_8[0];
  }

  // ---------------------------------------------------------------
  // How many opcodes are implemented
  // ---------------------------------------------------------------

  /** The opcodes of `ListedUnimplemented`, in increasing order. */
  const UNIMPLEMENTED_LIST: seq<int> := [
    0x02, 0x03, 0x0B, 0x13, 0x1B, 0x22, 0x23, 0x2B, 0x33, 0x3B, 0x42, 0x43, 0x44, 0x4B, 0x53, 0x54,
    0x5B, 0x5C, 0x62, 0x63, 0x6B, 0x73, 0x7B, 0x82, 0x83, 0x8B, 0x93, 0x9B, 0xA3, 0xAB, 0xB3, 0xBB,
    0xC2, 0xC3, 0xD3, 0xD4, 0xDC, 0xE2, 0xE3, 0xEB, 0xF3, 0xF4, 0xFB, 0xFC
  ]

  predicate StrictlyIncreasing(s: seq<int>)
  {
    forall k :: 0 <= k < |s| - 1 ==> s[k] < s[k + 1]
  }

  lemma ListIsIncreasing()
    ensures |UNIMPLEMENTED_LIST| == 44 && StrictlyIncreasing(UNIMPLEMENTED_LIST)
  {
    forall k | 0 <= k < 43
      ensures UNIMPLEMENTED_LIST[k] < UNIMPLEMENTED_LIST[k + 1]
    {
      if k < 11 {
        assert k == 0 || k == 1 || k == 2 || k == 3 || k == 4 || k == 5 || k == 6 || k == 7 || k == 8 || k == 9 || k == 10;
      } else if k < 22 {
        assert k == 11 || k == 12 || k == 13 || k == 14 || k == 15 || k == 16 || k == 17 || k == 18 || k == 19 || k == 20
          || k == 21;
      } else if k < 33 {
        assert k == 22 || k == 23 || k == 24 || k == 25 || k == 26 || k == 27 || k == 28 || k == 29 || k == 30 || k == 31
          || k == 32;
      } else {
        assert k == 33 || k == 34 || k == 35 || k == 36 || k == 37 || k == 38 || k == 39 || k == 40 || k == 41 || k == 42;
      }
    }
  }

  lemma ListMatchesPredicate(i: int)
    ensures ListedUnimplemented(i) <==> i in UNIMPLEMENTED_LIST
  {
  }

  /** The integers 0 .. n-1. */
  function Range(n: nat): (s: set<int>)
    ensures forall i :: i in s <==> 0 <= i < n
    ensures |s| == n
  {
    if n == 0 then {} else
      var r := Range(n - 1);
      assert n - 1 !in r;
      r + {n - 1}
  }

  lemma {:induction false} TailIncreasing(s: seq<int>)
    requires StrictlyIncreasing(s) && s != []
    ensures StrictlyIncreasing(s[1..])
  {
    var rest := s[1..];
    forall k | 0 <= k < |rest| - 1
      ensures rest[k] < rest[k + 1]
    {
      assert rest[k] == s[k + 1] && rest[k + 1] == s[k + 2];
    }
  }

  /** The head of a strictly increasing sequence is below everything after it. */
  lemma {:induction false} HeadBelowRest(s: seq<int>)
    requires StrictlyIncreasing(s) && s != []
    ensures forall x :: x in s[1..] ==> s[0] < x
  {
    if |s| > 1 {
      var rest := s[1..];
      TailIncreasing(s);
      HeadBelowRest(rest);
      assert s[1..] == [s[1]] + rest[1..];
    }
  }

  /** A strictly increasing sequence has as many distinct elements as entries. */
  lemma {:induction false} IncreasingCard(s: seq<int>)
    requires StrictlyIncreasing(s)
    ensures |set x | x in s| == |s|
  {
    if s != [] {
      var rest := s[1..];
      TailIncreasing(s);
      IncreasingCard(rest);
      HeadBelowRest(s);
      assert (set x | x in s) == (set x | x in rest) + {s[0]};
    }
  }

  /** Removing a subset removes its size. */
  lemma DifferenceCard(whole: set<int>, part: set<int>)
    requires part <= whole
    ensures |whole - part| == |whole| - |part|
  {
    assert whole == (whole - part) + part;
  }

  /** The opcodes `IsImplemented` accepts. */
  function ImplementedOpcodes(): (s: set<int>)
    ensures forall i :: i in s <==> 0 <= i < 256 && !ListedUnimplemented(i)
  {
    set i | 0 <= i < 256 && !ListedUnimplemented(i)
  }

  lemma ListedSet(listed: set<int>)
    requires forall x :: x in listed <==> x in UNIMPLEMENTED_LIST
    ensures forall i :: i in listed <==> ListedUnimplemented(i)
  {
    forall i
      ensures i in listed <==> ListedUnimplemented(i)
    {
      ListMatchesPredicate(i);
    }
  }

  lemma ImplementedIsDifference(listed: set<int>)
    requires forall x :: x in listed <==> x in UNIMPLEMENTED_LIST
    ensures listed <= Range(256)
    ensures ImplementedOpcodes() == Range(256) - listed
  {
    ListedSet(listed);
    forall x | x in listed
      ensures x in Range(256)
    {
      ListedInRange(x);
    }
    var implemented := ImplementedOpcodes();
    forall i
      ensures i in implemented <==> i in Range(256) - listed
    {
    }
  }

  lemma ListedInRange(i: int)
    requires ListedUnimplemented(i)
    ensures 0 <= i < 256
  {
  }

  /** 212 of the 256 opcodes are implemented (the coverage tests ask for at least 210). */
  lemma ImplementedCount()
    ensures forall op: bv8 :: IsImplemented(op) <==> op as int in ImplementedOpcodes()
    ensures |ImplementedOpcodes()| == 212
  {
    ListIsIncreasing();
    IncreasingCard(UNIMPLEMENTED_LIST);
    var listed := set x | x in UNIMPLEMENTED_LIST;
    ImplementedIsDifference(listed);
    DifferenceCard(Range(256), listed);
  }
}
