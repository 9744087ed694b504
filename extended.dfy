// The 0xCB-prefixed instruction set (extended_instruction.go): rotates, shifts, SWAP, BIT, SET and
// RES, each on a register or on the byte HL points at, and the table of the 256 opcodes.

module ExtendedInstructions {
  import opened Bits
  import opened Memory
  import opened RegisterFile
  import opened Instructions

  /** The rotates and shifts, and SWAP: each stores a new operand and overwrites F. */
  datatype ShiftOp = Rlc | Rl | Rrc | Rr | Sla | Sra | Srl | Swap

  /** What an instruction works on: a register, or the byte at the address in a register pair. */
  datatype Operand = Register(source: Reg) | FromMemory(source1: Reg, source2: Reg)

  /** One instruction kind per source type, with its operand and bit number fixed by the table. */
  datatype ExtendedInstruction =
    | Shift(op: ShiftOp, target: Operand)
    | TestBit(bitNumber: nat, target: Operand)
    | SetBit(bitNumber: nat, target: Operand)
    | ResetBit(bitNumber: nat, target: Operand)

  /** An opcode's cycle count, its declared number of parameter bytes, and its instruction. */
  datatype ExtendedDescriptor = ExtendedDescriptor(cycles: nat, paramBytes: nat, instruction: ExtendedInstruction)

  /** The entry of the extended table for one opcode: every opcode has one. */
  function ExtendedDecode(opcode: Opcode): ExtendedDescriptor
  {
    if opcode < 0x20 then RotateEntries(opcode)
    else if opcode < 0x40 then ShiftEntries(opcode)
    else if opcode < 0x60 then BitEntriesLow(opcode)
    else if opcode < 0x80 then BitEntriesHigh(opcode)
    else if opcode < 0xA0 then ResetEntriesLow(opcode)
    else if opcode < 0xC0 then ResetEntriesHigh(opcode)
    else if opcode < 0xE0 then SetEntriesLow(opcode)
    else SetEntriesHigh(opcode)
  }

  /** The entries for RLC, RRC, RL and RR: opcodes 0x00 to 0x1F. */
  function RotateEntries(opcode: Opcode): ExtendedDescriptor
    requires opcode < 0x20
  {
    match opcode
    case 0x00 => ExtendedDescriptor(8, 0, Shift(Rlc, Register(B)))
    case 0x01 => ExtendedDescriptor(8, 0, Shift(Rlc, Register(C)))
    case 0x02 => ExtendedDescriptor(8, 0, Shift(Rlc, Register(D)))
    case 0x03 => ExtendedDescriptor(8, 0, Shift(Rlc, Register(E)))
    case 0x04 => ExtendedDescriptor(8, 0, Shift(Rlc, Register(H)))
    case 0x05 => ExtendedDescriptor(8, 0, Shift(Rlc, Register(L)))
    case 0x06 => ExtendedDescriptor(16, 0, Shift(Rlc, FromMemory(H, L)))
    case 0x07 => ExtendedDescriptor(8, 0, Shift(Rlc, Register(A)))
    case 0x08 => ExtendedDescriptor(8, 0, Shift(Rrc, Register(B)))
    case 0x09 => ExtendedDescriptor(8, 0, Shift(Rrc, Register(C)))
    case 0x0A => ExtendedDescriptor(8, 0, Shift(Rrc, Register(D)))
    case 0x0B => ExtendedDescriptor(8, 0, Shift(Rrc, Register(E)))
    case 0x0C => ExtendedDescriptor(8, 0, Shift(Rrc, Register(H)))
    case 0x0D => ExtendedDescriptor(8, 0, Shift(Rrc, Register(L)))
    case 0x0E => ExtendedDescriptor(16, 0, Shift(Rrc, FromMemory(H, L)))
    case 0x0F => ExtendedDescriptor(8, 0, Shift(Rrc, Register(A)))
    case 0x10 => ExtendedDescriptor(8, 0, Shift(Rl, Register(B)))
    case 0x11 => ExtendedDescriptor(8, 0, Shift(Rl, Register(C)))
    case 0x12 => ExtendedDescriptor(8, 0, Shift(Rl, Register(D)))
    case 0x13 => ExtendedDescriptor(8, 0, Shift(Rl, Register(E)))
    case 0x14 => ExtendedDescriptor(8, 0, Shift(Rl, Register(H)))
    case 0x15 => ExtendedDescriptor(8, 0, Shift(Rl, Register(L)))
    case 0x16 => ExtendedDescriptor(16, 0, Shift(Rl, FromMemory(H, L)))
    case 0x17 => ExtendedDescriptor(8, 0, Shift(Rl, Register(A)))
    case 0x18 => ExtendedDescriptor(8, 0, Shift(Rr, Register(B)))
    case 0x19 => ExtendedDescriptor(8, 0, Shift(Rr, Register(C)))
    case 0x1A => ExtendedDescriptor(8, 0, Shift(Rr, Register(D)))
    case 0x1B => ExtendedDescriptor(8, 0, Shift(Rr, Register(E)))
    case 0x1C => ExtendedDescriptor(8, 0, Shift(Rr, Register(H)))
    case 0x1D => ExtendedDescriptor(8, 0, Shift(Rr, Register(L)))
    case 0x1E => ExtendedDescriptor(8, 0, Shift(Rr, FromMemory(H, L)))
    case _ => ExtendedDescriptor(8, 0, Shift(Rr, Register(A)))  // 0x1F
  }

  /** The entries for SLA, SRA, SWAP and SRL: opcodes 0x20 to 0x3F. */
  function ShiftEntries(opcode: Opcode): ExtendedDescriptor
    requires 0x20 <= opcode < 0x40
  {
    match opcode
    case 0x20 => ExtendedDescriptor(8, 0, Shift(Sla, Register(B)))
    case 0x21 => ExtendedDescriptor(8, 0, Shift(Sla, Register(C)))
    case 0x22 => ExtendedDescriptor(8, 0, Shift(Sla, Register(D)))
    case 0x23 => ExtendedDescriptor(8, 0, Shift(Sla, Register(E)))
    case 0x24 => ExtendedDescriptor(8, 0, Shift(Sla, Register(H)))
    case 0x25 => ExtendedDescriptor(8, 0, Shift(Sla, Register(L)))
    case 0x26 => ExtendedDescriptor(16, 0, Shift(Sla, FromMemory(H, L)))
    case 0x27 => ExtendedDescriptor(8, 0, Shift(Sla, Register(A)))
    case 0x28 => ExtendedDescriptor(8, 0, Shift(Sra, Register(B)))
    case 0x29 => ExtendedDescriptor(8, 0, Shift(Sra, Register(C)))
    case 0x2A => ExtendedDescriptor(8, 0, Shift(Sra, Register(D)))
    case 0x2B => ExtendedDescriptor(8, 0, Shift(Sra, Register(E)))
    case 0x2C => ExtendedDescriptor(8, 0, Shift(Sra, Register(H)))
    case 0x2D => ExtendedDescriptor(8, 0, Shift(Sra, Register(L)))
    case 0x2E => ExtendedDescriptor(16, 0, Shift(Sra, FromMemory(H, L)))
    case 0x2F => ExtendedDescriptor(8, 0, Shift(Sra, Register(A)))
    case 0x30 => ExtendedDescriptor(8, 0, Shift(Swap, Register(B)))
    case 0x31 => ExtendedDescriptor(8, 0, Shift(Swap, Register(C)))
    case 0x32 => ExtendedDescriptor(8, 0, Shift(Swap, Register(D)))
    case 0x33 => ExtendedDescriptor(8, 0, Shift(Swap, Register(E)))
    case 0x34 => ExtendedDescriptor(8, 0, Shift(Swap, Register(H)))
    case 0x35 => ExtendedDescriptor(8, 0, Shift(Swap, Register(L)))
    case 0x36 => ExtendedDescriptor(16, 0, Shift(Swap, FromMemory(H, L)))
    case 0x37 => ExtendedDescriptor(8, 0, Shift(Swap, Register(A)))
    case 0x38 => ExtendedDescriptor(8, 0, Shift(Srl, Register(B)))
    case 0x39 => ExtendedDescriptor(8, 0, Shift(Srl, Register(C)))
    case 0x3A => ExtendedDescriptor(8, 0, Shift(Srl, Register(D)))
    case 0x3B => ExtendedDescriptor(8, 0, Shift(Srl, Register(E)))
    case 0x3C => ExtendedDescriptor(8, 0, Shift(Srl, Register(H)))
    case 0x3D => ExtendedDescriptor(8, 0, Shift(Srl, Register(L)))
    case 0x3E => ExtendedDescriptor(16, 0, Shift(Srl, FromMemory(H, L)))
    case _ => ExtendedDescriptor(8, 0, Shift(Srl, Register(A)))  // 0x3F
  }

  /** The entries for BIT 0 to 3: opcodes 0x40 to 0x5F. */
  function BitEntriesLow(opcode: Opcode): ExtendedDescriptor
    requires 0x40 <= opcode < 0x60
  {
    match opcode
    case 0x40 => ExtendedDescriptor(8, 0, TestBit(0, Register(B)))
    case 0x41 => ExtendedDescriptor(8, 0, TestBit(0, Register(C)))
    case 0x42 => ExtendedDescriptor(8, 0, TestBit(0, Register(D)))
    case 0x43 => ExtendedDescriptor(8, 0, TestBit(0, Register(E)))
    case 0x44 => ExtendedDescriptor(8, 0, TestBit(0, Register(H)))
    case 0x45 => ExtendedDescriptor(8, 0, TestBit(0, Register(L)))
    case 0x46 => ExtendedDescriptor(16, 0, TestBit(0, FromMemory(H, L)))
    case 0x47 => ExtendedDescriptor(8, 0, TestBit(0, Register(A)))
    case 0x48 => ExtendedDescriptor(8, 0, TestBit(1, Register(B)))
    case 0x49 => ExtendedDescriptor(8, 0, TestBit(1, Register(C)))
    case 0x4A => ExtendedDescriptor(8, 0, TestBit(1, Register(D)))
    case 0x4B => ExtendedDescriptor(8, 0, TestBit(1, Register(E)))
    case 0x4C => ExtendedDescriptor(8, 0, TestBit(1, Register(H)))
    case 0x4D => ExtendedDescriptor(8, 0, TestBit(1, Register(L)))
    case 0x4E => ExtendedDescriptor(16, 0, TestBit(1, FromMemory(H, L)))
    case 0x4F => ExtendedDescriptor(8, 0, TestBit(1, Register(A)))
    case 0x50 => ExtendedDescriptor(8, 0, TestBit(2, Register(B)))
    case 0x51 => ExtendedDescriptor(8, 0, TestBit(2, Register(C)))
    case 0x52 => ExtendedDescriptor(8, 0, TestBit(2, Register(D)))
    case 0x53 => ExtendedDescriptor(8, 0, TestBit(2, Register(E)))
    case 0x54 => ExtendedDescriptor(8, 0, TestBit(2, Register(H)))
    case 0x55 => ExtendedDescriptor(8, 0, TestBit(2, Register(L)))
    case 0x56 => ExtendedDescriptor(16, 0, TestBit(2, FromMemory(H, L)))
    case 0x57 => ExtendedDescriptor(8, 0, TestBit(2, Register(A)))
    case 0x58 => ExtendedDescriptor(8, 0, TestBit(3, Register(B)))
    case 0x59 => ExtendedDescriptor(8, 0, TestBit(3, Register(C)))
    case 0x5A => ExtendedDescriptor(8, 0, TestBit(3, Register(D)))
    case 0x5B => ExtendedDescriptor(8, 0, TestBit(3, Register(E)))
    case 0x5C => ExtendedDescriptor(8, 0, TestBit(3, Register(H)))
    case 0x5D => ExtendedDescriptor(8, 0, TestBit(3, Register(L)))
    case 0x5E => ExtendedDescriptor(16, 0, TestBit(3, FromMemory(H, L)))
    case _ => ExtendedDescriptor(8, 0, TestBit(3, Register(A)))  // 0x5F
  }

  /** The entries for BIT 4 to 7: opcodes 0x60 to 0x7F. */
  function BitEntriesHigh(opcode: Opcode): ExtendedDescriptor
    requires 0x60 <= opcode < 0x80
  {
    match opcode
    case 0x60 => ExtendedDescriptor(8, 0, TestBit(4, Register(B)))
    case 0x61 => ExtendedDescriptor(8, 0, TestBit(4, Register(C)))
    case 0x62 => ExtendedDescriptor(8, 0, TestBit(4, Register(D)))
    case 0x63 => ExtendedDescriptor(8, 0, TestBit(4, Register(E)))
    case 0x64 => ExtendedDescriptor(8, 0, TestBit(4, Register(H)))
    case 0x65 => ExtendedDescriptor(8, 0, TestBit(4, Register(L)))
    case 0x66 => ExtendedDescriptor(16, 0, TestBit(4, FromMemory(H, L)))
    case 0x67 => ExtendedDescriptor(8, 0, TestBit(4, Register(A)))
    case 0x68 => ExtendedDescriptor(8, 0, TestBit(5, Register(B)))
    case 0x69 => ExtendedDescriptor(8, 0, TestBit(5, Register(C)))
    case 0x6A => ExtendedDescriptor(8, 0, TestBit(5, Register(D)))
    case 0x6B => ExtendedDescriptor(8, 0, TestBit(5, Register(E)))
    case 0x6C => ExtendedDescriptor(8, 0, TestBit(5, Register(H)))
    case 0x6D => ExtendedDescriptor(8, 0, TestBit(5, Register(L)))
    case 0x6E => ExtendedDescriptor(16, 0, TestBit(5, FromMemory(H, L)))
    case 0x6F => ExtendedDescriptor(8, 0, TestBit(5, Register(A)))
    case 0x70 => ExtendedDescriptor(8, 0, TestBit(6, Register(B)))
    case 0x71 => ExtendedDescriptor(8, 0, TestBit(6, Register(C)))
    case 0x72 => ExtendedDescriptor(8, 0, TestBit(6, Register(D)))
    case 0x73 => ExtendedDescriptor(8, 0, TestBit(6, Register(E)))
    case 0x74 => ExtendedDescriptor(8, 0, TestBit(6, Register(H)))
    case 0x75 => ExtendedDescriptor(8, 0, TestBit(6, Register(L)))
    case 0x76 => ExtendedDescriptor(16, 0, TestBit(6, FromMemory(H, L)))
    case 0x77 => ExtendedDescriptor(8, 0, TestBit(6, Register(A)))
    case 0x78 => ExtendedDescriptor(8, 0, TestBit(7, Register(B)))
    case 0x79 => ExtendedDescriptor(8, 0, TestBit(7, Register(C)))
    case 0x7A => ExtendedDescriptor(8, 0, TestBit(7, Register(D)))
    case 0x7B => ExtendedDescriptor(8, 0, TestBit(7, Register(E)))
    case 0x7C => ExtendedDescriptor(8, 0, TestBit(7, Register(H)))
    case 0x7D => ExtendedDescriptor(8, 0, TestBit(7, Register(L)))
    case 0x7E => ExtendedDescriptor(16, 0, TestBit(7, FromMemory(H, L)))
    case _ => ExtendedDescriptor(8, 0, TestBit(7, Register(A)))  // 0x7F
  }

  /** The entries for RES 0 to 3: opcodes 0x80 to 0x9F. */
  function ResetEntriesLow(opcode: Opcode): ExtendedDescriptor
    requires 0x80 <= opcode < 0xA0
  {
    match opcode
    case 0x80 => ExtendedDescriptor(8, 0, ResetBit(0, Register(B)))
    case 0x81 => ExtendedDescriptor(8, 0, ResetBit(0, Register(C)))
    case 0x82 => ExtendedDescriptor(8, 0, ResetBit(0, Register(D)))
    case 0x83 => ExtendedDescriptor(8, 0, ResetBit(0, Register(E)))
    case 0x84 => ExtendedDescriptor(8, 0, ResetBit(0, Register(H)))
    case 0x85 => ExtendedDescriptor(8, 0, ResetBit(0, Register(L)))
    case 0x86 => ExtendedDescriptor(16, 0, ResetBit(0, FromMemory(H, L)))
    case 0x87 => ExtendedDescriptor(8, 1, ResetBit(0, Register(A)))
    case 0x88 => ExtendedDescriptor(8, 0, ResetBit(1, Register(B)))
    case 0x89 => ExtendedDescriptor(8, 0, ResetBit(1, Register(C)))
    case 0x8A => ExtendedDescriptor(8, 0, ResetBit(1, Register(D)))
    case 0x8B => ExtendedDescriptor(8, 0, ResetBit(1, Register(E)))
    case 0x8C => ExtendedDescriptor(8, 0, ResetBit(1, Register(H)))
    case 0x8D => ExtendedDescriptor(8, 0, ResetBit(1, Register(L)))
    case 0x8E => ExtendedDescriptor(16, 0, ResetBit(1, FromMemory(H, L)))
    case 0x8F => ExtendedDescriptor(8, 0, ResetBit(1, Register(A)))
    case 0x90 => ExtendedDescriptor(8, 0, ResetBit(2, Register(B)))
    case 0x91 => ExtendedDescriptor(8, 0, ResetBit(2, Register(C)))
    case 0x92 => ExtendedDescriptor(8, 0, ResetBit(2, Register(D)))
    case 0x93 => ExtendedDescriptor(8, 0, ResetBit(2, Register(E)))
    case 0x94 => ExtendedDescriptor(8, 0, ResetBit(2, Register(H)))
    case 0x95 => ExtendedDescriptor(8, 0, ResetBit(2, Register(L)))
    case 0x96 => ExtendedDescriptor(16, 0, ResetBit(2, FromMemory(H, L)))
    case 0x97 => ExtendedDescriptor(8, 1, ResetBit(2, Register(A)))
    case 0x98 => ExtendedDescriptor(8, 0, ResetBit(3, Register(B)))
    case 0x99 => ExtendedDescriptor(8, 0, ResetBit(3, Register(C)))
    case 0x9A => ExtendedDescriptor(8, 0, ResetBit(3, Register(D)))
    case 0x9B => ExtendedDescriptor(8, 0, ResetBit(3, Register(E)))
    case 0x9C => ExtendedDescriptor(8, 0, ResetBit(3, Register(H)))
    case 0x9D => ExtendedDescriptor(8, 0, ResetBit(3, Register(L)))
    case 0x9E => ExtendedDescriptor(16, 0, ResetBit(3, FromMemory(H, L)))
    case _ => ExtendedDescriptor(8, 0, ResetBit(3, Register(A)))  // 0x9F
  }

  /** The entries for RES 4 to 7: opcodes 0xA0 to 0xBF. */
  function ResetEntriesHigh(opcode: Opcode): ExtendedDescriptor
    requires 0xA0 <= opcode < 0xC0
  {
    match opcode
    case 0xA0 => ExtendedDescriptor(8, 0, ResetBit(4, Register(B)))
    case 0xA1 => ExtendedDescriptor(8, 0, ResetBit(4, Register(C)))
    case 0xA2 => ExtendedDescriptor(8, 0, ResetBit(4, Register(D)))
    case 0xA3 => ExtendedDescriptor(8, 0, ResetBit(4, Register(E)))
    case 0xA4 => ExtendedDescriptor(8, 0, ResetBit(4, Register(H)))
    case 0xA5 => ExtendedDescriptor(8, 0, ResetBit(4, Register(L)))
    case 0xA6 => ExtendedDescriptor(16, 0, ResetBit(4, FromMemory(H, L)))
    case 0xA7 => ExtendedDescriptor(8, 1, ResetBit(4, Register(A)))
    case 0xA8 => ExtendedDescriptor(8, 0, ResetBit(5, Register(B)))
    case 0xA9 => ExtendedDescriptor(8, 0, ResetBit(5, Register(C)))
    case 0xAA => ExtendedDescriptor(8, 0, ResetBit(5, Register(D)))
    case 0xAB => ExtendedDescriptor(8, 0, ResetBit(5, Register(E)))
    case 0xAC => ExtendedDescriptor(8, 0, ResetBit(5, Register(H)))
    case 0xAD => ExtendedDescriptor(8, 0, ResetBit(5, Register(L)))
    case 0xAE => ExtendedDescriptor(16, 0, ResetBit(5, FromMemory(H, L)))
    case 0xAF => ExtendedDescriptor(8, 0, ResetBit(5, Register(A)))
    case 0xB0 => ExtendedDescriptor(8, 0, ResetBit(6, Register(B)))
    case 0xB1 => ExtendedDescriptor(8, 0, ResetBit(6, Register(C)))
    case 0xB2 => ExtendedDescriptor(8, 0, ResetBit(6, Register(D)))
    case 0xB3 => ExtendedDescriptor(8, 0, ResetBit(6, Register(E)))
    case 0xB4 => ExtendedDescriptor(8, 0, ResetBit(6, Register(H)))
    case 0xB5 => ExtendedDescriptor(8, 0, ResetBit(6, Register(L)))
    case 0xB6 => ExtendedDescriptor(16, 0, ResetBit(6, FromMemory(H, L)))
    case 0xB7 => ExtendedDescriptor(8, 1, ResetBit(6, Register(A)))
    case 0xB8 => ExtendedDescriptor(8, 0, ResetBit(7, Register(B)))
    case 0xB9 => ExtendedDescriptor(8, 0, ResetBit(7, Register(C)))
    case 0xBA => ExtendedDescriptor(8, 0, ResetBit(7, Register(D)))
    case 0xBB => ExtendedDescriptor(8, 0, ResetBit(7, Register(E)))
    case 0xBC => ExtendedDescriptor(8, 0, ResetBit(7, Register(H)))
    case 0xBD => ExtendedDescriptor(8, 0, ResetBit(7, Register(L)))
    case 0xBE => ExtendedDescriptor(16, 0, ResetBit(7, FromMemory(H, L)))
    case _ => ExtendedDescriptor(8, 0, ResetBit(7, Register(A)))  // 0xBF
  }

  /** The entries for SET 0 to 3: opcodes 0xC0 to 0xDF. */
  function SetEntriesLow(opcode: Opcode): ExtendedDescriptor
    requires 0xC0 <= opcode < 0xE0
  {
    match opcode
    case 0xC0 => ExtendedDescriptor(8, 0, SetBit(0, Register(B)))
    case 0xC1 => ExtendedDescriptor(8, 0, SetBit(0, Register(C)))
    case 0xC2 => ExtendedDescriptor(8, 0, SetBit(0, Register(D)))
    case 0xC3 => ExtendedDescriptor(8, 0, SetBit(0, Register(E)))
    case 0xC4 => ExtendedDescriptor(8, 0, SetBit(0, Register(H)))
    case 0xC5 => ExtendedDescriptor(8, 0, SetBit(0, Register(L)))
    case 0xC6 => ExtendedDescriptor(16, 0, SetBit(0, FromMemory(H, L)))
    case 0xC7 => ExtendedDescriptor(8, 0, SetBit(0, Register(A)))
    case 0xC8 => ExtendedDescriptor(8, 0, SetBit(1, Register(B)))
    case 0xC9 => ExtendedDescriptor(8, 0, SetBit(1, Register(C)))
    case 0xCA => ExtendedDescriptor(8, 0, SetBit(1, Register(D)))
    case 0xCB => ExtendedDescriptor(8, 0, SetBit(1, Register(E)))
    case 0xCC => ExtendedDescriptor(8, 0, SetBit(1, Register(H)))
    case 0xCD => ExtendedDescriptor(8, 0, SetBit(1, Register(L)))
    case 0xCE => ExtendedDescriptor(16, 0, SetBit(1, FromMemory(H, L)))
    case 0xCF => ExtendedDescriptor(8, 0, SetBit(1, Register(A)))
    case 0xD0 => ExtendedDescriptor(8, 0, SetBit(2, Register(B)))
    case 0xD1 => ExtendedDescriptor(8, 0, SetBit(2, Register(C)))
    case 0xD2 => ExtendedDescriptor(8, 0, SetBit(2, Register(D)))
    case 0xD3 => ExtendedDescriptor(8, 0, SetBit(2, Register(E)))
    case 0xD4 => ExtendedDescriptor(8, 0, SetBit(2, Register(H)))
    case 0xD5 => ExtendedDescriptor(8, 0, SetBit(2, Register(L)))
    case 0xD6 => ExtendedDescriptor(16, 0, SetBit(2, FromMemory(H, L)))
    case 0xD7 => ExtendedDescriptor(8, 0, SetBit(2, Register(A)))
    case 0xD8 => ExtendedDescriptor(8, 0, SetBit(3, Register(B)))
    case 0xD9 => ExtendedDescriptor(8, 0, SetBit(3, Register(C)))
    case 0xDA => ExtendedDescriptor(8, 0, SetBit(3, Register(D)))
    case 0xDB => ExtendedDescriptor(8, 0, SetBit(3, Register(E)))
    case 0xDC => ExtendedDescriptor(8, 0, SetBit(3, Register(H)))
    case 0xDD => ExtendedDescriptor(8, 0, SetBit(3, Register(L)))
    case 0xDE => ExtendedDescriptor(16, 0, SetBit(3, FromMemory(H, L)))
    case _ => ExtendedDescriptor(8, 0, SetBit(3, Register(A)))  // 0xDF
  }

  /** The entries for SET 4 to 7: opcodes 0xE0 to 0xFF. */
  function SetEntriesHigh(opcode: Opcode): ExtendedDescriptor
    requires 0xE0 <= opcode < 0x100
  {
    match opcode
    case 0xE0 => ExtendedDescriptor(8, 0, SetBit(4, Register(B)))
    case 0xE1 => ExtendedDescriptor(8, 0, SetBit(4, Register(C)))
    case 0xE2 => ExtendedDescriptor(8, 0, SetBit(4, Register(D)))
    case 0xE3 => ExtendedDescriptor(8, 0, SetBit(4, Register(E)))
    case 0xE4 => ExtendedDescriptor(8, 0, SetBit(4, Register(H)))
    case 0xE5 => ExtendedDescriptor(8, 0, SetBit(4, Register(L)))
    case 0xE6 => ExtendedDescriptor(16, 0, SetBit(4, FromMemory(H, L)))
    case 0xE7 => ExtendedDescriptor(8, 0, SetBit(4, Register(A)))
    case 0xE8 => ExtendedDescriptor(8, 0, SetBit(5, Register(B)))
    case 0xE9 => ExtendedDescriptor(8, 0, SetBit(5, Register(C)))
    case 0xEA => ExtendedDescriptor(8, 0, SetBit(5, Register(D)))
    case 0xEB => ExtendedDescriptor(8, 0, SetBit(5, Register(E)))
    case 0xEC => ExtendedDescriptor(8, 0, SetBit(5, Register(H)))
    case 0xED => ExtendedDescriptor(8, 0, SetBit(5, Register(L)))
    case 0xEE => ExtendedDescriptor(16, 0, SetBit(5, FromMemory(H, L)))
    case 0xEF => ExtendedDescriptor(8, 0, SetBit(5, Register(A)))
    case 0xF0 => ExtendedDescriptor(8, 0, SetBit(6, Register(B)))
    case 0xF1 => ExtendedDescriptor(8, 0, SetBit(6, Register(C)))
    case 0xF2 => ExtendedDescriptor(8, 0, SetBit(6, Register(D)))
    case 0xF3 => ExtendedDescriptor(8, 0, SetBit(6, Register(E)))
    case 0xF4 => ExtendedDescriptor(8, 0, SetBit(6, Register(H)))
    case 0xF5 => ExtendedDescriptor(8, 0, SetBit(6, Register(L)))
    case 0xF6 => ExtendedDescriptor(16, 0, SetBit(6, FromMemory(H, L)))
    case 0xF7 => ExtendedDescriptor(8, 0, SetBit(6, Register(A)))
    case 0xF8 => ExtendedDescriptor(8, 0, SetBit(7, Register(B)))
    case 0xF9 => ExtendedDescriptor(8, 0, SetBit(7, Register(C)))
    case 0xFA => ExtendedDescriptor(8, 0, SetBit(7, Register(D)))
    case 0xFB => ExtendedDescriptor(8, 0, SetBit(7, Register(E)))
    case 0xFC => ExtendedDescriptor(8, 0, SetBit(7, Register(H)))
    case 0xFD => ExtendedDescriptor(8, 0, SetBit(7, Register(L)))
    case 0xFE => ExtendedDescriptor(16, 0, SetBit(7, FromMemory(H, L)))
    case _ => ExtendedDescriptor(8, 0, SetBit(7, Register(A)))  // 0xFF
  }

  /** The extended table: all 256 opcodes, each with its descriptor. */
  function CreateExtendedInstructions(): (table: map<Opcode, ExtendedDescriptor>)
    ensures forall opcode: Opcode :: opcode in table
  {
    map opcode: Opcode :: ExtendedDecode(opcode)
  }

  // ---------------------------------------------------------------------------------------------
  // The regular layout of the table

  /** The operand column of an opcode: B, C, D, E, H, L, (HL), A. */
  function ColumnOperand(opcode: Opcode): Operand
  {
    match opcode % 8
    case 0 => Register(B)
    case 1 => Register(C)
    case 2 => Register(D)
    case 3 => Register(E)
    case 4 => Register(H)
    case 5 => Register(L)
    case 6 => FromMemory(H, L)
    case _ => Register(A)
  }

  /** The rotate or shift of a row of the first quarter of the table. */
  function RowShift(row: int): ShiftOp
  {
    match row
    case 0 => Rlc
    case 1 => Rrc
    case 2 => Rl
    case 3 => Rr
    case 4 => Sla
    case 5 => Sra
    case 6 => Swap
    case _ => Srl
  }

  /**
    * The instruction an opcode names, computed from its bits: rows of eight opcodes, one per
    * operation or bit number, the low three bits choosing the operand.
    */
  function Layout(opcode: Opcode): ExtendedInstruction
  {
    var operand := ColumnOperand(opcode);
    if opcode < 0x40 then Shift(RowShift(opcode / 8), operand)
    else if opcode < 0x80 then TestBit((opcode - 0x40) / 8, operand)
    else if opcode < 0xC0 then ResetBit((opcode - 0x80) / 8, operand)
    else SetBit((opcode - 0xC0) / 8, operand)
  }

  /**
    * Every entry names the instruction its bits give; register forms cost 8 cycles and (HL)
    * forms 16, except 0x1E (RR (HL)) at 8; 0x87, 0x97, 0xA7 and 0xB7 declare one parameter byte
    * and every other entry none.
    */
  lemma ExtendedTableLayout(opcode: Opcode)
    ensures ExtendedDecode(opcode).instruction == Layout(opcode)
    ensures ExtendedDecode(opcode).cycles == if opcode % 8 == 6 && opcode != 0x1E then 16 else 8
    ensures ExtendedDecode(opcode).paramBytes == if opcode == 0x87 || opcode == 0x97 || opcode == 0xA7 || opcode == 0xB7 then 1 else 0
  {
    if opcode < 0x20 {
      LayoutOfBlock0(opcode);
    } else if opcode < 0x40 {
      LayoutOfBlock1(opcode);
    } else if opcode < 0x60 {
      LayoutOfBlock2(opcode);
    } else if opcode < 0x80 {
      LayoutOfBlock3(opcode);
    } else if opcode < 0xA0 {
      LayoutOfBlock4(opcode);
    } else if opcode < 0xC0 {
      LayoutOfBlock5(opcode);
    } else if opcode < 0xE0 {
      LayoutOfBlock6(opcode);
    } else {
      LayoutOfBlock7(opcode);
    }
  }

  /** The layout, read off the table one opcode at a time, for opcodes 0x00 to 0x1F; likewise below. */
  lemma LayoutOfBlock0(opcode: Opcode)
    requires opcode < 0x20
    ensures ExtendedDecode(opcode).instruction == Layout(opcode)
    ensures ExtendedDecode(opcode).cycles == if opcode % 8 == 6 && opcode != 0x1E then 16 else 8
    ensures ExtendedDecode(opcode).paramBytes == if opcode == 0x87 || opcode == 0x97 || opcode == 0xA7 || opcode == 0xB7 then 1 else 0
  {
    match opcode
    case 0x00 => case 0x01 => case 0x02 => case 0x03 => case 0x04 => case 0x05 => case 0x06 => case 0x07 =>
    case 0x08 => case 0x09 => case 0x0A => case 0x0B => case 0x0C => case 0x0D => case 0x0E => case 0x0F =>
    case 0x10 => case 0x11 => case 0x12 => case 0x13 => case 0x14 => case 0x15 => case 0x16 => case 0x17 =>
    case 0x18 => case 0x19 => case 0x1A => case 0x1B => case 0x1C => case 0x1D => case 0x1E =>
    case _ =>
  }

  lemma LayoutOfBlock1(opcode: Opcode)
    requires 0x20 <= opcode < 0x40
    ensures ExtendedDecode(opcode).instruction == Layout(opcode)
    ensures ExtendedDecode(opcode).cycles == if opcode % 8 == 6 && opcode != 0x1E then 16 else 8
    ensures ExtendedDecode(opcode).paramBytes == if opcode == 0x87 || opcode == 0x97 || opcode == 0xA7 || opcode == 0xB7 then 1 else 0
  {
    match opcode
    case 0x20 => case 0x21 => case 0x22 => case 0x23 => case 0x24 => case 0x25 => case 0x26 => case 0x27 =>
    case 0x28 => case 0x29 => case 0x2A => case 0x2B => case 0x2C => case 0x2D => case 0x2E => case 0x2F =>
    case 0x30 => case 0x31 => case 0x32 => case 0x33 => case 0x34 => case 0x35 => case 0x36 => case 0x37 =>
    case 0x38 => case 0x39 => case 0x3A => case 0x3B => case 0x3C => case 0x3D => case 0x3E =>
    case _ =>
  }

  lemma LayoutOfBlock2(opcode: Opcode)
    requires 0x40 <= opcode < 0x60
    ensures ExtendedDecode(opcode).instruction == Layout(opcode)
    ensures ExtendedDecode(opcode).cycles == if opcode % 8 == 6 && opcode != 0x1E then 16 else 8
    ensures ExtendedDecode(opcode).paramBytes == if opcode == 0x87 || opcode == 0x97 || opcode == 0xA7 || opcode == 0xB7 then 1 else 0
  {
    match opcode
    case 0x40 => case 0x41 => case 0x42 => case 0x43 => case 0x44 => case 0x45 => case 0x46 => case 0x47 =>
    case 0x48 => case 0x49 => case 0x4A => case 0x4B => case 0x4C => case 0x4D => case 0x4E => case 0x4F =>
    case 0x50 => case 0x51 => case 0x52 => case 0x53 => case 0x54 => case 0x55 => case 0x56 => case 0x57 =>
    case 0x58 => case 0x59 => case 0x5A => case 0x5B => case 0x5C => case 0x5D => case 0x5E =>
    case _ =>
  }

  lemma LayoutOfBlock3(opcode: Opcode)
    requires 0x60 <= opcode < 0x80
    ensures ExtendedDecode(opcode).instruction == Layout(opcode)
    ensures ExtendedDecode(opcode).cycles == if opcode % 8 == 6 && opcode != 0x1E then 16 else 8
    ensures ExtendedDecode(opcode).paramBytes == if opcode == 0x87 || opcode == 0x97 || opcode == 0xA7 || opcode == 0xB7 then 1 else 0
  {
    match opcode
    case 0x60 => case 0x61 => case 0x62 => case 0x63 => case 0x64 => case 0x65 => case 0x66 => case 0x67 =>
    case 0x68 => case 0x69 => case 0x6A => case 0x6B => case 0x6C => case 0x6D => case 0x6E => case 0x6F =>
    case 0x70 => case 0x71 => case 0x72 => case 0x73 => case 0x74 => case 0x75 => case 0x76 => case 0x77 =>
    case 0x78 => case 0x79 => case 0x7A => case 0x7B => case 0x7C => case 0x7D => case 0x7E =>
    case _ =>
  }

  lemma LayoutOfBlock4(opcode: Opcode)
    requires 0x80 <= opcode < 0xA0
    ensures ExtendedDecode(opcode).instruction == Layout(opcode)
    ensures ExtendedDecode(opcode).cycles == if opcode % 8 == 6 && opcode != 0x1E then 16 else 8
    ensures ExtendedDecode(opcode).paramBytes == if opcode == 0x87 || opcode == 0x97 || opcode == 0xA7 || opcode == 0xB7 then 1 else 0
  {
    match opcode
    case 0x80 => case 0x81 => case 0x82 => case 0x83 => case 0x84 => case 0x85 => case 0x86 => case 0x87 =>
    case 0x88 => case 0x89 => case 0x8A => case 0x8B => case 0x8C => case 0x8D => case 0x8E => case 0x8F =>
    case 0x90 => case 0x91 => case 0x92 => case 0x93 => case 0x94 => case 0x95 => case 0x96 => case 0x97 =>
    case 0x98 => case 0x99 => case 0x9A => case 0x9B => case 0x9C => case 0x9D => case 0x9E =>
    case _ =>
  }

  lemma LayoutOfBlock5(opcode: Opcode)
    requires 0xA0 <= opcode < 0xC0
    ensures ExtendedDecode(opcode).instruction == Layout(opcode)
    ensures ExtendedDecode(opcode).cycles == if opcode % 8 == 6 && opcode != 0x1E then 16 else 8
    ensures ExtendedDecode(opcode).paramBytes == if opcode == 0x87 || opcode == 0x97 || opcode == 0xA7 || opcode == 0xB7 then 1 else 0
  {
    match opcode
    case 0xA0 => case 0xA1 => case 0xA2 => case 0xA3 => case 0xA4 => case 0xA5 => case 0xA6 => case 0xA7 =>
    case 0xA8 => case 0xA9 => case 0xAA => case 0xAB => case 0xAC => case 0xAD => case 0xAE => case 0xAF =>
    case 0xB0 => case 0xB1 => case 0xB2 => case 0xB3 => case 0xB4 => case 0xB5 => case 0xB6 => case 0xB7 =>
    case 0xB8 => case 0xB9 => case 0xBA => case 0xBB => case 0xBC => case 0xBD => case 0xBE =>
    case _ =>
  }

  lemma LayoutOfBlock6(opcode: Opcode)
    requires 0xC0 <= opcode < 0xE0
    ensures ExtendedDecode(opcode).instruction == Layout(opcode)
    ensures ExtendedDecode(opcode).cycles == if opcode % 8 == 6 && opcode != 0x1E then 16 else 8
    ensures ExtendedDecode(opcode).paramBytes == if opcode == 0x87 || opcode == 0x97 || opcode == 0xA7 || opcode == 0xB7 then 1 else 0
  {
    match opcode
    case 0xC0 => case 0xC1 => case 0xC2 => case 0xC3 => case 0xC4 => case 0xC5 => case 0xC6 => case 0xC7 =>
    case 0xC8 => case 0xC9 => case 0xCA => case 0xCB => case 0xCC => case 0xCD => case 0xCE => case 0xCF =>
    case 0xD0 => case 0xD1 => case 0xD2 => case 0xD3 => case 0xD4 => case 0xD5 => case 0xD6 => case 0xD7 =>
    case 0xD8 => case 0xD9 => case 0xDA => case 0xDB => case 0xDC => case 0xDD => case 0xDE =>
    case _ =>
  }

  lemma LayoutOfBlock7(opcode: Opcode)
    requires 0xE0 <= opcode < 0x100
    ensures ExtendedDecode(opcode).instruction == Layout(opcode)
    ensures ExtendedDecode(opcode).cycles == if opcode % 8 == 6 && opcode != 0x1E then 16 else 8
    ensures ExtendedDecode(opcode).paramBytes == if opcode == 0x87 || opcode == 0x97 || opcode == 0xA7 || opcode == 0xB7 then 1 else 0
  {
    match opcode
    case 0xE0 => case 0xE1 => case 0xE2 => case 0xE3 => case 0xE4 => case 0xE5 => case 0xE6 => case 0xE7 =>
    case 0xE8 => case 0xE9 => case 0xEA => case 0xEB => case 0xEC => case 0xED => case 0xEE => case 0xEF =>
    case 0xF0 => case 0xF1 => case 0xF2 => case 0xF3 => case 0xF4 => case 0xF5 => case 0xF6 => case 0xF7 =>
    case 0xF8 => case 0xF9 => case 0xFA => case 0xFB => case 0xFC => case 0xFD => case 0xFE =>
    case _ =>
  }

  // ---------------------------------------------------------------------------------------------
  // The byte arithmetic of each operation

  /**
    * The new operand of a rotate, shift or SWAP, as the source computes it. RL and RR take the
    * incoming bit from F bit 0; RRC takes it from bit 4 of the operand.
    */
  function ShiftValue(op: ShiftOp, v: bv8, f: bv8): bv8
  {
    match op
    case Rlc => (v << 1) + (if v & 0x80 == 0x80 then 0x01 else 0)
    case Rl => (v << 1) + (if f & 0x01 == 0x01 then 0x01 else 0)
    case Rrc => (v >> 1) + (if v & 0x10 == 0x10 then 0x80 else 0)
    case Rr => (v >> 1) + (if f & 0x01 == 0x01 then 0x80 else 0)
    case Sla => v << 1
    case Sra => (v >> 1) + (v | 0x80)
    case Srl => v >> 1
    case Swap => SwapNibbles(v)
  }

  function SwapNibbles(v: bv8): bv8
  {
    ((v & 0xF0) >> 4) + ((v & 0x0F) << 4)
  }

  /**
    * The new F of a rotate, shift or SWAP: 0x10 from bit 7 (left rotates and SLA) or bit 4
    * (right rotates and shifts) of the operand, and 0x80 when SLA, SRA or SRL leave 0; SWAP sets
    * 0x10 when it leaves 0.
    */
  function ShiftFlags(op: ShiftOp, v: bv8, f: bv8): bv8
  {
    var zero := ShiftValue(op, v, f) == 0;
    match op
    case Rlc | Rl => if v & 0x80 == 0x80 then 0x10 else 0
    case Rrc | Rr => if v & 0x10 == 0x10 then 0x10 else 0
    case Sla => (if v & 0x80 == 0x80 then 0x10 else 0) + (if zero then 0x80 else 0)
    case Sra | Srl => (if zero then 0x80 else 0) + (if v & 0x10 == 0x10 then 0x10 else 0)
    case Swap => if zero then 0x10 else 0
  }

  /** Go's `byte(1 >> n)`: the byte 1 shifted right by the bit number; a shift by 8 or more leaves 0. */
  function Mask(n: nat): bv8
  {
    if n >= 8 then 0 else (1 as bv8) >> n
  }

  /** The mask is bit 0 for bit number 0 and empty for every other bit number. */
  lemma MaskIsBitZero(n: nat)
    ensures n == 0 ==> Mask(n) == 1
    ensures n >= 1 ==> Mask(n) == 0
  {
  }

  /** The F of BIT: 0x20, plus 0x80 when the masked operand is 0. */
  function BitFlags(v: bv8, n: nat): bv8
  {
    0x20 + (if v & Mask(n) == 0 then 0x80 else 0)
  }

  function SetResult(v: bv8, n: nat): bv8 { v | Mask(n) }

  /** The complement of the mask, which RES ANDs with the operand. */
  function ClearMask(n: nat): bv8 { Mask(n) ^ 0xFF }

  function ResetResult(v: bv8, n: nat): bv8 { v & ClearMask(n) }

  // ---------------------------------------------------------------------------------------------
  // What the operations compute

  /** SWAP exchanges the nibbles; swapping twice restores the operand; the flag tests for 0. */
  lemma SwapExchangesNibbles(v: bv8, f: bv8)
    ensures ShiftValue(Swap, v, f) as int == (v as int % 0x10) * 0x10 + v as int / 0x10
    ensures ShiftValue(Swap, ShiftValue(Swap, v, f), f) == v
    ensures ShiftFlags(Swap, v, f) == if v == 0 then 0x10 else 0
  {
    SwapNibblesValue(v);
    SwapNibblesTwice(v);
  }

  lemma SwapNibblesValue(v: bv8)
    ensures SwapNibbles(v) as int == (v as int % 0x10) * 0x10 + v as int / 0x10
  {
    var high := (v & 0xF0) >> 4;
    var low := (v & 0x0F) << 4;
    assert high as int == v as int / 0x10;
    assert low as int == (v as int % 0x10) * 0x10;
    assert SwapNibbles(v) == low | high;
    assert (low | high) as int == low as int + high as int by {
      assert high < 0x10 && low & 0x0F == 0;
    }
  }

  lemma SwapNibblesTwice(v: bv8)
    ensures SwapNibbles(SwapNibbles(v)) == v
    ensures SwapNibbles(v) == 0 <==> v == 0
  {
  }

  /** RLC, RL and SLA shift left modulo 256 and fill bit 0 from bit 7, from F bit 0, or with 0. */
  lemma LeftShifts(v: bv8, f: bv8)
    ensures ShiftValue(Rlc, v, f) as int == (v as int * 2) % 0x100 + v as int / 0x80
    ensures ShiftValue(Rl, v, f) as int == (v as int * 2) % 0x100 + (f & 0x01) as int
    ensures ShiftValue(Sla, v, f) as int == (v as int * 2) % 0x100
  {
    ShiftLeftOne(v);
  }

  lemma ShiftLeftOne(v: bv8)
    ensures (v << 1) as int == (v as int * 2) % 0x100
    ensures (v << 1) & 0x01 == 0
  {
  }

  /** The flags of the left shifts: 0x10 exactly when bit 7 was set, and for SLA 0x80 on a zero result. */
  lemma LeftShiftFlags(v: bv8, f: bv8)
    ensures ShiftFlags(Rlc, v, f) == ShiftFlags(Rl, v, f) == if v >= 0x80 then 0x10 else 0
    ensures ShiftFlags(Sla, v, f) == (if v >= 0x80 then 0x10 else 0) + (if v & 0x7F == 0 then 0x80 else 0)
  {
  }

  /** RRC and RR shift right and set bit 7 from bit 4 of the operand or from F bit 0; SRL shifts in 0. */
  lemma RightShifts(v: bv8, f: bv8)
    ensures ShiftValue(Rrc, v, f) as int == v as int / 2 + (if v & 0x10 != 0 then 0x80 else 0)
    ensures ShiftValue(Rr, v, f) as int == v as int / 2 + (if f & 0x01 != 0 then 0x80 else 0)
    ensures ShiftValue(Srl, v, f) as int == v as int / 2
  {
    ShiftRightOne(v);
    AddBitSeven(v >> 1);
  }

  lemma ShiftRightOne(v: bv8)
    ensures (v >> 1) as int == v as int / 2
    ensures v >> 1 < 0x80
  {
  }

  /** Adding 0x80 to a byte below 0x80 cannot wrap. */
  lemma AddBitSeven(x: bv8)
    requires x < 0x80
    ensures (x + 0x80) as int == x as int + 0x80
  {
  }

  /**
    * SRA adds the operand with bit 7 set to the operand shifted right, so it is not the
    * sign-preserving shift of its name: a 0 operand gives 0x80 and F 0, 0x02 gives 0x83 and 0x80 gives 0xC0.
    */
  lemma SraAddsOperand(f: bv8)
    ensures ShiftValue(Sra, 0x00, f) == 0x80 && ShiftFlags(Sra, 0x00, f) == 0
    ensures ShiftValue(Sra, 0x02, f) == 0x83
    ensures ShiftValue(Sra, 0x80, f) == 0xC0
  {
  }

  /** The flags of the right shifts: 0x10 exactly when bit 4 was set, and for SRL and SRA 0x80 on a zero result. */
  lemma RightShiftFlags(v: bv8, f: bv8)
    ensures ShiftFlags(Rrc, v, f) == ShiftFlags(Rr, v, f) == if v & 0x10 != 0 then 0x10 else 0
    ensures ShiftFlags(Srl, v, f) == (if v & 0x10 != 0 then 0x10 else 0) + (if v < 2 then 0x80 else 0)
    ensures ShiftFlags(Sra, v, f) ==
      (if ShiftValue(Sra, v, f) == 0 then 0x80 else 0) + (if v & 0x10 != 0 then 0x10 else 0)
  {
  }

  /** RLC `n` times in a row (F plays no part in RLC). */
  function RotateLeftTimes(v: bv8, f: bv8, n: nat): bv8
    decreases n
  {
    if n == 0 then v else RotateLeftTimes(ShiftValue(Rlc, v, f), f, n - 1)
  }

  /** RLC is a true rotation: it moves bit 7 into bit 0. */
  lemma RlcRotates(v: bv8, f: bv8)
    ensures ShiftValue(Rlc, v, f) == (v << 1) | (v >> 7)
  {
  }

  /** `m + n` RLCs are `m` RLCs followed by `n` more. */
  lemma {:induction false} RotateSplits(v: bv8, f: bv8, m: nat, n: nat)
    ensures RotateLeftTimes(v, f, m + n) == RotateLeftTimes(RotateLeftTimes(v, f, m), f, n)
    decreases m
  {
    if m > 0 {
      RotateSplits(ShiftValue(Rlc, v, f), f, m - 1, n);
    }
  }

  /** Four RLCs exchange the nibbles, as one SWAP does. */
  lemma {:induction false} RlcFourTimes(v: bv8, f: bv8)
    ensures RotateLeftTimes(v, f, 4) == ShiftValue(Swap, v, f)
  {
    var w1 := ShiftValue(Rlc, v, f);
    var w2 := ShiftValue(Rlc, w1, f);
    var w3 := ShiftValue(Rlc, w2, f);
    var w4 := ShiftValue(Rlc, w3, f);
    assert RotateLeftTimes(v, f, 4) == RotateLeftTimes(w3, f, 1) == w4;
    RlcRotates(v, f);
    RlcRotates(w1, f);
    RlcRotates(w2, f);
    RlcRotates(w3, f);
  }

  /** Eight RLCs restore the operand, whatever F holds. */
  lemma {:induction false} RlcEightTimes(v: bv8, f: bv8)
    ensures RotateLeftTimes(v, f, 8) == v
  {
    RlcFourTimes(v, f);
    RlcFourTimes(ShiftValue(Swap, v, f), f);
    SwapNibblesTwice(v);
    RotateSplits(v, f, 4, 4);
  }

  /**
    * RL and RR carry in through F bit 0 but leave their carry in F bit 4, so after any rotate or
    * shift the next RL or RR shifts in 0.
    */
  lemma CarryInIsLost(op: ShiftOp, next: ShiftOp, v: bv8, w: bv8, f: bv8)
    requires next == Rl || next == Rr
    ensures ShiftFlags(op, v, f) & 0x01 == 0
    ensures ShiftValue(next, w, ShiftFlags(op, v, f)) == ShiftValue(next, w, 0)
  {
  }

  /** BIT sets F to 0x20 plus 0x80 when bit 0 of the operand is clear; for bit numbers 1 to 7 always 0xA0. */
  lemma BitTestsOnlyBitZero(v: bv8, n: nat)
    ensures n == 0 ==> BitFlags(v, n) == if v & 0x01 == 0 then 0xA0 else 0x20
    ensures n >= 1 ==> BitFlags(v, n) == 0xA0
  {
    MaskIsBitZero(n);
  }

  /**
    * SET 0 and RES 0 set and clear bit 0; for any other bit number both leave the operand as it
    * is. RES after SET is RES alone, and SET after RES is SET alone.
    */
  lemma SetAndResetBit(v: bv8, n: nat)
    ensures n == 0 ==> SetResult(v, n) == v | 0x01 && ResetResult(v, n) == v & 0xFE
    ensures n >= 1 ==> SetResult(v, n) == v && ResetResult(v, n) == v
    ensures ResetResult(SetResult(v, n), n) == ResetResult(v, n)
    ensures SetResult(ResetResult(v, n), n) == SetResult(v, n)
  {
    MaskIsBitZero(n);
  }

  // ---------------------------------------------------------------------------------------------
  // The effect on the register file and the memory map

  /** The address an (HL) form uses: the pair's value, or 0 when the pair is refused. */
  function OperandAddress(regs: RegisterState, source1: Reg, source2: Reg): Word
  {
    ReadPair(regs, source1, source2).0
  }

  /** The operand's current value; an (HL) form must not read the joypad register. */
  function OperandValue(target: Operand, s: Machine): bv8
    requires s.mem.WellSized()
    requires target.FromMemory? ==> OperandAddress(s.regs, target.source1, target.source2) != JoypadInput
  {
    match target
    case Register(source) => Get(s.regs, source)
    case FromMemory(source1, source2) => Read(s.mem, OperandAddress(s.regs, source1, source2))
  }

  /** The operand after an instruction that writes one. */
  function NewValue(ins: ExtendedInstruction, v: bv8, f: bv8): bv8
    requires !ins.TestBit?
  {
    match ins
    case Shift(op, _) => ShiftValue(op, v, f)
    case SetBit(n, _) => SetResult(v, n)
    case ResetBit(n, _) => ResetResult(v, n)
  }

  /**
    * What executing an instruction demands: an (HL) form must not read the joypad register, and
    * its write must not start a DMA from page 0xFF.
    */
  predicate ExtendedReady(ins: ExtendedInstruction, s: Machine)
  {
    && s.mem.WellSized()
    && (ins.target.FromMemory? ==>
          var address := OperandAddress(s.regs, ins.target.source1, ins.target.source2);
          && address != JoypadInput
          && (!ins.TestBit? ==> CanWrite(address, NewValue(ins, Read(s.mem, address), Get(s.regs, F)))))
  }

  /** Stores a new operand: into the register, or at the address of the pair. */
  function Store(s: Machine, target: Operand, value: bv8): (t: Machine)
    requires s.mem.WellSized()
    requires target.FromMemory? ==> CanWrite(OperandAddress(s.regs, target.source1, target.source2), value)
    ensures t.mem.WellSized()
  {
    match target
    case Register(source) => s.(regs := Set(s.regs, source, value))
    case FromMemory(source1, source2) => s.(mem := Write(s.mem, OperandAddress(s.regs, source1, source2), value))
  }

  /** The new registers and memory of one extended instruction; none transfers control. */
  function ExtendedEffect(ins: ExtendedInstruction, s: Machine): (r: (Machine, Address))
    requires ExtendedReady(ins, s)
    ensures r.0.mem.WellSized() && r.1 == NoJump
  {
    var v := OperandValue(ins.target, s);
    var f := Get(s.regs, F);
    match ins
    case Shift(op, target) =>
      var t := Store(s, target, ShiftValue(op, v, f));
      (t.(regs := Set(t.regs, F, ShiftFlags(op, v, f))), NoJump)
    case TestBit(n, _) => (s.(regs := Set(s.regs, F, BitFlags(v, n))), NoJump)
    case SetBit(n, target) => (Store(s, target, SetResult(v, n)), NoJump)
    case ResetBit(n, target) => (Store(s, target, ResetResult(v, n)), NoJump)
  }

  /**
    * The effect of a rotate, shift or SWAP in two steps: the store of the new operand, which the
    * readiness condition allows, then the new F.
    */
  lemma ShiftStoresThenFlags(op: ShiftOp, target: Operand, s: Machine)
    requires ExtendedReady(Shift(op, target), s)
    ensures var v := OperandValue(target, s);
      var value := ShiftValue(op, v, Get(s.regs, F));
      && (target.FromMemory? ==> CanWrite(OperandAddress(s.regs, target.source1, target.source2), value))
      && var t := Store(s, target, value);
      ExtendedEffect(Shift(op, target), s).0 == t.(regs := Set(t.regs, F, ShiftFlags(op, v, Get(s.regs, F))))
  {
  }

  /** The effect of SET or RES: the store of the new operand, which the readiness condition allows. */
  lemma BitStores(ins: ExtendedInstruction, s: Machine)
    requires ExtendedReady(ins, s) && (ins.SetBit? || ins.ResetBit?)
    ensures var value := NewValue(ins, OperandValue(ins.target, s), Get(s.regs, F));
      && (ins.target.FromMemory? ==> CanWrite(OperandAddress(s.regs, ins.target.source1, ins.target.source2), value))
      && ExtendedEffect(ins, s).0 == Store(s, ins.target, value)
  {
  }

  /** The registers an instruction may write: its register operand, and F unless it is SET or RES. */
  function ExtendedTargets(ins: ExtendedInstruction): set<Reg>
  {
    (if ins.target.Register? && !ins.TestBit? then {ins.target.source} else {})
    + (if ins.SetBit? || ins.ResetBit? then {} else {F})
  }

  /**
    * An extended instruction changes no register outside its targets, nor PC or SP; a register
    * form leaves memory alone, and an (HL) form writes only the byte at the address (and F),
    * never the registers it names.
    */
  lemma ExtendedFrame(ins: ExtendedInstruction, s: Machine)
    requires ExtendedReady(ins, s)
    ensures var t := ExtendedEffect(ins, s).0;
      && (forall reg :: reg !in ExtendedTargets(ins) ==> Get(t.regs, reg) == Get(s.regs, reg))
      && t.regs.pc == s.regs.pc && t.regs.sp == s.regs.sp
      && (ins.target.Register? || ins.TestBit? ==> t.mem == s.mem)
  {
  }

  /**
    * An (HL) form that writes stores its new operand at the pair's address, which then reads
    * it back when the address stores verbatim.
    */
  lemma MemoryFormWrites(ins: ExtendedInstruction, s: Machine)
    requires ExtendedReady(ins, s) && ins.target.FromMemory? && !ins.TestBit?
    ensures var address := OperandAddress(s.regs, ins.target.source1, ins.target.source2);
      var t := ExtendedEffect(ins, s).0;
      && t.mem == Write(s.mem, address, NewValue(ins, Read(s.mem, address), Get(s.regs, F)))
      && (StoresVerbatim(address) ==> Read(t.mem, address) == NewValue(ins, Read(s.mem, address), Get(s.regs, F)))
  {
    var address := OperandAddress(s.regs, ins.target.source1, ins.target.source2);
    if StoresVerbatim(address) {
      WriteThenRead(s.mem, address, NewValue(ins, Read(s.mem, address), Get(s.regs, F)));
    }
  }

  // ---------------------------------------------------------------------------------------------
  // Execution on the register file and the memory map it is wired to

  /** Executes one extended instruction: the `Execute` method of its kind. */
  method ExecuteExtended(ins: ExtendedInstruction, regs: Registers) returns (target: Address)
    requires regs.Valid() && ExtendedReady(ins, Snapshot(regs))
    modifies regs, regs.mmu.Repr
    ensures regs.Valid()
    ensures (Snapshot(regs), target) == ExtendedEffect(ins, old(Snapshot(regs)))
  {
    match ins {
      case Shift(op, operand) => ExecuteShift(op, operand, regs);
      case TestBit(n, operand) => ExecuteBit(n, operand, regs);
      case SetBit(n, operand) => ExecuteSet(n, operand, regs);
      case ResetBit(n, operand) => ExecuteReset(n, operand, regs);
    }
    target := NoJump;
  }

  /** Reads the operand: the register, or the byte at the pair's address. */
  method ReadOperand(operand: Operand, regs: Registers) returns (val: bv8)
    requires regs.Valid() && Snapshot(regs).mem.WellSized()
    requires operand.FromMemory? ==>
      OperandAddress(regs.State(), operand.source1, operand.source2) != JoypadInput
    ensures val == OperandValue(operand, Snapshot(regs))
  {
    match operand {
      case Register(source) =>
        val := regs.ReadRegister(source);
      case FromMemory(source1, source2) =>
        var addr, status := regs.ReadRegisterPair(source1, source2);
        val := regs.mmu.ReadAt(addr);
    }
  }

  /** Writes the operand: the register, or the byte at the pair's address. */
  method WriteOperand(operand: Operand, val: bv8, regs: Registers)
    requires regs.Valid() && Snapshot(regs).mem.WellSized()
    requires operand.FromMemory? ==> CanWrite(OperandAddress(regs.State(), operand.source1, operand.source2), val)
    modifies regs, regs.mmu.Repr
    ensures regs.Valid()
    ensures Snapshot(regs) == Store(old(Snapshot(regs)), operand, val)
  {
    match operand {
      case Register(source) =>
        regs.WriteRegister(source, val);
      case FromMemory(source1, source2) =>
        var addr, status := regs.ReadRegisterPair(source1, source2);
        regs.mmu.WriteByte(addr, val);
    }
  }

  /** A rotate, shift or SWAP: read the operand, compute, write the operand, then overwrite F. */
  method ExecuteShift(op: ShiftOp, operand: Operand, regs: Registers)
    requires regs.Valid() && ExtendedReady(Shift(op, operand), Snapshot(regs))
    modifies regs, regs.mmu.Repr
    ensures regs.Valid()
    ensures Snapshot(regs) == ExtendedEffect(Shift(op, operand), old(Snapshot(regs))).0
  {
    ghost var s := Snapshot(regs);
    ShiftStoresThenFlags(op, operand, s);
    var val := ReadOperand(operand, regs);
    var f := regs.ReadRegister(F);
    var newVal, flags := ComputeShift(op, val, f);
    WriteOperand(operand, newVal, regs);
    regs.WriteRegister(F, flags);
  }

  /** The new operand and F of a rotate, shift or SWAP. */
  method ComputeShift(op: ShiftOp, val: bv8, f: bv8) returns (newVal: bv8, flags: bv8)
    ensures newVal == ShiftValue(op, val, f) && flags == ShiftFlags(op, val, f)
  {
    match op {
      case Swap =>
        newVal, flags := ComputeSwap(val);
      case Rlc | Rl | Sla =>
        newVal, flags := ComputeLeftShift(op, val, f);
      case Rrc | Rr | Sra | Srl =>
        newVal, flags := ComputeRightShift(op, val, f);
    }
  }

  /** SWAP, step by step. */
  method ComputeSwap(val: bv8) returns (newVal: bv8, flags: bv8)
    ensures newVal == ShiftValue(Swap, val, 0) && flags == ShiftFlags(Swap, val, 0)
  {
    flags := 0;
    newVal := ((val & 0xF0) >> 4) + ((val & 0x0F) << 4);
    if newVal == 0 {
      flags := flags + 0x10;
    }
  }

  /** RLC, RL and SLA, step by step. */
  method ComputeLeftShift(op: ShiftOp, val: bv8, f: bv8) returns (newVal: bv8, flags: bv8)
    requires op == Rlc || op == Rl || op == Sla
    ensures newVal == ShiftValue(op, val, f) && flags == ShiftFlags(op, val, f)
  {
    flags := 0;
    match op {
      case Rlc =>
        var sevenBit := (val & 0x80) == 0x80;
        newVal := val << 1;
        if sevenBit {
          flags := flags + 0x10;
          newVal := newVal + 0x01;
        }
      case Rl =>
        var carryBit := (f & 0x01) == 0x01;
        var sevenBit := (val & 0x80) == 0x80;
        newVal := val << 1;
        if sevenBit {
          flags := flags + 0x10;
        }
        if carryBit {
          newVal := newVal + 0x01;
        }
      case Sla =>
        var lsb := (val & 0x80) == 0x80;
        newVal := val << 1;
        if lsb {
          flags := flags + 0x10;
        }
        if newVal == 0 {
          flags := flags + 0x80;
        }
    }
  }

  /** RRC, RR, SRA and SRL, step by step. */
  method ComputeRightShift(op: ShiftOp, val: bv8, f: bv8) returns (newVal: bv8, flags: bv8)
    requires op == Rrc || op == Rr || op == Sra || op == Srl
    ensures newVal == ShiftValue(op, val, f) && flags == ShiftFlags(op, val, f)
  {
    flags := 0;
    match op {
      case Rrc =>
        var zeroBit := (val & 0x10) == 0x10;
        newVal := val >> 1;
        if zeroBit {
          flags := flags + 0x10;
          newVal := newVal + 0x80;
        }
      case Rr =>
        var carryBit := (f & 0x01) == 0x01;
        var zeroBit := (val & 0x10) == 0x10;
        newVal := val >> 1;
        if zeroBit {
          flags := flags + 0x10;
        }
        if carryBit {
          newVal := newVal + 0x80;
        }
      case Sra =>
        var msb := val | 0x80;
        var zeroBit := (val & 0x10) == 0x10;
        newVal := val >> 1;
        newVal := newVal + msb;
        if newVal == 0 {
          flags := flags + 0x80;
        }
        if zeroBit {
          flags := flags + 0x10;
        }
      case Srl =>
        var zeroBit := (val & 0x10) == 0x10;
        newVal := val >> 1;
        if zeroBit {
          flags := flags + 0x10;
        }
        if newVal == 0 {
          flags := flags + 0x80;
        }
    }
  }

  /** BIT n: F becomes 0x20, plus 0x80 when the operand under the mask is 0. */
  method ExecuteBit(n: nat, operand: Operand, regs: Registers)
    requires regs.Valid() && ExtendedReady(TestBit(n, operand), Snapshot(regs))
    modifies regs
    ensures regs.Valid()
    ensures Snapshot(regs) == ExtendedEffect(TestBit(n, operand), old(Snapshot(regs))).0
  {
    var bit := Mask(n);
    var val := ReadOperand(operand, regs);
    var flags: bv8 := 0x20;
    if (val & bit) == 0 {
      flags := flags + 0x80;
    }
    regs.WriteRegister(F, flags);
  }

  /** SET n: the operand ORed with the mask (`SetResult`); F is untouched. */
  method ExecuteSet(n: nat, operand: Operand, regs: Registers)
    requires regs.Valid() && ExtendedReady(SetBit(n, operand), Snapshot(regs))
    modifies regs, regs.mmu.Repr
    ensures regs.Valid()
    ensures Snapshot(regs) == ExtendedEffect(SetBit(n, operand), old(Snapshot(regs))).0
  {
    ghost var s := Snapshot(regs);
    BitStores(SetBit(n, operand), s);
    var val := ReadOperand(operand, regs);
    WriteOperand(operand, SetResult(val, n), regs);
  }

  /** RES n: the operand ANDed with the complemented mask (`ResetResult`); F is untouched. */
  method ExecuteReset(n: nat, operand: Operand, regs: Registers)
    requires regs.Valid() && ExtendedReady(ResetBit(n, operand), Snapshot(regs))
    modifies regs, regs.mmu.Repr
    ensures regs.Valid()
    ensures Snapshot(regs) == ExtendedEffect(ResetBit(n, operand), old(Snapshot(regs))).0
  {
    ghost var s := Snapshot(regs);
    BitStores(ResetBit(n, operand), s);
    var val := ReadOperand(operand, regs);
    WriteOperand(operand, ResetResult(val, n), regs);
  }
}
