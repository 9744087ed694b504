// The primary instruction set (instruction.go): the opcode table, and the effect of each
// instruction kind on the register file and the memory map, with the control transfer it returns.

module Instructions {
  import opened Bits
  import opened Memory
  import opened RegisterFile

  /** The branch conditions: NZ and Z test bit 7 of F, NC and C test bit 3 of F. */
  datatype Condition = NotZero | Zero | NotCarry | Carry

  /** The loads: immediates, register copies and the LDH (C) forms. */
  datatype LoadOp =
    | LoadImmediate(dest: Reg)
    | LoadRegister(dest: Reg, source: Reg)
    | LoadRegisterWithOffset(dest: Reg, memAddr: Word, offsetReg: Reg)
    | LoadMemoryWithRegister(memAddr: Word, offset: Reg, source: Reg)
    | LoadTwoByteImmediate(dest1: Reg, dest2: Reg)

  /** The 8-bit arithmetic and logic on A, and the 8-bit increments and decrements. */
  datatype AluOp =
    | Add(source: Reg)
    | AddCarry(source: Reg)
    | Sub(source: Reg)
    | SubCarry(source: Reg)
    | And(source: Reg)
    | Or(source: Reg)
    | Xor(source: Reg)
    | Cp(source: Reg)
    | Inc(source: Reg)
    | Dec(source: Reg)

  /** The 16-bit arithmetic, DAA and CPL: the instructions that compute flags. */
  datatype WideOp =
    | Add16Bit(source1: Reg, source2: Reg)
    | Add16BitFromSp
    | AddSp16Bit
    | Inc16Bit(source1: Reg, source2: Reg)
    | IncSp16Bit
    | Dec16Bit(source1: Reg, source2: Reg)
    | DecSp16Bit
    | Daa
    | Cpl

  /** CPU control (NOP, HALT, STOP, DI, EI) and the jumps, calls, restarts and returns. */
  datatype ControlOp =
    | Noop
    | Halt
    | Stop
    | Di
    | Ei
    | Jump
    | ConditionalJump(condition: Condition)
    | JumpHl
    | JumpImmediate
    | ConditionalJumpImmediate(condition: Condition)
    | Call
    | CallConditional(condition: Condition)
    | Restart(vector: Word)
    | Return
    | ReturnConditional(condition: Condition)
    | Reti

  /** One instruction kind per source type, grouped by what it acts on, with the operands fixed by the table. */
  datatype Instruction =
    | Load(load: LoadOp)
    | Alu(alu: AluOp)
    | Wide(wide: WideOp)
    | Control(control: ControlOp)

  /** An opcode's cycle count, its declared number of parameter bytes, and its instruction. */
  datatype Descriptor = Descriptor(cycles: nat, paramBytes: nat, instruction: Instruction)

  datatype Option<T> = None | Some(value: T)

  /** The control transfer an instruction returns. */
  datatype Address = Address(shouldJump: bool, newAddress: Word)

  /** The result of every instruction that does not transfer control. */
  const NoJump := Address(false, 0)

  /** An opcode byte, as a key of the opcode table. */
  type Opcode = op: int | 0 <= op < 0x100

  /** The entry of the opcode table for one opcode, if it has one. */
  function Decode(opcode: Opcode): Option<Descriptor>
  {
    match opcode
    case 0x00 => Some(Descriptor(1, 0, Control(Noop)))
    case 0x06 => Some(Descriptor(8, 1, Load(LoadImmediate(B))))
    case 0x0E => Some(Descriptor(8, 1, Load(LoadImmediate(C))))
    case 0x16 => Some(Descriptor(8, 1, Load(LoadImmediate(D))))
    case 0x1E => Some(Descriptor(8, 1, Load(LoadImmediate(E))))
    case 0x26 => Some(Descriptor(8, 1, Load(LoadImmediate(H))))
    case 0x2E => Some(Descriptor(8, 1, Load(LoadImmediate(L))))
    case 0x78 => Some(Descriptor(4, 0, Load(LoadRegister(A, B))))
    case 0x79 => Some(Descriptor(4, 0, Load(LoadRegister(A, C))))
    case 0x7A => Some(Descriptor(4, 0, Load(LoadRegister(A, D))))
    case 0x7B => Some(Descriptor(4, 0, Load(LoadRegister(A, E))))
    case 0x7C => Some(Descriptor(4, 0, Load(LoadRegister(A, H))))
    case 0x7D => Some(Descriptor(4, 0, Load(LoadRegister(A, L))))
    case 0x7F => Some(Descriptor(4, 0, Load(LoadRegister(A, A))))
    case 0x40 => Some(Descriptor(4, 0, Load(LoadRegister(B, B))))
    case 0x41 => Some(Descriptor(4, 0, Load(LoadRegister(B, C))))
    case 0x42 => Some(Descriptor(4, 0, Load(LoadRegister(B, D))))
    case 0x43 => Some(Descriptor(4, 0, Load(LoadRegister(B, E))))
    case 0x44 => Some(Descriptor(4, 0, Load(LoadRegister(B, H))))
    case 0x45 => Some(Descriptor(4, 0, Load(LoadRegister(B, L))))
    case 0x47 => Some(Descriptor(4, 0, Load(LoadRegister(B, A))))
    case 0x48 => Some(Descriptor(4, 0, Load(LoadRegister(C, B))))
    case 0x49 => Some(Descriptor(4, 0, Load(LoadRegister(C, C))))
    case 0x4A => Some(Descriptor(4, 0, Load(LoadRegister(C, D))))
    case 0x4B => Some(Descriptor(4, 0, Load(LoadRegister(C, E))))
    case 0x4C => Some(Descriptor(4, 0, Load(LoadRegister(C, H))))
    case 0x4D => Some(Descriptor(4, 0, Load(LoadRegister(C, L))))
    case 0x4F => Some(Descriptor(4, 0, Load(LoadRegister(C, A))))
    case 0x50 => Some(Descriptor(4, 0, Load(LoadRegister(D, B))))
    case 0x51 => Some(Descriptor(4, 0, Load(LoadRegister(D, C))))
    case 0x52 => Some(Descriptor(4, 0, Load(LoadRegister(D, D))))
    case 0x53 => Some(Descriptor(4, 0, Load(LoadRegister(D, E))))
    case 0x54 => Some(Descriptor(4, 0, Load(LoadRegister(D, H))))
    case 0x55 => Some(Descriptor(4, 0, Load(LoadRegister(D, L))))
    case 0x57 => Some(Descriptor(4, 0, Load(LoadRegister(E, A))))
    case 0x58 => Some(Descriptor(4, 0, Load(LoadRegister(E, B))))
    case 0x59 => Some(Descriptor(4, 0, Load(LoadRegister(E, C))))
    case 0x5A => Some(Descriptor(4, 0, Load(LoadRegister(E, D))))
    case 0x5B => Some(Descriptor(4, 0, Load(LoadRegister(E, E))))
    case 0x5C => Some(Descriptor(4, 0, Load(LoadRegister(E, H))))
    case 0x5D => Some(Descriptor(4, 0, Load(LoadRegister(E, L))))
    case 0x5F => Some(Descriptor(4, 0, Load(LoadRegister(E, A))))
    case 0x60 => Some(Descriptor(4, 0, Load(LoadRegister(H, B))))
    case 0x61 => Some(Descriptor(4, 0, Load(LoadRegister(H, C))))
    case 0x62 => Some(Descriptor(4, 0, Load(LoadRegister(H, D))))
    case 0x63 => Some(Descriptor(4, 0, Load(LoadRegister(H, E))))
    case 0x64 => Some(Descriptor(4, 0, Load(LoadRegister(H, H))))
    case 0x65 => Some(Descriptor(4, 0, Load(LoadRegister(H, L))))
    case 0x67 => Some(Descriptor(4, 0, Load(LoadRegister(H, A))))
    case 0x68 => Some(Descriptor(4, 0, Load(LoadRegister(L, B))))
    case 0x69 => Some(Descriptor(4, 0, Load(LoadRegister(L, C))))
    case 0x6A => Some(Descriptor(4, 0, Load(LoadRegister(L, D))))
    case 0x6B => Some(Descriptor(4, 0, Load(LoadRegister(L, E))))
    case 0x6C => Some(Descriptor(4, 0, Load(LoadRegister(L, H))))
    case 0x6D => Some(Descriptor(4, 0, Load(LoadRegister(L, L))))
    case 0x6F => Some(Descriptor(4, 0, Load(LoadRegister(L, A))))
    case 0xF2 => Some(Descriptor(8, 0, Load(LoadRegisterWithOffset(A, 0xFF00, C))))
    case 0xE2 => Some(Descriptor(8, 0, Load(LoadMemoryWithRegister(0xFF00, C, A))))
    case 0x01 => Some(Descriptor(12, 2, Load(LoadTwoByteImmediate(B, C))))
    case 0x11 => Some(Descriptor(12, 2, Load(LoadTwoByteImmediate(D, E))))
    case 0x21 => Some(Descriptor(12, 2, Load(LoadTwoByteImmediate(H, L))))
    case 0x87 => Some(Descriptor(4, 0, Alu(Add(A))))
    case 0x80 => Some(Descriptor(4, 0, Alu(Add(B))))
    case 0x81 => Some(Descriptor(4, 0, Alu(Add(C))))
    case 0x82 => Some(Descriptor(4, 0, Alu(Add(D))))
    case 0x83 => Some(Descriptor(4, 0, Alu(Add(E))))
    case 0x84 => Some(Descriptor(4, 0, Alu(Add(H))))
    case 0x85 => Some(Descriptor(4, 0, Alu(Add(L))))
    case 0x8F => Some(Descriptor(4, 0, Alu(AddCarry(A))))
    case 0x88 => Some(Descriptor(4, 0, Alu(AddCarry(B))))
    case 0x89 => Some(Descriptor(4, 0, Alu(AddCarry(C))))
    case 0x8A => Some(Descriptor(4, 0, Alu(AddCarry(D))))
    case 0x8B => Some(Descriptor(4, 0, Alu(AddCarry(E))))
    case 0x8C => Some(Descriptor(4, 0, Alu(AddCarry(H))))
    case 0x8D => Some(Descriptor(4, 0, Alu(AddCarry(L))))
    case 0x97 => Some(Descriptor(4, 0, Alu(Sub(A))))
    case 0x90 => Some(Descriptor(4, 0, Alu(Sub(B))))
    case 0x91 => Some(Descriptor(4, 0, Alu(Sub(C))))
    case 0x92 => Some(Descriptor(4, 0, Alu(Sub(D))))
    case 0x93 => Some(Descriptor(4, 0, Alu(Sub(E))))
    case 0x94 => Some(Descriptor(4, 0, Alu(Sub(H))))
    case 0x95 => Some(Descriptor(4, 0, Alu(Sub(L))))
    case 0x9F => Some(Descriptor(4, 0, Alu(SubCarry(A))))
    case 0x98 => Some(Descriptor(4, 0, Alu(SubCarry(B))))
    case 0x99 => Some(Descriptor(4, 0, Alu(SubCarry(C))))
    case 0x9A => Some(Descriptor(4, 0, Alu(SubCarry(D))))
    case 0x9B => Some(Descriptor(4, 0, Alu(SubCarry(E))))
    case 0x9C => Some(Descriptor(4, 0, Alu(SubCarry(H))))
    case 0x9D => Some(Descriptor(4, 0, Alu(SubCarry(L))))
    case 0xA7 => Some(Descriptor(4, 0, Alu(And(A))))
    case 0xA0 => Some(Descriptor(4, 0, Alu(And(B))))
    case 0xA1 => Some(Descriptor(4, 0, Alu(And(C))))
    case 0xA2 => Some(Descriptor(4, 0, Alu(And(D))))
    case 0xA3 => Some(Descriptor(4, 0, Alu(And(E))))
    case 0xA4 => Some(Descriptor(4, 0, Alu(And(H))))
    case 0xA5 => Some(Descriptor(4, 0, Alu(And(L))))
    case 0xB7 => Some(Descriptor(4, 0, Alu(Or(A))))
    case 0xB0 => Some(Descriptor(4, 0, Alu(Or(B))))
    case 0xB1 => Some(Descriptor(4, 0, Alu(Or(C))))
    case 0xB2 => Some(Descriptor(4, 0, Alu(Or(D))))
    case 0xB3 => Some(Descriptor(4, 0, Alu(Or(E))))
    case 0xB4 => Some(Descriptor(4, 0, Alu(Or(H))))
    case 0xB5 => Some(Descriptor(4, 0, Alu(Or(L))))
    case 0xAF => Some(Descriptor(4, 0, Alu(Xor(A))))
    case 0xA8 => Some(Descriptor(4, 0, Alu(Xor(B))))
    case 0xA9 => Some(Descriptor(4, 0, Alu(Xor(C))))
    case 0xAA => Some(Descriptor(4, 0, Alu(Xor(D))))
    case 0xAB => Some(Descriptor(4, 0, Alu(Xor(E))))
    case 0xAC => Some(Descriptor(4, 0, Alu(Xor(H))))
    case 0xAD => Some(Descriptor(4, 0, Alu(Xor(L))))
    case 0xBF => Some(Descriptor(4, 0, Alu(Cp(A))))
    case 0xB8 => Some(Descriptor(4, 0, Alu(Cp(B))))
    case 0xB9 => Some(Descriptor(4, 0, Alu(Cp(C))))
    case 0xBA => Some(Descriptor(4, 0, Alu(Cp(D))))
    case 0xBB => Some(Descriptor(4, 0, Alu(Cp(E))))
    case 0xBC => Some(Descriptor(4, 0, Alu(Cp(H))))
    case 0xBD => Some(Descriptor(4, 0, Alu(Cp(L))))
    case 0x3C => Some(Descriptor(4, 0, Alu(Inc(A))))
    case 0x04 => Some(Descriptor(4, 0, Alu(Inc(B))))
    case 0x0C => Some(Descriptor(4, 0, Alu(Inc(C))))
    case 0x14 => Some(Descriptor(4, 0, Alu(Inc(D))))
    case 0x1C => Some(Descriptor(4, 0, Alu(Inc(E))))
    case 0x24 => Some(Descriptor(4, 0, Alu(Inc(H))))
    case 0x2C => Some(Descriptor(4, 0, Alu(Inc(L))))
    case 0x3D => Some(Descriptor(4, 0, Alu(Dec(A))))
    case 0x05 => Some(Descriptor(4, 0, Alu(Dec(B))))
    case 0x0D => Some(Descriptor(4, 0, Alu(Dec(C))))
    case 0x15 => Some(Descriptor(4, 0, Alu(Dec(D))))
    case 0x1D => Some(Descriptor(4, 0, Alu(Dec(E))))
    case 0x25 => Some(Descriptor(4, 0, Alu(Dec(H))))
    case 0x2D => Some(Descriptor(4, 0, Alu(Dec(L))))
    case 0x09 => Some(Descriptor(8, 0, Wide(Add16Bit(B, C))))
    case 0x19 => Some(Descriptor(8, 0, Wide(Add16Bit(D, E))))
    case 0x29 => Some(Descriptor(8, 0, Wide(Add16Bit(H, L))))
    case 0x39 => Some(Descriptor(8, 0, Wide(Add16BitFromSp)))
    case 0xE8 => Some(Descriptor(16, 0, Wide(AddSp16Bit)))
    case 0x03 => Some(Descriptor(8, 0, Wide(Inc16Bit(B, C))))
    case 0x13 => Some(Descriptor(8, 0, Wide(Inc16Bit(D, E))))
    case 0x23 => Some(Descriptor(8, 0, Wide(Inc16Bit(H, L))))
    case 0x33 => Some(Descriptor(8, 0, Wide(IncSp16Bit)))
    case 0x0B => Some(Descriptor(8, 0, Wide(Dec16Bit(B, C))))
    case 0x1B => Some(Descriptor(8, 0, Wide(Dec16Bit(D, E))))
    case 0x2B => Some(Descriptor(8, 0, Wide(Dec16Bit(H, L))))
    case 0x3B => Some(Descriptor(8, 0, Wide(DecSp16Bit)))
    case 0x27 => Some(Descriptor(4, 0, Wide(Daa)))
    case 0x2F => Some(Descriptor(4, 0, Wide(Cpl)))
    case 0x76 => Some(Descriptor(4, 0, Control(Halt)))
    case 0xF3 => Some(Descriptor(4, 0, Control(Di)))
    case 0xFB => Some(Descriptor(4, 0, Control(Ei)))
    case 0xC3 => Some(Descriptor(12, 2, Control(Jump)))
    case 0xC2 => Some(Descriptor(12, 2, Control(ConditionalJump(NotZero))))
    case 0xCA => Some(Descriptor(12, 2, Control(ConditionalJump(Zero))))
    case 0xD2 => Some(Descriptor(12, 2, Control(ConditionalJump(NotCarry))))
    case 0xDA => Some(Descriptor(12, 2, Control(ConditionalJump(Carry))))
    case 0xE9 => Some(Descriptor(4, 0, Control(JumpHl)))
    case 0x18 => Some(Descriptor(8, 1, Control(JumpImmediate)))
    case 0x20 => Some(Descriptor(8, 1, Control(ConditionalJumpImmediate(NotZero))))
    case 0x28 => Some(Descriptor(8, 1, Control(ConditionalJumpImmediate(Zero))))
    case 0x30 => Some(Descriptor(8, 1, Control(ConditionalJumpImmediate(NotCarry))))
    case 0x38 => Some(Descriptor(8, 1, Control(ConditionalJumpImmediate(Carry))))
    case 0xCD => Some(Descriptor(12, 2, Control(Call)))
    case 0xC4 => Some(Descriptor(12, 2, Control(CallConditional(NotZero))))
    case 0xCC => Some(Descriptor(12, 2, Control(CallConditional(Zero))))
    case 0xD4 => Some(Descriptor(12, 2, Control(CallConditional(NotCarry))))
    case 0xDC => Some(Descriptor(12, 2, Control(CallConditional(Carry))))
    case 0xC7 => Some(Descriptor(32, 0, Control(Restart(0x00))))
    case 0xCF => Some(Descriptor(32, 0, Control(Restart(0x08))))
    case 0xD7 => Some(Descriptor(32, 0, Control(Restart(0x10))))
    case 0xDF => Some(Descriptor(32, 0, Control(Restart(0x18))))
    case 0xE7 => Some(Descriptor(32, 0, Control(Restart(0x20))))
    case 0xEF => Some(Descriptor(32, 0, Control(Restart(0x28))))
    case 0xF7 => Some(Descriptor(32, 0, Control(Restart(0x30))))
    case 0xFF => Some(Descriptor(32, 0, Control(Restart(0x38))))
    case 0xC9 => Some(Descriptor(8, 0, Control(Return)))
    case 0xC0 => Some(Descriptor(8, 0, Control(ReturnConditional(NotZero))))
    case 0xC8 => Some(Descriptor(8, 0, Control(ReturnConditional(Zero))))
    case 0xD0 => Some(Descriptor(8, 0, Control(ReturnConditional(NotCarry))))
    case 0xD8 => Some(Descriptor(8, 0, Control(ReturnConditional(Carry))))
    case 0xD9 => Some(Descriptor(8, 0, Control(Reti)))
    case _ => None
  }

  /** The opcode table: every opcode that has an entry, with its descriptor. */
  function CreateInstructions(): map<Opcode, Descriptor>
  {
    map opcode: Opcode | Decode(opcode).Some? :: Decode(opcode).value
  }

  /** Opcode 0x57 names the same instruction as 0x5F, LD E,A, instead of LD D,A. */
  lemma LoadDFromADecodesAsLoadE()
    ensures CreateInstructions()[0x57] == CreateInstructions()[0x5F] == Descriptor(4, 0, Load(LoadRegister(E, A)))
  {
  }

  /** ADD SP,e (0xE8) declares no parameter byte, although executing it reads one. */
  lemma AddSpDeclaresNoParameter()
    ensures CreateInstructions()[0xE8] == Descriptor(16, 0, Wide(AddSp16Bit))
    ensures ParamsRead(Wide(AddSp16Bit)) == 1
  {
  }

  // ---------------------------------------------------------------------------------------------
  // Pure parts: two's complement, conditions, jump targets and the flag computations

  /** Bit 7 of the byte weighs -128: the signed reading of the byte. */
  function TwosComplement(number: bv8): (r: int)
    ensures -0x80 <= r < 0x80
    ensures number < 0x80 ==> r == number as int
    ensures number >= 0x80 ==> r == number as int - 0x100
  {
    (number & 0x7F) as int - (number & 0x80) as int
  }

  /** The condition closures of the table, over the value of F. */
  function ConditionHolds(condition: Condition, f: bv8): bool
  {
    match condition
    case NotZero => f >> 7 == 0
    case Zero => f >> 7 == 1
    case NotCarry => (f & 0x08) >> 3 == 0
    case Carry => (f & 0x08) >> 3 == 1
  }

  /** NZ and Z test F bit 7 and NC and C test F bit 3, each pair complementary. */
  lemma ConditionBits(f: bv8)
    ensures ConditionHolds(NotZero, f) <==> GetBit(f, 7) == 0
    ensures ConditionHolds(Zero, f) <==> GetBit(f, 7) == 1
    ensures ConditionHolds(NotCarry, f) <==> GetBit(f, 3) == 0
    ensures ConditionHolds(Carry, f) <==> GetBit(f, 3) == 1
  {
  }

  /** The target `(params[1] << 0xFF) + params[0]` of JP and CALL: Go drops every bit shifted that far. */
  function JumpTarget(params: seq<bv8>): (target: Word)
    requires |params| >= 2
    ensures target == params[0] as int
  {
    Wrap16(ShiftLeft16(params[1] as int, 0xFF) + params[0] as int)
  }

  /** The target of JR: PC plus the parameter read unsigned, in 16 bits. */
  function RelativeTarget(pc: Word, offset: bv8): (target: Word)
    ensures pc + offset as int < 0x10000 ==> target == pc + offset as int
    ensures pc + offset as int >= 0x10000 ==> target == pc + offset as int - 0x10000
  {
    Wrap16(pc + offset as int)
  }

  /** The address `memAddr + uint16(reg)` of the LDH (C) forms. */
  function OffsetAddress(memAddr: Word, offset: bv8): Word
  {
    Wrap16(memAddr + offset as int)
  }

  /**
    * The flags of ADD SP,e as the source computes them: carry (1) when the low byte of SP
    * moved the wrong way, half-carry (2) when the low nibble went down, for non-negative e only.
    */
  function AddSpFlags(sp: Word, immediate: int): (flags: int)
    ensures 0 <= flags <= 3
    ensures immediate < 0 ==> flags <= 1
  {
    if immediate < 0 then
      if (sp + immediate) % 0x100 > sp % 0x100 then 1 else 0
    else
      (if (sp + immediate) % 0x100 < sp % 0x100 then 1 else 0)
      + (if (sp + immediate) % 0x10 < sp % 0x10 then 2 else 0)
  }

  /**
    * The comparisons are the carries: for e >= 0, a carry out of bit 7 and out of bit 3 of the
    * addition; for e < 0, a borrow from the low byte.
    */
  lemma AddSpFlagsMeaning(sp: Word, immediate: int)
    requires -0x80 <= immediate < 0x80
    ensures immediate >= 0 ==>
      AddSpFlags(sp, immediate) ==
      (if sp % 0x100 + immediate >= 0x100 then 1 else 0) + (if sp % 0x10 + immediate % 0x10 >= 0x10 then 2 else 0)
    ensures immediate < 0 ==> AddSpFlags(sp, immediate) == (if sp % 0x100 < -immediate then 1 else 0)
  {
    var high := sp / 0x100;
    assert sp == high * 0x100 + sp % 0x100;
    if immediate >= 0 {
      assert sp == (sp / 0x10) * 0x10 + sp % 0x10;
    }
  }

  /** The flags of ADD SP,e as the byte F receives. */
  function AddSpFlagByte(sp: Word, immediate: int): (flags: bv8)
    ensures flags as int == AddSpFlags(sp, immediate)
  {
    ByteRoundTrip(AddSpFlags(sp, immediate));
    AddSpFlags(sp, immediate) as bv8
  }

  /** The flags of ADD HL: Z kept from F bit 7, and 3 added when the 16-bit sum wrapped. */
  function Add16Flags(f: bv8, hl: Word, value: Word): bv8
  {
    (f & 0x80) + (if Wrap16(value + hl) < hl then 3 else 0)
  }

  /** The wrap test is exactly a carry out of bit 15; no bit other than 7, 1 and 0 is set. */
  lemma Add16FlagsMeaning(f: bv8, hl: Word, value: Word)
    ensures Add16Flags(f, hl, value) == (f & 0x80) | (if hl + value >= 0x10000 then 3 else 0)
    ensures Add16Flags(f, hl, value) & 0x7C == 0
  {
  }

  /**
    * ADD HL on the register file, shared by ADD HL,rr and ADD HL,SP: HL takes the 16-bit sum
    * and F the flags of the sum.
    */
  function AddToHl(regs: RegisterState, value: Word): RegisterState
  {
    var hl := ReadPair(regs, H, L).0;
    Set(WritePair(regs, H, L, Wrap16(value + hl)).0, F, Add16Flags(Get(regs, F), hl, value))
  }

  /**
    * HL becomes HL + x modulo 65536; F keeps only bit 7 and sets bits 0 and 1 exactly when the
    * sum carried out of bit 15; nothing else changes.
    */
  lemma AddToHlResult(regs: RegisterState, value: Word)
    ensures var t := AddToHl(regs, value);
      var hl := ReadPair(regs, H, L).0;
      && ReadPair(t, H, L).0 == (hl + value) % 0x10000
      && Get(t, F) == (Get(regs, F) & 0x80) | (if hl + value >= 0x10000 then 3 else 0)
      && (forall reg :: reg != H && reg != L && reg != F ==> Get(t, reg) == Get(regs, reg))
      && t.pc == regs.pc && t.sp == regs.sp
  {
    var hl := ReadPair(regs, H, L).0;
    WritePairThenRead(regs, H, L, Wrap16(value + hl));
    Add16FlagsMeaning(Get(regs, F), hl, value);
  }

  /** INC rr and DEC rr: the pair's value moved by `delta`, in 16 bits. */
  function StepPair(regs: RegisterState, reg1: Reg, reg2: Reg, delta: int): RegisterState
  {
    WritePair(regs, reg1, reg2, Wrap16(ReadPair(regs, reg1, reg2).0 + delta)).0
  }

  /**
    * On one of the four pairs the pair reads back moved by `delta` modulo 65536, and no other
    * register changes; on any other pair the read yields 0, the write fails and nothing changes.
    */
  lemma StepPairResult(regs: RegisterState, reg1: Reg, reg2: Reg, delta: int)
    ensures IsValidPair(reg1, reg2) ==>
      var t := StepPair(regs, reg1, reg2, delta);
      && ReadPair(t, reg1, reg2).0 == (ReadPair(regs, reg1, reg2).0 + delta) % 0x10000
      && (forall reg :: reg != reg1 && reg != reg2 ==> Get(t, reg) == Get(regs, reg))
      && t.pc == regs.pc && t.sp == regs.sp
    ensures !IsValidPair(reg1, reg2) ==> StepPair(regs, reg1, reg2, delta) == regs
  {
    WritePairThenRead(regs, reg1, reg2, Wrap16(ReadPair(regs, reg1, reg2).0 + delta));
  }

  /** The first DAA step fires when the low nibble exceeds 9 or F bit 5 is set. */
  predicate DaaLowAdjust(a: bv8, f: bv8)
  {
    (a & 0x0F) > 9 || (f & 0x20) == 0x20
  }

  function DaaFirstStep(a: bv8, f: bv8): bv8
  {
    if DaaLowAdjust(a, f) then a + 0x06 else a
  }

  /** The second step fires when the high nibble exceeds 9, the first step wrapped A to 0, or F bit 4 is set. */
  predicate DaaHighAdjust(a: bv8, f: bv8)
  {
    var a1 := DaaFirstStep(a, f);
    ((a1 & 0xF0) >> 4) > 9 || (a1 == 0 && DaaLowAdjust(a, f)) || (f & 0x10) == 0x10
  }

  /** DAA's new A and F. */
  function DaaResult(a: bv8, f: bv8): (r: (bv8, bv8))
  {
    var a1 := DaaFirstStep(a, f);
    var carry := DaaHighAdjust(a, f) && a1 + 0x60 < a1;
    var a2 := if DaaHighAdjust(a, f) then a1 + 0x60 else a1;
    (a2, (f & 0x40) + (if carry then 1 else 0) + (if a2 == 0 then 8 else 0))
  }

  /** DAA adds 0x06 and then 0x60 to A, modulo 256, as its two steps fire. */
  lemma DaaValue(a: bv8, f: bv8)
    ensures DaaResult(a, f).0 == a + (if DaaLowAdjust(a, f) then 0x06 else 0) + (if DaaHighAdjust(a, f) then 0x60 else 0)
  {
  }

  /**
    * DAA keeps F bit 6, sets 0x01 exactly when the second step carried out of bit 7 and 0x08
    * exactly when A ends at 0, and sets no other bit.
    */
  lemma DaaFlags(a: bv8, f: bv8)
    ensures DaaResult(a, f).1 & 0xB6 == 0
    ensures DaaResult(a, f).1 & 0x40 == f & 0x40
    ensures DaaResult(a, f).1 & 0x08 != 0 <==> DaaResult(a, f).0 == 0
    ensures DaaResult(a, f).1 & 0x01 != 0 <==> DaaHighAdjust(a, f) && DaaFirstStep(a, f) >= 0xA0
  {
  }

  /** A binary-coded decimal A with F bits 4 and 5 clear needs no adjustment and stays as it is. */
  lemma DaaKeepsDecimal(a: bv8, f: bv8)
    requires (a & 0x0F) <= 9 && (a >> 4) <= 9 && f & 0x30 == 0
    ensures DaaResult(a, f) == (a, (f & 0x40) | (if a == 0 then 8 else 0))
  {
  }

  // ---------------------------------------------------------------------------------------------
  // The effect of each instruction kind

  /** The register file and the memory map an instruction acts on. */
  datatype Machine = Machine(regs: RegisterState, mem: Image)

  /** The most parameter bytes an instruction reads: one for an 8-bit immediate, two for an address. */
  function ParamsRead(ins: Instruction): nat
  {
    match ins
    case Load(LoadImmediate(_)) | Wide(AddSp16Bit) | Control(JumpImmediate) | Control(ConditionalJumpImmediate(_)) => 1
    case Load(LoadTwoByteImmediate(_, _)) | Control(Jump) | Control(ConditionalJump(_)) | Control(Call) => 2
    case Control(CallConditional(_)) => 2
    case _ => 0
  }

  /** The conditional jumps, calls and returns. */
  predicate IsConditional(op: ControlOp)
  {
    op.ConditionalJump? || op.ConditionalJumpImmediate? || op.CallConditional? || op.ReturnConditional?
  }

  /** The parameter bytes an instruction reads when F holds `f`: a branch not taken reads none. */
  function ParamsUsed(ins: Instruction, f: bv8): (n: nat)
    ensures n <= ParamsRead(ins)
    ensures !(ins.Control? && IsConditional(ins.control)) ==> n == ParamsRead(ins)
  {
    if ins.Control? && IsConditional(ins.control) && !ConditionHolds(ins.control.condition, f) then 0
    else ParamsRead(ins)
  }

  /**
    * What executing an instruction demands: a parameter for each byte it reads, and for the
    * LDH (C) forms, no read of the joypad register (that read never returns) and no write that
    * starts a DMA from page 0xFF.
    */
  predicate Ready(ins: Instruction, params: seq<bv8>, s: Machine)
  {
    && s.mem.WellSized()
    && |params| >= ParamsUsed(ins, Get(s.regs, F))
    && (ins.Load? ==> CanLoad(ins.load, s))
  }

  predicate CanLoad(op: LoadOp, s: Machine)
  {
    match op
    case LoadRegisterWithOffset(_, memAddr, offsetReg) =>
      OffsetAddress(memAddr, Get(s.regs, offsetReg)) != JoypadInput
    case LoadMemoryWithRegister(memAddr, offset, source) =>
      CanWrite(OffsetAddress(memAddr, Get(s.regs, offset)), Get(s.regs, source))
    case _ => true
  }

  /** The new registers and memory, and the control transfer, of one instruction. */
  function Effect(ins: Instruction, params: seq<bv8>, s: Machine): (r: (Machine, Address))
    requires Ready(ins, params, s)
    ensures r.0.mem.WellSized()
  {
    match ins
    case Load(op) => (LoadEffect(op, params, s), NoJump)
    case Alu(op) => (s.(regs := AluEffect(op, s.regs)), NoJump)
    case Wide(op) => (s.(regs := WideEffect(op, params, s.regs)), NoJump)
    case Control(op) =>
      var (regs, target) := ControlEffect(op, params, s.regs);
      (s.(regs := regs), target)
  }

  function LoadEffect(op: LoadOp, params: seq<bv8>, s: Machine): (t: Machine)
    requires Ready(Load(op), params, s)
    ensures t.mem.WellSized()
  {
    var regs := s.regs;
    match op
    case LoadImmediate(dest) => s.(regs := Set(regs, dest, params[0]))
    case LoadRegister(dest, source) => s.(regs := Set(regs, dest, Get(regs, source)))
    case LoadRegisterWithOffset(dest, memAddr, offsetReg) =>
      s.(regs := Set(regs, dest, Read(s.mem, OffsetAddress(memAddr, Get(regs, offsetReg)))))
    case LoadMemoryWithRegister(memAddr, offset, source) =>
      s.(mem := Write(s.mem, OffsetAddress(memAddr, Get(regs, offset)), Get(regs, source)))
    case LoadTwoByteImmediate(dest1, dest2) => s.(regs := Set(Set(regs, dest1, params[0]), dest2, params[1]))
  }

  /** The registers after an 8-bit arithmetic or logic instruction; ADC, SBC and CP keep nothing. */
  function AluEffect(op: AluOp, regs: RegisterState): RegisterState
  {
    match op
    case AddCarry(_) | SubCarry(_) | Cp(_) => regs
    case Inc(source) => Set(regs, source, AluResult(op, Get(regs, source), 0))
    case Dec(source) => Set(regs, source, AluResult(op, Get(regs, source), 0))
    case _ => Set(regs, A, AluResult(op, Get(regs, A), Get(regs, op.source)))
  }

  /** The byte an ADD, SUB, AND, OR, XOR, INC or DEC stores, in byte arithmetic (modulo 256). */
  function AluResult(op: AluOp, dest: bv8, source: bv8): bv8
    requires !(op.AddCarry? || op.SubCarry? || op.Cp?)
  {
    match op
    case Add(_) => source + dest
    case Sub(_) => dest - source
    case And(_) => dest & source
    case Or(_) => dest | source
    case Xor(_) => dest ^ source
    case Inc(_) => dest + 1
    case Dec(_) => dest - 1
  }

  /** The registers after a 16-bit arithmetic instruction, DAA or CPL. */
  function WideEffect(op: WideOp, params: seq<bv8>, regs: RegisterState): RegisterState
    requires |params| >= ParamsRead(Wide(op))
  {
    match op
    case Add16Bit(source1, source2) => AddToHl(regs, ReadPair(regs, source1, source2).0)
    case Add16BitFromSp => AddToHl(regs, regs.sp)
    case AddSp16Bit =>
      var immediate := TwosComplement(params[0]);
      Set(regs.(sp := Wrap16(regs.sp + immediate)), F, AddSpFlagByte(regs.sp, immediate))
    case Inc16Bit(source1, source2) => StepPair(regs, source1, source2, 1)
    case IncSp16Bit => regs.(sp := Wrap16(regs.sp + 1))
    case Dec16Bit(source1, source2) => StepPair(regs, source1, source2, -1)
    case DecSp16Bit => regs.(sp := Wrap16(regs.sp - 1))
    case Daa =>
      var (a, f) := DaaResult(Get(regs, A), Get(regs, F));
      Set(Set(regs, A, a), F, f)
    case Cpl =>
      var complemented := Set(regs, A, Get(regs, A) ^ 0xFF);
      Set(complemented, F, Get(complemented, F) | 0x60)
  }

  /** The registers after a control instruction (a call only sets SP to PC), and its control transfer. */
  function ControlEffect(op: ControlOp, params: seq<bv8>, regs: RegisterState): (r: (RegisterState, Address))
    requires |params| >= ParamsUsed(Control(op), Get(regs, F))
  {
    match op
    case Noop | Halt | Stop | Di | Ei => (regs, NoJump)
    case Jump => (regs, Address(true, JumpTarget(params)))
    case ConditionalJump(condition) =>
      if ConditionHolds(condition, Get(regs, F)) then (regs, Address(true, JumpTarget(params))) else (regs, NoJump)
    case JumpHl =>
      var (hl, status) := ReadPair(regs, H, L);
      if status != PairOk then (regs, NoJump) else (regs, Address(true, hl))
    case JumpImmediate => (regs, Address(true, RelativeTarget(regs.pc, params[0])))
    case ConditionalJumpImmediate(condition) =>
      if ConditionHolds(condition, Get(regs, F)) then (regs, Address(true, RelativeTarget(regs.pc, params[0])))
      else (regs, NoJump)
    case Call => (regs.(sp := regs.pc), Address(true, JumpTarget(params)))
    case CallConditional(condition) =>
      if ConditionHolds(condition, Get(regs, F)) then (regs.(sp := regs.pc), Address(true, JumpTarget(params)))
      else (regs, NoJump)
    case Restart(vector) => (regs.(sp := regs.pc), Address(true, vector))
    case Return => (regs, Address(true, regs.sp))
    case ReturnConditional(condition) =>
      if ConditionHolds(condition, Get(regs, F)) then (regs, Address(true, regs.sp)) else (regs, NoJump)
    case Reti => (regs, Address(true, regs.sp))
  }

  // ---------------------------------------------------------------------------------------------
  // What each instruction changes

  /** The 8-bit registers an instruction may write. */
  function Targets(ins: Instruction): set<Reg>
  {
    match ins
    case Load(LoadImmediate(dest)) => {dest}
    case Load(LoadRegister(dest, _)) => {dest}
    case Load(LoadRegisterWithOffset(dest, _, _)) => {dest}
    case Load(LoadTwoByteImmediate(dest1, dest2)) => {dest1, dest2}
    case Alu(AddCarry(_)) | Alu(SubCarry(_)) | Alu(Cp(_)) => {}
    case Alu(Inc(source)) => {source}
    case Alu(Dec(source)) => {source}
    case Alu(_) => {A}
    case Wide(Add16Bit(_, _)) | Wide(Add16BitFromSp) => {H, L, F}
    case Wide(AddSp16Bit) => {F}
    case Wide(Inc16Bit(source1, source2)) => {source1, source2}
    case Wide(Dec16Bit(source1, source2)) => {source1, source2}
    case Wide(Daa) | Wide(Cpl) => {A, F}
    case _ => {}
  }

  /** The instructions that may change SP. */
  predicate MovesSp(ins: Instruction)
  {
    || ins == Wide(AddSp16Bit) || ins == Wide(IncSp16Bit) || ins == Wide(DecSp16Bit)
    || (ins.Control? && (ins.control.Call? || ins.control.CallConditional? || ins.control.Restart?))
  }

  /** The jumps, calls, restarts and returns. */
  predicate TransfersControl(ins: Instruction)
  {
    ins.Control? && !(ins.control.Noop? || ins.control.Halt? || ins.control.Stop? || ins.control.Di? || ins.control.Ei?)
  }

  /** `t` keeps every 8-bit register outside `targets`, and PC, and SP unless `spMoves`. */
  predicate Keeps(s: RegisterState, t: RegisterState, targets: set<Reg>, spMoves: bool)
  {
    && (forall reg :: reg !in targets ==> Get(t, reg) == Get(s, reg))
    && t.pc == s.pc
    && (!spMoves ==> t.sp == s.sp)
  }

  lemma LoadFrame(op: LoadOp, params: seq<bv8>, s: Machine)
    requires Ready(Load(op), params, s)
    ensures Keeps(s.regs, LoadEffect(op, params, s).regs, Targets(Load(op)), false)
    ensures !op.LoadMemoryWithRegister? ==> LoadEffect(op, params, s).mem == s.mem
  {
  }

  lemma AluFrame(op: AluOp, regs: RegisterState)
    ensures Keeps(regs, AluEffect(op, regs), Targets(Alu(op)), false)
  {
  }

  lemma WideFrame(op: WideOp, params: seq<bv8>, regs: RegisterState)
    requires |params| >= ParamsRead(Wide(op))
    ensures Keeps(regs, WideEffect(op, params, regs), Targets(Wide(op)), MovesSp(Wide(op)))
  {
    match op
    case Add16Bit(source1, source2) => HlFrame(regs, ReadPair(regs, source1, source2).0);
    case Add16BitFromSp => HlFrame(regs, regs.sp);
    case Inc16Bit(source1, source2) => StepFrame(regs, source1, source2, 1);
    case Dec16Bit(source1, source2) => StepFrame(regs, source1, source2, -1);
    case _ =>
  }

  lemma HlFrame(regs: RegisterState, value: Word)
    ensures Keeps(regs, AddToHl(regs, value), {H, L, F}, false)
  {
    AddToHlResult(regs, value);
  }

  lemma StepFrame(regs: RegisterState, reg1: Reg, reg2: Reg, delta: int)
    ensures Keeps(regs, StepPair(regs, reg1, reg2, delta), {reg1, reg2}, false)
  {
    StepPairResult(regs, reg1, reg2, delta);
  }

  lemma ControlFrame(op: ControlOp, params: seq<bv8>, regs: RegisterState)
    requires |params| >= ParamsUsed(Control(op), Get(regs, F))
    ensures Keeps(regs, ControlEffect(op, params, regs).0, {}, MovesSp(Control(op)))
    ensures !TransfersControl(Control(op)) ==> ControlEffect(op, params, regs).1 == NoJump
  {
  }

  /**
    * What an instruction leaves alone: every register outside its targets, PC always, SP unless
    * it may move SP, memory unless it is a store, and the control transfer unless it is a jump.
    */
  lemma EffectFrame(ins: Instruction, params: seq<bv8>, s: Machine)
    requires Ready(ins, params, s)
    ensures var (t, target) := Effect(ins, params, s);
      && Keeps(s.regs, t.regs, Targets(ins), MovesSp(ins))
      && (!(ins.Load? && ins.load.LoadMemoryWithRegister?) ==> t.mem == s.mem)
      && (!TransfersControl(ins) ==> target == NoJump)
  {
    match ins
    case Load(op) => LoadFrame(op, params, s);
    case Alu(op) => AluFrame(op, s.regs);
    case Wide(op) => WideFrame(op, params, s.regs);
    case Control(op) => ControlFrame(op, params, s.regs);
  }

  // ---------------------------------------------------------------------------------------------
  // The instruction kinds, one by one

  /**
    * The 8-bit operations on A: ADD and SUB work modulo 256 (byte arithmetic), AND, OR and XOR
    * combine bit by bit. `EffectFrame` shows that none of them writes F or any register but A.
    */
  lemma AccumulatorArithmetic(op: AluOp, params: seq<bv8>, s: Machine)
    requires Ready(Alu(op), params, s)
    requires op.Add? || op.Sub? || op.And? || op.Or? || op.Xor?
    ensures var t := Effect(Alu(op), params, s).0.regs;
      var a, x := Get(s.regs, A), Get(s.regs, op.source);
      && (op.Add? ==> Get(t, A) == x + a)
      && (op.Sub? ==> Get(t, A) == a - x)
      && (op.And? ==> Get(t, A) == a & x)
      && (op.Or? ==> Get(t, A) == a | x)
      && (op.Xor? ==> Get(t, A) == a ^ x)
  {
  }

  /** INC and DEC add and subtract 1 modulo 256 in their own register and nowhere else. */
  lemma IncrementDecrement(op: AluOp, params: seq<bv8>, s: Machine)
    requires Ready(Alu(op), params, s)
    requires op.Inc? || op.Dec?
    ensures var t := Effect(Alu(op), params, s).0.regs;
      && (op.Inc? ==> Get(t, op.source) == Get(s.regs, op.source) + 1)
      && (op.Dec? ==> Get(t, op.source) == Get(s.regs, op.source) - 1)
  {
  }

  /** CP, ADC and SBC compute nothing the machine keeps. */
  lemma ComparisonsChangeNothing(op: AluOp, params: seq<bv8>, s: Machine)
    requires Ready(Alu(op), params, s)
    requires op.Cp? || op.AddCarry? || op.SubCarry?
    ensures Effect(Alu(op), params, s) == (s, NoJump)
  {
  }

  /** INC rr and DEC rr are `StepPair` by +1 and -1: see `StepPairResult`. */
  lemma PairIncrements(op: WideOp, params: seq<bv8>, s: Machine)
    requires Ready(Wide(op), params, s)
    requires op.Inc16Bit? || op.Dec16Bit?
    ensures var t := Effect(Wide(op), params, s).0.regs;
      var value := ReadPair(s.regs, op.source1, op.source2).0;
      && (op.Inc16Bit? && IsValidPair(op.source1, op.source2) ==>
            ReadPair(t, op.source1, op.source2).0 == (value + 1) % 0x10000)
      && (op.Dec16Bit? && IsValidPair(op.source1, op.source2) ==>
            ReadPair(t, op.source1, op.source2).0 == (value - 1) % 0x10000)
      && (!IsValidPair(op.source1, op.source2) ==> t == s.regs)
  {
    StepPairResult(s.regs, op.source1, op.source2, if op.Inc16Bit? then 1 else -1);
  }

  /** INC SP and DEC SP wrap modulo 65536 and change nothing else. */
  lemma SpIncrements(params: seq<bv8>, s: Machine)
    requires s.mem.WellSized()
    ensures Effect(Wide(IncSp16Bit), params, s) == (s.(regs := s.regs.(sp := (s.regs.sp + 1) % 0x10000)), NoJump)
    ensures Effect(Wide(DecSp16Bit), params, s) == (s.(regs := s.regs.(sp := (s.regs.sp - 1) % 0x10000)), NoJump)
  {
  }

  /**
    * ADD HL,rr: HL becomes HL + rr modulo 65536, and F keeps only bit 7, with bits 0 and 1 set
    * exactly when the sum carried out of bit 15.
    */
  lemma AddPairToHl(source1: Reg, source2: Reg, params: seq<bv8>, s: Machine)
    requires s.mem.WellSized() && IsValidPair(source1, source2)
    ensures var t := Effect(Wide(Add16Bit(source1, source2)), params, s).0.regs;
      var hl, x := ReadPair(s.regs, H, L).0, ReadPair(s.regs, source1, source2).0;
      && ReadPair(t, H, L).0 == (hl + x) % 0x10000
      && Get(t, F) == (Get(s.regs, F) & 0x80) | (if hl + x >= 0x10000 then 3 else 0)
  {
    AddToHlResult(s.regs, ReadPair(s.regs, source1, source2).0);
  }

  /** ADD HL,SP: the same sum and flags with SP as the addend. */
  lemma AddSpToHl(params: seq<bv8>, s: Machine)
    requires s.mem.WellSized()
    ensures var t := Effect(Wide(Add16BitFromSp), params, s).0.regs;
      var hl := ReadPair(s.regs, H, L).0;
      && ReadPair(t, H, L).0 == (hl + s.regs.sp) % 0x10000
      && Get(t, F) == (Get(s.regs, F) & 0x80) | (if hl + s.regs.sp >= 0x10000 then 3 else 0)
  {
    AddToHlResult(s.regs, s.regs.sp);
  }

  /**
    * ADD SP,e with e the signed parameter: SP becomes SP + e modulo 65536, and F holds only the
    * carry out of the low byte (bit 0) and, for e >= 0, the carry out of the low nibble (bit 1);
    * for e < 0, bit 0 is the borrow from the low byte.
    */
  lemma AddToSp(params: seq<bv8>, s: Machine)
    requires s.mem.WellSized() && |params| >= 1
    ensures var t := Effect(Wide(AddSp16Bit), params, s).0.regs;
      var e := TwosComplement(params[0]);
      && t.sp == (s.regs.sp + e) % 0x10000
      && (e >= 0 ==>
            Get(t, F) as int ==
            (if s.regs.sp % 0x100 + e >= 0x100 then 1 else 0) + (if s.regs.sp % 0x10 + e % 0x10 >= 0x10 then 2 else 0))
      && (e < 0 ==> Get(t, F) as int == (if s.regs.sp % 0x100 < -e then 1 else 0))
  {
    AddSpFlagsMeaning(s.regs.sp, TwosComplement(params[0]));
  }

  /**
    * CPL complements A and sets F bits 5 and 6 (`Effect` passes its registers through unchanged
    * otherwise); applying it twice restores A and leaves F as the first application set it.
    */
  lemma ComplementTwice(params: seq<bv8>, regs: RegisterState)
    ensures var once := WideEffect(Cpl, params, regs);
      && Get(once, A) == !Get(regs, A)
      && Get(once, F) == Get(regs, F) | 0x60
      && Get(WideEffect(Cpl, params, once), A) == Get(regs, A)
      && Get(WideEffect(Cpl, params, once), F) == Get(once, F)
  {
    CplResult(params, regs);
    CplResult(params, WideEffect(Cpl, params, regs));
  }

  lemma CplResult(params: seq<bv8>, regs: RegisterState)
    ensures Get(WideEffect(Cpl, params, regs), A) == !Get(regs, A)
    ensures Get(WideEffect(Cpl, params, regs), F) == Get(regs, F) | 0x60
  {
    ComplementBits(Get(regs, A), Get(regs, F));
  }

  /** XOR with 0xFF complements, complementing twice restores, and setting bits twice sets them once. */
  lemma ComplementBits(a: bv8, f: bv8)
    ensures a ^ 0xFF == !a && !!a == a && (f | 0x60) | 0x60 == f | 0x60
  {
  }

  /** DAA adjusts A by 0x06 and 0x60 as its two steps fire and sets F as `DaaFlags` says. */
  lemma DecimalAdjustment(params: seq<bv8>, s: Machine)
    requires s.mem.WellSized()
    ensures var t := Effect(Wide(Daa), params, s).0.regs;
      var a, f := Get(s.regs, A), Get(s.regs, F);
      && Get(t, A) == a + (if DaaLowAdjust(a, f) then 0x06 else 0) + (if DaaHighAdjust(a, f) then 0x60 else 0)
      && Get(t, F) & 0xB6 == 0
      && (Get(t, F) & 0x08 != 0 <==> Get(t, A) == 0)
  {
    DaaValue(Get(s.regs, A), Get(s.regs, F));
    DaaFlags(Get(s.regs, A), Get(s.regs, F));
  }

  /** The unconditional instruction a conditional one performs when its condition holds. */
  function Unconditional(op: ControlOp): (r: ControlOp)
    requires IsConditional(op)
    ensures !IsConditional(r) && ParamsRead(Control(r)) == ParamsRead(Control(op))
  {
    match op
    case ConditionalJump(_) => Jump
    case ConditionalJumpImmediate(_) => JumpImmediate
    case CallConditional(_) => Call
    case ReturnConditional(_) => Return
  }

  /**
    * A conditional jump, JR, call or return is taken exactly when its condition holds; taken, it
    * does what its unconditional form does, and not taken it returns {false, 0} and changes nothing.
    */
  lemma ConditionalBranches(op: ControlOp, params: seq<bv8>, s: Machine)
    requires Ready(Control(op), params, s) && IsConditional(op)
    ensures Effect(Control(op), params, s).1.shouldJump <==> ConditionHolds(op.condition, Get(s.regs, F))
    ensures !ConditionHolds(op.condition, Get(s.regs, F)) ==> Effect(Control(op), params, s) == (s, NoJump)
    ensures ConditionHolds(op.condition, Get(s.regs, F)) ==>
      Ready(Control(Unconditional(op)), params, s)
      && Effect(Control(op), params, s) == Effect(Control(Unconditional(op)), params, s)
  {
  }

  /** JP goes to params[0], the high byte being shifted out; JR goes to PC + params[0] read unsigned. */
  lemma JumpTargets(params: seq<bv8>, s: Machine)
    requires s.mem.WellSized() && |params| >= 2
    ensures Effect(Control(Jump), params, s) == (s, Address(true, params[0] as int))
    ensures Effect(Control(JumpImmediate), params, s) == (s, Address(true, (s.regs.pc + params[0] as int) % 0x10000))
  {
  }

  /** JP HL goes to the value of HL. */
  lemma JumpHlTarget(params: seq<bv8>, s: Machine)
    requires s.mem.WellSized()
    ensures Effect(Control(JumpHl), params, s) == (s, Address(true, Get(s.regs, H) as int * 0x100 + Get(s.regs, L) as int))
  {
  }

  /** CALL and RST set SP to PC without writing memory and go to params[0] or the fixed vector. */
  lemma CallTargets(params: seq<bv8>, s: Machine, vector: Word)
    requires s.mem.WellSized() && |params| >= 2
    ensures Effect(Control(Call), params, s) == (s.(regs := s.regs.(sp := s.regs.pc)), Address(true, params[0] as int))
    ensures Effect(Control(Restart(vector)), params, s) == (s.(regs := s.regs.(sp := s.regs.pc)), Address(true, vector))
  {
  }

  /** RET and RETI go to the value of SP and change nothing. */
  lemma ReturnTargets(params: seq<bv8>, s: Machine)
    requires s.mem.WellSized()
    ensures Effect(Control(Return), params, s) == (s, Address(true, s.regs.sp))
    ensures Effect(Control(Reti), params, s) == (s, Address(true, s.regs.sp))
  {
  }

  // ---------------------------------------------------------------------------------------------
  // Execution on the register file and the memory map it is wired to

  /** The register file and the memory map, as values. */
  function Snapshot(regs: Registers): (s: Machine)
    requires regs.Valid()
    reads regs, regs.mmu.Repr
    ensures s.mem.WellSized()
  {
    Machine(regs.State(), regs.mmu.Contents())
  }

  /** Executes one instruction: the `Execute` method of its kind. */
  method Execute(ins: Instruction, params: seq<bv8>, regs: Registers) returns (target: Address)
    requires regs.Valid() && Ready(ins, params, Snapshot(regs))
    modifies regs, regs.mmu.Repr
    ensures regs.Valid()
    ensures (Snapshot(regs), target) == Effect(ins, params, old(Snapshot(regs)))
  {
    match ins
    case Load(op) =>
      ExecuteLoad(op, params, regs);
      target := NoJump;
    case Alu(op) =>
      ExecuteAlu(op, regs);
      target := NoJump;
    case Wide(op) =>
      ExecuteWide(op, params, regs);
      target := NoJump;
    case Control(op) =>
      target := ExecuteControl(op, params, regs);
  }

  method ExecuteLoad(op: LoadOp, params: seq<bv8>, regs: Registers)
    requires regs.Valid() && Ready(Load(op), params, Snapshot(regs))
    modifies regs, regs.mmu.Repr
    ensures regs.Valid()
    ensures Snapshot(regs) == LoadEffect(op, params, old(Snapshot(regs)))
  {
    match op
    case LoadImmediate(dest) =>
      regs.WriteRegister(dest, params[0]);
    case LoadRegister(dest, source) =>
      var value := regs.ReadRegister(source);
      regs.WriteRegister(dest, value);
    case LoadRegisterWithOffset(dest, memAddr, offsetReg) =>
      var offset := regs.ReadRegister(offsetReg);
      var value := regs.mmu.ReadAt(OffsetAddress(memAddr, offset));
      regs.WriteRegister(dest, value);
    case LoadMemoryWithRegister(memAddr, offset, source) =>
      var offsetValue := regs.ReadRegister(offset);
      var value := regs.ReadRegister(source);
      regs.mmu.WriteByte(OffsetAddress(memAddr, offsetValue), value);
    case LoadTwoByteImmediate(dest1, dest2) =>
      regs.WriteRegister(dest1, params[0]);
      regs.WriteRegister(dest2, params[1]);
  }

  /** The 8-bit arithmetic and logic instructions, one method per kind. */
  method ExecuteAlu(op: AluOp, regs: Registers)
    modifies regs
    ensures regs.State() == AluEffect(op, old(regs.State()))
  {
    match op
    case Add(source) => ExecuteAdd(source, regs);
    case AddCarry(_) =>
    case Sub(source) => ExecuteSub(source, regs);
    case SubCarry(_) =>
    case And(source) => ExecuteAnd(source, regs);
    case Or(source) => ExecuteOr(source, regs);
    case Xor(source) => ExecuteXor(source, regs);
    case Cp(source) => ExecuteCp(source, regs);
    case Inc(source) => ExecuteInc(source, regs);
    case Dec(source) => ExecuteDec(source, regs);
  }

  method ExecuteAdd(source: Reg, regs: Registers)
    modifies regs
    ensures regs.State() == Set(old(regs.State()), A, AluResult(Add(source), Get(old(regs.State()), A), Get(old(regs.State()), source)))
  {
    var x := regs.ReadRegister(source);
    var a := regs.ReadRegister(A);
    regs.WriteRegister(A, x + a);
  }

  method ExecuteSub(source: Reg, regs: Registers)
    modifies regs
    ensures regs.State() == Set(old(regs.State()), A, AluResult(Sub(source), Get(old(regs.State()), A), Get(old(regs.State()), source)))
  {
    var a := regs.ReadRegister(A);
    var x := regs.ReadRegister(source);
    regs.WriteRegister(A, a - x);
  }

  method ExecuteAnd(source: Reg, regs: Registers)
    modifies regs
    ensures regs.State() == Set(old(regs.State()), A, AluResult(And(source), Get(old(regs.State()), A), Get(old(regs.State()), source)))
  {
    var a := regs.ReadRegister(A);
    var x := regs.ReadRegister(source);
    regs.WriteRegister(A, a & x);
  }

  method ExecuteOr(source: Reg, regs: Registers)
    modifies regs
    ensures regs.State() == Set(old(regs.State()), A, AluResult(Or(source), Get(old(regs.State()), A), Get(old(regs.State()), source)))
  {
    var a := regs.ReadRegister(A);
    var x := regs.ReadRegister(source);
    regs.WriteRegister(A, a | x);
  }

  method ExecuteXor(source: Reg, regs: Registers)
    modifies regs
    ensures regs.State() == Set(old(regs.State()), A, AluResult(Xor(source), Get(old(regs.State()), A), Get(old(regs.State()), source)))
  {
    var a := regs.ReadRegister(A);
    var x := regs.ReadRegister(source);
    regs.WriteRegister(A, a ^ x);
  }

  /** CP computes the difference and drops it. */
  method ExecuteCp(source: Reg, regs: Registers)
    modifies regs
    ensures regs.State() == old(regs.State())
  {
    var a := regs.ReadRegister(A);
    var x := regs.ReadRegister(source);
    var difference := a - x;
  }

  method ExecuteInc(source: Reg, regs: Registers)
    modifies regs
    ensures regs.State() == Set(old(regs.State()), source, AluResult(Inc(source), Get(old(regs.State()), source), 0))
  {
    var x := regs.ReadRegister(source);
    regs.WriteRegister(source, x + 1);
  }

  method ExecuteDec(source: Reg, regs: Registers)
    modifies regs
    ensures regs.State() == Set(old(regs.State()), source, AluResult(Dec(source), Get(old(regs.State()), source), 0))
  {
    var x := regs.ReadRegister(source);
    regs.WriteRegister(source, x - 1);
  }

  /** The 16-bit arithmetic instructions, DAA and CPL, one method per kind. */
  method ExecuteWide(op: WideOp, params: seq<bv8>, regs: Registers)
    requires |params| >= ParamsRead(Wide(op))
    modifies regs
    ensures regs.State() == WideEffect(op, params, old(regs.State()))
  {
    match op
    case Add16Bit(source1, source2) => ExecuteAdd16Bit(source1, source2, regs);
    case Add16BitFromSp => ExecuteAdd16BitFromSp(regs);
    case AddSp16Bit => ExecuteAddSp16Bit(params[0], regs);
    case Inc16Bit(source1, source2) => ExecuteInc16Bit(source1, source2, regs);
    case IncSp16Bit => ExecuteIncSp16Bit(regs);
    case Dec16Bit(source1, source2) => ExecuteDec16Bit(source1, source2, regs);
    case DecSp16Bit => ExecuteDecSp16Bit(regs);
    case Daa => ExecuteDaa(regs);
    case Cpl => ExecuteCpl(regs);
  }

  method ExecuteAdd16Bit(source1: Reg, source2: Reg, regs: Registers)
    modifies regs
    ensures regs.State() == AddToHl(old(regs.State()), ReadPair(old(regs.State()), source1, source2).0)
  {
    var value, status := regs.ReadRegisterPair(source1, source2);
    AddToHlInPlace(regs, value);
  }

  method ExecuteAdd16BitFromSp(regs: Registers)
    modifies regs
    ensures regs.State() == AddToHl(old(regs.State()), old(regs.State()).sp)
  {
    var sp := regs.ReadSP();
    AddToHlInPlace(regs, sp);
  }

  /** The shared body of ADD HL,rr and ADD HL,SP. */
  method AddToHlInPlace(regs: Registers, value: Word)
    modifies regs
    ensures regs.State() == AddToHl(old(regs.State()), value)
  {
    var flags := regs.ReadRegister(F);
    flags := flags & 0x80;
    var hl, status := regs.ReadRegisterPair(H, L);
    if Wrap16(value + hl) < hl {
      flags := flags + 3;
    }
    var written := regs.WriteRegisterPair(H, L, Wrap16(value + hl));
    regs.WriteRegister(F, flags);
  }

  method ExecuteAddSp16Bit(param: bv8, regs: Registers)
    modifies regs
    ensures var before, immediate := old(regs.State()), TwosComplement(param);
      regs.State() == Set(before.(sp := Wrap16(before.sp + immediate)), F, AddSpFlagByte(before.sp, immediate))
  {
    var immediate := TwosComplement(param);
    var sp := regs.ReadSP();
    var flags := AddSpCarries(sp, immediate);
    regs.WriteSP(Wrap16(sp + immediate));
    regs.WriteRegister(F, flags);
  }

  /** The carry tests of ADD SP,e, on the integer values of SP and e. */
  method AddSpCarries(sp: Word, immediate: int) returns (flags: bv8)
    ensures flags == AddSpFlagByte(sp, immediate)
  {
    var sum := 0;
    if immediate < 0 {
      if (sp + immediate) % 0x100 > sp % 0x100 {
        sum := sum + 1;
      }
    } else {
      if (sp + immediate) % 0x100 < sp % 0x100 {
        sum := sum + 1;
      }
      if (sp + immediate) % 0x10 < sp % 0x10 {
        sum := sum + 2;
      }
    }
    ByteRoundTrip(sum);
    flags := sum as bv8;
  }

  method ExecuteInc16Bit(source1: Reg, source2: Reg, regs: Registers)
    modifies regs
    ensures regs.State() == StepPair(old(regs.State()), source1, source2, 1)
  {
    var value, readStatus := regs.ReadRegisterPair(source1, source2);
    var writeStatus := regs.WriteRegisterPair(source1, source2, Wrap16(value as int + 1));
  }

  method ExecuteIncSp16Bit(regs: Registers)
    modifies regs
    ensures regs.State() == old(regs.State()).(sp := Wrap16(old(regs.State()).sp + 1))
  {
    var sp := regs.ReadSP();
    regs.WriteSP(Wrap16(sp as int + 1));
  }

  method ExecuteDec16Bit(source1: Reg, source2: Reg, regs: Registers)
    modifies regs
    ensures regs.State() == StepPair(old(regs.State()), source1, source2, -1)
  {
    var value, readStatus := regs.ReadRegisterPair(source1, source2);
    var writeStatus := regs.WriteRegisterPair(source1, source2, Wrap16(value as int - 1));
  }

  method ExecuteDecSp16Bit(regs: Registers)
    modifies regs
    ensures regs.State() == old(regs.State()).(sp := Wrap16(old(regs.State()).sp - 1))
  {
    var sp := regs.ReadSP();
    regs.WriteSP(Wrap16(sp as int - 1));
  }

  method ExecuteDaa(regs: Registers)
    modifies regs
    ensures var before := old(regs.State()); var (a, f) := DaaResult(Get(before, A), Get(before, F));
      regs.State() == Set(Set(before, A, a), F, f)
  {
    var a := regs.ReadRegister(A);
    var flagValue := regs.ReadRegister(F);
    var adjusted, flags := DecimalAdjust(a, flagValue);
    regs.WriteRegister(A, adjusted);
    regs.WriteRegister(F, flags);
  }

  /** The arithmetic of DAA on A and F. */
  method DecimalAdjust(a: bv8, flagValue: bv8) returns (adjusted: bv8, flags: bv8)
    ensures (adjusted, flags) == DaaResult(a, flagValue)
  {
    adjusted := a;
    flags := flagValue & 0x40;
    var carryPerformed := false;
    if (adjusted & 0x0F) > 9 || (flagValue & 0x20) == 0x20 {
      adjusted := adjusted + 0x06;
      carryPerformed := true;
    }
    if ((adjusted & 0xF0) >> 4) > 9 || (adjusted == 0 && carryPerformed) || (flagValue & 0x10) == 0x10 {
      if adjusted + 0x60 < adjusted {
        flags := flags + 1;
      }
      adjusted := adjusted + 0x60;
    }
    if adjusted == 0 {
      flags := flags + 8;
    }
  }

  method ExecuteCpl(regs: Registers)
    modifies regs
    ensures regs.State() == Set(Set(old(regs.State()), A, Get(old(regs.State()), A) ^ 0xFF), F, Get(old(regs.State()), F) | 0x60)
  {
    var a := regs.ReadRegister(A);
    regs.WriteRegister(A, a ^ 0xFF);
    var f := regs.ReadRegister(F);
    regs.WriteRegister(F, f | 0x60);
  }

  method ExecuteControl(op: ControlOp, params: seq<bv8>, regs: Registers) returns (target: Address)
    requires |params| >= ParamsUsed(Control(op), Get(regs.State(), F))
    modifies regs
    ensures (regs.State(), target) == ControlEffect(op, params, old(regs.State()))
  {
    match op
    case Noop =>
      target := NoJump;
    case Halt =>
      target := NoJump;
    case Stop =>
      target := NoJump;
    case Di =>
      target := NoJump;
    case Ei =>
      target := NoJump;
    case Jump =>
      target := Address(true, JumpTarget(params));
    case ConditionalJump(condition) =>
      var f := regs.ReadRegister(F);
      target := if ConditionHolds(condition, f) then Address(true, JumpTarget(params)) else NoJump;
    case JumpHl =>
      var hl, status := regs.ReadRegisterPair(H, L);
      target := if status != PairOk then NoJump else Address(true, hl);
    case JumpImmediate =>
      var pc := regs.ReadPC();
      target := Address(true, RelativeTarget(pc, params[0]));
    case ConditionalJumpImmediate(condition) =>
      var f := regs.ReadRegister(F);
      if ConditionHolds(condition, f) {
        var pc := regs.ReadPC();
        target := Address(true, RelativeTarget(pc, params[0]));
      } else {
        target := NoJump;
      }
    case Call =>
      var pc := regs.ReadPC();
      regs.WriteSP(pc);
      target := Address(true, JumpTarget(params));
    case CallConditional(condition) =>
      var f := regs.ReadRegister(F);
      if ConditionHolds(condition, f) {
        var pc := regs.ReadPC();
        regs.WriteSP(pc);
        target := Address(true, JumpTarget(params));
      } else {
        target := NoJump;
      }
    case Restart(vector) =>
      var pc := regs.ReadPC();
      regs.WriteSP(pc);
      target := Address(true, vector);
    case Return =>
      var sp := regs.ReadSP();
      target := Address(true, sp);
    case ReturnConditional(condition) =>
      var f := regs.ReadRegister(F);
      if ConditionHolds(condition, f) {
        var sp := regs.ReadSP();
        target := Address(true, sp);
      } else {
        target := NoJump;
      }
    case Reti =>
      var sp := regs.ReadSP();
      target := Address(true, sp);
  }
}
