// The register file (register.go): eight 8-bit registers, PC and SP, register pairs, and the
// stack push and pop through the memory map.

module RegisterFile {
  import opened Bits
  import opened Memory

  datatype Reg = A | B | C | D | E | F | H | L

  /** The register pairs that form 16-bit registers, high register first, in the source's order. */
  function ValidRegisterPairs(): seq<(Reg, Reg)>
  {
    [(A, F), (B, C), (D, E), (H, L)]
  }

  /** The four pairs, written out: AF, BC, DE and HL, and no other order. */
  predicate IsValidPair(reg1: Reg, reg2: Reg)
  {
    (reg1 == A && reg2 == F) || (reg1 == B && reg2 == C) || (reg1 == D && reg2 == E) || (reg1 == H && reg2 == L)
  }

  /** The result of a pair access: the error names the pair it refused. */
  datatype PairStatus = PairOk | InvalidPair(reg1: Reg, reg2: Reg)

  /** PC, SP and the 8-bit registers; a register that was never written reads 0, as a Go map does. */
  datatype RegisterState = RegisterState(regs: map<Reg, bv8>, pc: Word, sp: Word)

  function Get(s: RegisterState, reg: Reg): bv8
  {
    if reg in s.regs then s.regs[reg] else 0
  }

  function Set(s: RegisterState, reg: Reg, value: bv8): (r: RegisterState)
    ensures Get(r, reg) == value
    ensures forall other :: other != reg ==> Get(r, other) == Get(s, other)
    ensures r.pc == s.pc && r.sp == s.sp
  {
    s.(regs := s.regs[reg := value])
  }

  /** The register file as created: PC, SP and all eight registers 0. */
  function Initial(): (s: RegisterState)
    ensures s.pc == 0 && s.sp == 0
    ensures s.regs.Keys == {A, B, C, D, E, F, H, L}
    ensures forall reg :: Get(s, reg) == 0
  {
    RegisterState(map[A := 0, B := 0, C := 0, D := 0, E := 0, F := 0, H := 0, L := 0], 0, 0)
  }

  /** The high byte and the low byte of a 16-bit value. */
  function HighByte(value: Word): bv8 { (value / 0x100) as bv8 }
  function LowByte(value: Word): bv8 { (value % 0x100) as bv8 }

  /** Two bytes, high first, as a 16-bit value. */
  function Combine(high: bv8, low: bv8): Word
  {
    high as int * 0x100 + low as int
  }

  lemma CombineBytes(value: Word)
    ensures Combine(HighByte(value), LowByte(value)) == value
  {
    ByteRoundTrip(value / 0x100);
    ByteRoundTrip(value % 0x100);
  }

  /** The value of pair (reg1, reg2), or 0 with an error for a pair that is not one of the four. */
  function ReadPair(s: RegisterState, reg1: Reg, reg2: Reg): (r: (Word, PairStatus))
    ensures IsValidPair(reg1, reg2) ==> r == (Combine(Get(s, reg1), Get(s, reg2)), PairOk)
    ensures !IsValidPair(reg1, reg2) ==> r == (0, InvalidPair(reg1, reg2))
  {
    if !IsValidPair(reg1, reg2) then (0, InvalidPair(reg1, reg2))
    else (Combine(Get(s, reg1), Get(s, reg2)), PairOk)
  }

  /** Writing a pair stores the high byte in the first register and the low byte in the second. */
  function WritePair(s: RegisterState, reg1: Reg, reg2: Reg, value: Word): (r: (RegisterState, PairStatus))
  {
    if !IsValidPair(reg1, reg2) then (s, InvalidPair(reg1, reg2))
    else (Set(Set(s, reg1, HighByte(value)), reg2, LowByte(value)), PairOk)
  }

  /**
    * On a valid pair, a write splits the value over the two registers, changes no other
    * register, PC or SP, and reads back as the value written; on any other pair it fails and
    * changes nothing.
    */
  lemma WritePairThenRead(s: RegisterState, reg1: Reg, reg2: Reg, value: Word)
    ensures IsValidPair(reg1, reg2) ==>
      var s' := WritePair(s, reg1, reg2, value).0;
      && WritePair(s, reg1, reg2, value).1 == PairOk
      && Get(s', reg1) == HighByte(value) && Get(s', reg2) == LowByte(value)
      && (forall other :: other != reg1 && other != reg2 ==> Get(s', other) == Get(s, other))
      && s'.pc == s.pc && s'.sp == s.sp
      && ReadPair(s', reg1, reg2) == (value, PairOk)
    ensures !IsValidPair(reg1, reg2) ==>
      WritePair(s, reg1, reg2, value) == (s, InvalidPair(reg1, reg2))
  {
    if IsValidPair(reg1, reg2) {
      CombineBytes(value);
    }
  }

  /** Push is defined when neither byte write starts a DMA from page 0xFF. */
  predicate CanPush(s: RegisterState, value: Word)
  {
    CanWrite(s.sp, LowByte(value)) && CanWrite(Wrap16(s.sp + 1), HighByte(value))
  }

  /** Pushing writes the low byte at SP and the high byte at SP + 1, then moves SP down by 2. */
  function Push(s: RegisterState, m: Image, value: Word): (r: (RegisterState, Image))
    requires m.WellSized() && CanPush(s, value)
    ensures r.1.WellSized()
    ensures r.0 == s.(sp := Wrap16(s.sp - 2))
  {
    var m1 := Write(m, s.sp, LowByte(value));
    var m2 := Write(m1, Wrap16(s.sp + 1), HighByte(value));
    (s.(sp := Wrap16(s.sp - 2)), m2)
  }

  /** Pop is defined when neither byte read is the joypad register, whose read never returns. */
  predicate CanPop(s: RegisterState)
  {
    Wrap16(s.sp + 2) != JoypadInput && Wrap16(s.sp + 3) != JoypadInput
  }

  /** Popping first moves SP up by 2, then reads the low byte at SP and the high byte at SP + 1. */
  function Pop(s: RegisterState, m: Image): (r: (RegisterState, Word))
    requires m.WellSized() && CanPop(s)
    ensures r.0 == s.(sp := Wrap16(s.sp + 2))
  {
    var sp := Wrap16(s.sp + 2);
    (s.(sp := sp), Combine(Read(m, Wrap16(sp + 1)), Read(m, sp)))
  }

  /** A push followed by a pop returns the pushed value and restores SP, when both bytes read back. */
  lemma {:induction false} PushThenPop(s: RegisterState, m: Image, value: Word)
    requires m.WellSized() && CanPush(s, value)
    requires StoresVerbatim(s.sp) && StoresVerbatim(Wrap16(s.sp + 1))
    ensures CanPop(Push(s, m, value).0)
    ensures Pop(Push(s, m, value).0, Push(s, m, value).1) == (s, value)
  {
    var m1 := Write(m, s.sp, LowByte(value));
    var m2 := Write(m1, Wrap16(s.sp + 1), HighByte(value));
    WriteThenRead(m, s.sp, LowByte(value));
    WriteThenRead(m1, Wrap16(s.sp + 1), HighByte(value));
    WriteLeavesOthers(m1, Wrap16(s.sp + 1), s.sp, HighByte(value));
    CombineBytes(value);
  }

  class Registers {
    var pc: Word
    var sp: Word
    var regs: map<Reg, bv8>
    const mmu: Mmu

    ghost predicate Valid() {
      mmu.Valid() && this !in mmu.Repr
    }

    function State(): RegisterState
      reads this
    {
      RegisterState(regs, pc, sp)
    }

    constructor (mmu: Mmu)
      requires mmu.Valid()
      ensures Valid() && this.mmu == mmu
      ensures State() == Initial()
    {
      pc := 0;
      sp := 0;
      this.mmu := mmu;
      regs := map[A := 0, B := 0, C := 0, D := 0, E := 0, F := 0, H := 0, L := 0];
    }

    method ReadRegister(reg: Reg) returns (value: bv8)
      ensures value == Get(State(), reg)
    {
      value := if reg in regs then regs[reg] else 0;
    }

    method WriteRegister(reg: Reg, value: bv8)
      modifies this
      ensures State() == Set(old(State()), reg, value)
    {
      regs := regs[reg := value];
    }

    method ReadPC() returns (value: Word)
      ensures value == State().pc
    {
      value := pc;
    }

    method WritePC(value: Word)
      modifies this
      ensures State() == old(State()).(pc := value)
    {
      pc := value;
    }

    method ReadSP() returns (value: Word)
      ensures value == State().sp
    {
      value := sp;
    }

    method WriteSP(value: Word)
      modifies this
      ensures State() == old(State()).(sp := value)
    {
      sp := value;
    }

    /** Searches the table of valid pairs for (reg1, reg2). */
    method ValidRegisterPair(reg1: Reg, reg2: Reg) returns (valid: bool)
      ensures valid <==> IsValidPair(reg1, reg2)
    {
      var pairs := ValidRegisterPairs();
      for i := 0 to |pairs|
        invariant forall j :: 0 <= j < i ==> pairs[j] != (reg1, reg2)
      {
        if pairs[i].0 == reg1 && pairs[i].1 == reg2 {
          return true;
        }
      }
      assert pairs[0] != (reg1, reg2) && pairs[1] != (reg1, reg2);
      assert pairs[2] != (reg1, reg2) && pairs[3] != (reg1, reg2);
      return false;
    }

    method ReadRegisterPair(reg1: Reg, reg2: Reg) returns (value: Word, status: PairStatus)
      ensures (value, status) == ReadPair(State(), reg1, reg2)
    {
      var valid := ValidRegisterPair(reg1, reg2);
      if !valid {
        return 0, InvalidPair(reg1, reg2);
      }
      var high := ReadRegister(reg1);
      var low := ReadRegister(reg2);
      value, status := Combine(high, low), PairOk;
    }

    method WriteRegisterPair(reg1: Reg, reg2: Reg, value: Word) returns (status: PairStatus)
      modifies this
      ensures (State(), status) == WritePair(old(State()), reg1, reg2, value)
    {
      var valid := ValidRegisterPair(reg1, reg2);
      if !valid {
        return InvalidPair(reg1, reg2);
      }
      WriteRegister(reg1, HighByte(value));
      WriteRegister(reg2, LowByte(value));
      status := PairOk;
    }

    method PushSP(value: Word)
      requires Valid() && CanPush(State(), value)
      modifies this, mmu.Repr
      ensures (State(), mmu.Contents()) == Push(old(State()), old(mmu.Contents()), value)
    {
      mmu.WriteByte(sp, LowByte(value));
      mmu.WriteByte(Wrap16(sp + 1), HighByte(value));
      sp := Wrap16(sp - 2);
    }

    method PopSP() returns (value: Word)
      requires Valid() && CanPop(State())
      modifies this
      ensures (State(), value) == Pop(old(State()), mmu.Contents())
      ensures mmu.Contents() == old(mmu.Contents())
    {
      sp := Wrap16(sp + 2);
      var lsb := mmu.ReadAt(sp);
      var msb := mmu.ReadAt(Wrap16(sp + 1));
      value := Combine(msb, lsb);
    }
  }
}
