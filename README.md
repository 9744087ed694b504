# A verified model of an early Game Boy emulator core

This project models the core of a small Game Boy emulator written in Go in Dafny:

- the CPU register file;
- the primary and the extended (0xCB) instruction sets;
- the memory map with its write side effects and interrupt flags;
- the bit helpers;
- tile addressing and sprite attributes;
- the background tile fetcher and the pixel unit;
- the LCD mode and scanline machine with its OAM sprite search;
- the divider timer.

Each part of the emulator that updates state in place is a class:

| class | holds |
|---|---|
| `Registers` | the register map, PC and SP |
| `Mmu` | one array per address region |
| `Fetcher` | the tile fetcher |
| `Ppu` | the pixel unit |
| `Display` | the LCD |
| `Timer` | the divider timer |

Each class is proved against pure functions on values:

- `RegisterState` for the register file;
- `Image` for the memory map, with `Read`/`Write`;
- `Effect` for the primary instructions;
- `ExtendedEffect` for the extended instructions;
- `DisplayTick` for the LCD;
- `TimerTick` for the timer.

Properties the emulator relies on are lemmas about those functions. Among them:

- a push followed by a pop returns the value when both stack bytes store verbatim;
- a write to internal RAM also shows at its echo address;
- firing an interrupt sets one IF bit;
- SWAP is an involution;
- four RLCs equal one SWAP;
- the fetcher cycles through four states;
- the sprite search keeps at most ten sprites, in a stable order;
- DIV never moves.

The emulator is modelled as written, quirks included:

- The flag layouts differ between instructions:
  - ADD HL and ADD SP write flag bits 0 and 1;
  - DAA writes its carry to bit 0 and its zero flag to bit 3;
  - the carry conditions test bit 3;
  - RL and RR take their carry in from bit 0.
- Go's shift rules:
  - `uint16(x) << 0xFF` is 0, so an absolute jump goes to its first parameter byte;
  - `byte(1 >> n)` is 0 for every n ≥ 1, so BIT, SET and RES act on bit 0 only.
- ADC, SBC and CP store nothing.
- CALL and RST copy PC into SP and push nothing.
- RRC, RR, SRA and SRL take their carry from bit 4.
- Writing STAT keeps its low bits, so `SetLCDStatusMode` never changes the mode, and the LCD stays in the mode it started in (`Lcd.TickKeepsMode`).
- The timer writes DIV + 1 to DIV, and the memory map stores every DIV write as 0, so DIV stays 0.

Bytes are `bv8`, so byte arithmetic wraps like Go's `uint8`. Addresses, PC, SP and pair values are `Word`, an `int` from 0 to 65535; Go's `uint16` wrap-around is `Bits.Wrap16`.

Reading 0xFF00 calls the joypad read, which reads 0xFF00 again and never returns. Every read therefore requires an address other than 0xFF00. For the same reason, every write requires that it does not start an OAM DMA from page 0xFF.

## Model

| member | source | states |
|---|---|---|
| Bits.Wrap16 | src/gbemu/register.go:77-81 | Go's 16-bit wrap-around: a value in range is kept, one up to 65535 above range loses 65536, one down to 65536 below zero gains 65536 |
| Bits.ShiftLeft16 | src/gbemu/instruction.go:760-763 | a 16-bit left shift by 16 or more yields 0 |
| Bits.ShiftLeftByte | src/gbemu/register.go:107-114 | shifting a 16-bit value left by 8 is its low byte times 256 |
| Bits.GetBit | src/gbemu/util.go:3-5 | the result is 0 or 1; for a bit below 8 it is 1 exactly when that bit of the value is set; for bit 8 and above it is 0 |
| Bits.GetBitUint16 | src/gbemu/util.go:7-9 | the result is 0 or 1, and 0 for bit 16 and above |
| Bits.GetBitUint16Selects | src/gbemu/util.go:7-9 | for each of the 16 bit numbers, GetBitUint16 is 1 exactly when that bit of the 16-bit value is set |
| Bits.BitsToNum | src/gbemu/util.go:11-21 | the result lies in 0..3 |
| Bits.BitsToNumBinary | src/gbemu/util.go:11-18 | for bits 0 and 1 the result is 2 × high + low |
| Bits.BitsToNumDefault | src/gbemu/util.go:18-20 | every input other than the three explicit combinations yields 3 |
| Bits.BitPairValue | src/gbemu/util.go:3-21 | BitsToNum of bits i+1 and i of a byte is (value >> i) & 3 for i ≤ 6, the palette decoding |
| Addressing.CreateMemoryAddresser | src/gbemu/memory_addresser.go:18-22 | the addresser keeps the mode it was created with |
| Addressing.GetAddress | src/gbemu/memory_addresser.go:24-34 | every address lies in 0x8000..0x90FF, inside VRAM |
| Addressing.GetAddressByMode | src/gbemu/memory_addresser.go:24-34 | mode 8000 gives 0x8000 + o; mode 8800 gives 0x9000 + o for o < 128 and 0x8800 + o otherwise |
| Addressing.GetAddressInjective | src/gbemu/memory_addresser.go:24-34 | for a fixed mode, two offsets with the same address are equal |
| Colors.ColorMapping | src/gbemu/mmu.go:155-162 | the shade map has exactly the keys 0, 1, 2 and 3 |
| RegisterFile.Set | src/gbemu/register.go:103-105 | the written register reads the new value; every other register, PC and SP are unchanged |
| RegisterFile.Initial | src/gbemu/register.go:50-68 | PC and SP are 0; the map holds exactly A, B, C, D, E, F, H and L, all 0 |
| RegisterFile.CombineBytes | src/gbemu/register.go:112-122 | splitting a 16-bit value into high and low bytes and combining them restores it |
| RegisterFile.ReadPair | src/gbemu/register.go:107-114 | a valid pair reads high × 256 + low; an invalid pair reads 0 with an error |
| RegisterFile.WritePairThenRead | src/gbemu/register.go:116-124 | on a valid pair the first register gets v >> 8, the second v & 0xFF, the pair reads back v, and nothing else changes; an invalid pair gives an error and changes nothing |
| RegisterFile.Push | src/gbemu/register.go:77-81 | SP decreases by 2 modulo 65536 and nothing else in the registers changes |
| RegisterFile.Pop | src/gbemu/register.go:70-75 | SP increases by 2 modulo 65536 and nothing else in the registers changes |
| RegisterFile.PushThenPop | src/gbemu/register.go:70-81 | a push of v followed by a pop returns v and restores the registers, when the two stack bytes store verbatim |
| RegisterFile.Registers.constructor | src/gbemu/register.go:50-68 | a new register file is `Initial()` |
| RegisterFile.Registers.ReadRegister | src/gbemu/register.go:99-101 | returns the register's value |
| RegisterFile.Registers.WriteRegister | src/gbemu/register.go:103-105 | the new state is `Set` of the old one |
| RegisterFile.Registers.ReadPC | src/gbemu/register.go:91-93 | returns PC |
| RegisterFile.Registers.WritePC | src/gbemu/register.go:95-97 | only PC changes, to the value |
| RegisterFile.Registers.ReadSP | src/gbemu/register.go:83-85 | returns SP |
| RegisterFile.Registers.WriteSP | src/gbemu/register.go:87-89 | only SP changes, to the value |
| RegisterFile.Registers.ValidRegisterPair | src/gbemu/register.go:126-134 | the loop search answers true exactly for (A,F), (B,C), (D,E) and (H,L) in that order |
| RegisterFile.Registers.ReadRegisterPair | src/gbemu/register.go:107-114 | value and error are those of `ReadPair` |
| RegisterFile.Registers.WriteRegisterPair | src/gbemu/register.go:116-124 | the new state and the error are those of `WritePair` |
| RegisterFile.Registers.PushSP | src/gbemu/register.go:77-81 | registers and memory become those of `Push`: low byte at SP, high byte at SP+1, SP − 2 |
| RegisterFile.Registers.PopSP | src/gbemu/register.go:70-75 | SP + 2 first, then the value read at the new SP and SP+1; memory is unchanged |
| Memory.Interrupt.Bit | src/gbemu/mmu.go:99-107 | each interrupt source has its bit number, below 5 |
| Memory.Blank | src/gbemu/mmu.go:148-153 | the memory map as created has every region at its size |
| Memory.DmaSource | src/gbemu/mmu.go:444-449 | for a page other than 0xFF, no DMA source address is 0xFF00 |
| Memory.OamAddress | src/gbemu/mmu.go:444-449 | the i-th DMA destination lies in OAM, 0xFE00..0xFE9F |
| Memory.Dma | src/gbemu/mmu.go:444-449 | the OAM a transfer leaves keeps every region at its size (its bytes are stated by `DmaCopiesPage`) |
| Memory.Write | src/gbemu/mmu.go:231-282 | every region keeps its size after a write |
| Memory.WriteInternalRamEchoes | src/gbemu/mmu.go:244-247 | a byte written to 0xC000..0xDDFF reads back at its address and at address + 0x2000 |
| Memory.UnusedRegion | src/gbemu/mmu.go:258-259 | a write to 0xFEA0..0xFEFF changes nothing, and those addresses read 0 |
| Memory.IoWriteRules | src/gbemu/mmu.go:260-272 | JOYP stores value & 0x30, DIV stores 0, STAT stores (value & 0x78) \| (old & 0x87), every other I/O register stores the value |
| Memory.WriteIoRegister | src/gbemu/mmu.go:260-272 | an I/O write other than DMA changes only that I/O port |
| Memory.WriteThenRead | src/gbemu/mmu.go:188-282 | a byte written to an address that stores verbatim reads back unchanged |
| Memory.WriteLeavesOthers | src/gbemu/mmu.go:188-282 | a write changes no other readable address, except the echo of internal RAM and OAM under DMA |
| Memory.DmaCopiesPage | src/gbemu/mmu.go:264-265 | writing v to 0xFF46 copies the 160 bytes at (v << 8) + i to 0xFE00 + i, and 0xFF46 then reads v |
| Memory.LcdStatusMode | src/gbemu/mmu.go:284-286 | the mode is STAT & 3, so at most 3 |
| Memory.WithStatusMode | src/gbemu/mmu.go:288-291 | every region keeps its size |
| Memory.SetStatusModeKeepsMode | src/gbemu/mmu.go:267 | requesting a mode leaves the mode unchanged, because STAT keeps its low bits; only the STAT port changes |
| Memory.CanAccessOam | src/gbemu/mmu.go:293-296 | OAM is accessible exactly in modes 0 and 1 |
| Memory.CanAccessVram | src/gbemu/mmu.go:298-301 | VRAM is accessible exactly outside mode 3 |
| Memory.WindowTileMap | src/gbemu/mmu.go:307-313 | the window map is 0x9C00 or 0x9800 |
| Memory.BgTileMap | src/gbemu/mmu.go:327-333 | the background map is 0x9C00 or 0x9800 |
| Memory.SpriteSize | src/gbemu/mmu.go:335-337 | the sprite size bit is 0 or 1 |
| Memory.LcdControlBits | src/gbemu/mmu.go:303-345 | each LCDC accessor tests its own bit of 0xFF40: enable 7, window map 6, window 5, address mode 4, background map 3, sprite size 2, sprites 1, background 0 |
| Memory.PaletteColor | src/gbemu/mmu.go:398-409 | colour numbers 0..2 select themselves and every other number selects colour 3 |
| Memory.SpritePaletteAddress | src/gbemu/mmu.go:374-396 | sprite palette n is read from 0xFF48 + n |
| Memory.ShadeForColorIsBitPair | src/gbemu/mmu.go:350-372 | colour c maps to the shade numbered by bits 2c+1 and 2c of the palette |
| Memory.ConvertNumToBgPixelDecoding | src/gbemu/mmu.go:398-409 | colour i in 0..2 is shade[(BGP >> 2i) & 3]; any other i uses bits 7-6 |
| Memory.ConvertNumToSpritePixelDecoding | src/gbemu/mmu.go:411-422 | sprite palettes 0 and 1 are OBP0 and OBP1, decoded like the background palette |
| Memory.HasPendingInterrupt | src/gbemu/mmu.go:424-426 | an interrupt is pending exactly when IE & IF is not 0 |
| Memory.InterruptMapping | src/gbemu/mmu.go:164-172 | the vector map has exactly the keys 0..4 |
| Memory.GetNextPendingInterrupt | src/gbemu/mmu.go:428-430 | bit k maps to vector 0x40 + 8k |
| Memory.WithInterruptCleared | src/gbemu/mmu.go:432-437 | every region keeps its size |
| Memory.WithInterruptFired | src/gbemu/mmu.go:439-442 | every region keeps its size |
| Memory.InterruptWriteChangesIoOnly | src/gbemu/mmu.go:260-272 | writing IF changes only IF |
| Memory.ClearedInterruptBits | src/gbemu/mmu.go:432-437 | clearing bit k clears bit k and bits 5-7 of IF, keeps the other bits 0-4, and changes nothing but IF |
| Memory.FiredInterruptBits | src/gbemu/mmu.go:439-442 | firing an interrupt sets its bit of IF, keeps every other bit, and changes nothing but IF |
| Memory.FireThenClear | src/gbemu/mmu.go:424-442 | an interrupt enabled in IE is pending once fired, and clearing its bit clears it again |
| Memory.AfterReset | src/gbemu/mmu.go:174-186 | every region keeps its size |
| Memory.ResetValues | src/gbemu/mmu.go:174-186 | after a reset TIMA, TMA, TAC, SCY, SCX and LYC read 0, LCDC 0x91, BGP 0xFC, OBP0 and OBP1 0xFF; every other byte is unchanged |
| Memory.Mmu.Contents | src/gbemu/mmu.go:133-146 | the arrays hold a well-sized memory map |
| Memory.Mmu.constructor | src/gbemu/mmu.go:148-153 | a new memory map is `Blank()` |
| Memory.Mmu.ReadAt | src/gbemu/mmu.go:188-229 | returns `Read` of the contents: each region at address − base; 0xFEA0..0xFEFF read 0 |
| Memory.Mmu.WriteByte | src/gbemu/mmu.go:231-282 | the contents become `Write` of the old contents |
| Memory.Mmu.StartDma | src/gbemu/mmu.go:444-449 | the copy loop leaves the contents equal to `Dma` of the old contents |
| Memory.Mmu.SetLcdStatusMode | src/gbemu/mmu.go:288-291 | the contents become `WithStatusMode` of the old contents |
| Memory.Mmu.Reset | src/gbemu/mmu.go:174-186 | the contents become `AfterReset` of the old contents |
| Memory.Mmu.ClearHighestInterrupt | src/gbemu/mmu.go:432-437 | the contents become `WithInterruptCleared` of the old contents for the chosen bit |
| Memory.Mmu.FireInterrupt | src/gbemu/mmu.go:439-442 | the contents become `WithInterruptFired` of the old contents |
| Instructions.LoadDFromADecodesAsLoadE | src/gbemu/instruction.go:316-324 | opcode 0x57 has the same entry as 0x5F: it loads E from A |
| Instructions.AddSpDeclaresNoParameter | src/gbemu/instruction.go:457 | opcode 0xE8 declares 0 parameter bytes although ADD SP,e reads one |
| Instructions.TwosComplement | src/gbemu/instruction.go:834-836 | the result lies in −128..127: n for n < 128, n − 256 otherwise |
| Instructions.ConditionBits | src/gbemu/instruction.go:476-503 | NZ and Z test F bit 7 for 0 and 1; NC and C test F bit 3 |
| Instructions.JumpTarget | src/gbemu/instruction.go:760-763 | (params[1] << 0xFF) + params[0] is params[0] |
| Instructions.RelativeTarget | src/gbemu/instruction.go:782-785 | PC + the unsigned offset, modulo 65536 |
| Instructions.AddSpFlags | src/gbemu/instruction.go:608-636 | the flags lie in 0..3, and for e < 0 in 0..1 |
| Instructions.AddSpFlagsMeaning | src/gbemu/instruction.go:613-631 | for e ≥ 0: bit 0 is the carry out of the low byte, bit 1 the carry out of the low nibble; for e < 0: bit 0 is the borrow from the low byte |
| Instructions.AddSpFlagByte | src/gbemu/instruction.go:634 | the byte F receives equals the computed flags |
| Instructions.Add16FlagsMeaning | src/gbemu/instruction.go:654-691 | the wrap test is a carry out of bit 15: F is (F & 0x80) \| 3 on a carry, else F & 0x80 |
| Instructions.AddToHlResult | src/gbemu/instruction.go:654-691 | HL becomes HL + x modulo 65536 with those flags; no other register, PC or SP changes |
| Instructions.StepPairResult | src/gbemu/instruction.go:638-706 | a valid pair moves by ±1 modulo 65536 and nothing else changes; an invalid pair changes nothing |
| Instructions.DaaValue | src/gbemu/instruction.go:717-727 | A gains 0x06 when the first step fires and 0x60 when the second does, modulo 256 |
| Instructions.DaaFlags | src/gbemu/instruction.go:711-733 | F keeps bit 6, sets no bit in 0xB6, sets 0x08 exactly when the new A is 0, and 0x01 exactly when the second step overflows |
| Instructions.DaaKeepsDecimal | src/gbemu/instruction.go:708-735 | a valid BCD byte with the adjust flags clear is unchanged |
| Instructions.ParamsUsed | src/gbemu/instruction.go:765-826 | an instruction reads at most its parameter bytes, and all of them unless it is a conditional branch |
| Instructions.Effect | src/gbemu/instruction.go:522-832 | every instruction keeps the memory map well-sized |
| Instructions.LoadEffect | src/gbemu/instruction.go:526-550 | every load keeps the memory map well-sized |
| Instructions.EffectFrame | src/gbemu/instruction.go:522-832 | an instruction changes only its target registers, never PC, SP only when it may move it, memory only when it is a store, and returns {false, 0} unless it is a jump |
| Instructions.AccumulatorArithmetic | src/gbemu/instruction.go:552-588 | ADD, SUB, AND, OR and XOR store A op r modulo 256 in A |
| Instructions.IncrementDecrement | src/gbemu/instruction.go:596-606 | INC and DEC move their register by ±1 modulo 256 |
| Instructions.ComparisonsChangeNothing | src/gbemu/instruction.go:558-570 | ADC, SBC and CP change nothing and return {false, 0} (CP at lines 590-594) |
| Instructions.PairIncrements | src/gbemu/instruction.go:638-706 | INC rr and DEC rr move a valid pair by ±1 modulo 65536; an invalid pair stays |
| Instructions.SpIncrements | src/gbemu/instruction.go:649-652 | INC SP and DEC SP (lines 693-696) move SP by ±1 modulo 65536 and change nothing else |
| Instructions.AddPairToHl | src/gbemu/instruction.go:672-691 | ADD HL,rr: HL + rr modulo 65536; F keeps bit 7 and gains 3 on a carry out of bit 15 |
| Instructions.AddSpToHl | src/gbemu/instruction.go:654-670 | ADD HL,SP: the same sum and flags with SP |
| Instructions.AddToSp | src/gbemu/instruction.go:608-636 | ADD SP,e: SP + e modulo 65536 with F holding only the low-byte carry and, for e ≥ 0, the nibble carry |
| Instructions.ComplementTwice | src/gbemu/instruction.go:738-742 | CPL complements A and ORs 0x60 into F; applying it twice restores A |
| Instructions.CplResult | src/gbemu/instruction.go:738-742 | CPL leaves !A in A and F \| 0x60 in F |
| Instructions.ComplementBits | src/gbemu/instruction.go:738-742 | A xor 0xFF is the complement, complementing twice is the identity, and ORing 0x60 twice is ORing it once |
| Instructions.DecimalAdjustment | src/gbemu/instruction.go:708-735 | DAA as executed stores the adjusted A and flags with 0x08 exactly on a zero result |
| Instructions.Unconditional | src/gbemu/instruction.go:765-826 | each conditional branch has an unconditional form reading the same parameter bytes |
| Instructions.ConditionalBranches | src/gbemu/instruction.go:765-826 | a conditional branch is taken exactly when its condition holds, does what its unconditional form does when taken, and otherwise changes nothing and returns {false, 0} |
| Instructions.JumpTargets | src/gbemu/instruction.go:760-785 | JP nn goes to params[0]; JR goes to PC + params[0] modulo 65536 |
| Instructions.JumpHlTarget | src/gbemu/instruction.go:773-780 | JP HL goes to HL |
| Instructions.CallTargets | src/gbemu/instruction.go:795-813 | CALL sets SP to PC and goes to params[0]; RST sets SP to PC and goes to its vector |
| Instructions.ReturnTargets | src/gbemu/instruction.go:815-832 | RET and RETI go to SP and change nothing |
| Instructions.Snapshot | src/gbemu/register.go:41-48 | the register file and its memory map as one value, with a well-sized memory map |
| Instructions.Execute | src/gbemu/instruction.go:522-832 | executing an instruction leaves registers, memory and the returned transfer as `Effect` says |
| Instructions.ExecuteLoad | src/gbemu/instruction.go:526-550 | the loads as `LoadEffect` says |
| Instructions.ExecuteAlu | src/gbemu/instruction.go:552-606 | the 8-bit operations as `AluEffect` says |
| Instructions.ExecuteAdd | src/gbemu/instruction.go:552-556 | A becomes r + A |
| Instructions.ExecuteSub | src/gbemu/instruction.go:562-566 | A becomes A − r |
| Instructions.ExecuteAnd | src/gbemu/instruction.go:572-576 | A becomes A & r |
| Instructions.ExecuteOr | src/gbemu/instruction.go:578-582 | A becomes A \| r |
| Instructions.ExecuteXor | src/gbemu/instruction.go:584-588 | A becomes A ^ r |
| Instructions.ExecuteCp | src/gbemu/instruction.go:590-594 | nothing changes |
| Instructions.ExecuteInc | src/gbemu/instruction.go:596-600 | the register gains 1 |
| Instructions.ExecuteDec | src/gbemu/instruction.go:602-606 | the register loses 1 |
| Instructions.ExecuteWide | src/gbemu/instruction.go:608-742 | the 16-bit operations, DAA and CPL as `WideEffect` says |
| Instructions.ExecuteAdd16Bit | src/gbemu/instruction.go:672-691 | ADD HL,rr as `AddToHl` says |
| Instructions.ExecuteAdd16BitFromSp | src/gbemu/instruction.go:654-670 | ADD HL,SP as `AddToHl` says |
| Instructions.AddToHlInPlace | src/gbemu/instruction.go:654-691 | the shared ADD HL steps as `AddToHl` says |
| Instructions.ExecuteAddSp16Bit | src/gbemu/instruction.go:608-636 | SP + e and the flags of `AddSpFlagByte` |
| Instructions.AddSpCarries | src/gbemu/instruction.go:611-631 | the source's if-chain computes `AddSpFlagByte` |
| Instructions.ExecuteInc16Bit | src/gbemu/instruction.go:638-647 | the pair as `StepPair` by +1 says |
| Instructions.ExecuteIncSp16Bit | src/gbemu/instruction.go:649-652 | SP + 1 modulo 65536 |
| Instructions.ExecuteDec16Bit | src/gbemu/instruction.go:698-706 | the pair as `StepPair` by −1 says |
| Instructions.ExecuteDecSp16Bit | src/gbemu/instruction.go:693-696 | SP − 1 modulo 65536 |
| Instructions.ExecuteDaa | src/gbemu/instruction.go:708-735 | A and F become `DaaResult` |
| Instructions.DecimalAdjust | src/gbemu/instruction.go:709-731 | the source's steps compute `DaaResult` |
| Instructions.ExecuteCpl | src/gbemu/instruction.go:738-742 | A becomes A xor 0xFF, then F becomes F \| 0x60 |
| Instructions.ExecuteControl | src/gbemu/instruction.go:744-832 | registers and transfer as `ControlEffect` says |
| ExtendedInstructions.CreateExtendedInstructions | src/gbemu/extended_instruction.go:171-430 | the table has an entry for every one of the 256 opcodes |
| ExtendedInstructions.ExtendedTableLayout | src/gbemu/extended_instruction.go:171-430 | the table follows the row/column layout; register entries cost 8 and (HL) entries 16 except 0x1E at 8; 0x87, 0x97, 0xA7 and 0xB7 declare one parameter byte and the others none |
| ExtendedInstructions.LayoutOfBlock0 | src/gbemu/extended_instruction.go:173-204 | the same, for opcodes 0x00..0x1F |
| ExtendedInstructions.LayoutOfBlock1 | src/gbemu/extended_instruction.go:205-236 | the same, for opcodes 0x20..0x3F |
| ExtendedInstructions.LayoutOfBlock2 | src/gbemu/extended_instruction.go:237-268 | the same, for opcodes 0x40..0x5F |
| ExtendedInstructions.LayoutOfBlock3 | src/gbemu/extended_instruction.go:269-300 | the same, for opcodes 0x60..0x7F |
| ExtendedInstructions.LayoutOfBlock4 | src/gbemu/extended_instruction.go:301-332 | the same, for opcodes 0x80..0x9F |
| ExtendedInstructions.LayoutOfBlock5 | src/gbemu/extended_instruction.go:333-364 | the same, for opcodes 0xA0..0xBF |
| ExtendedInstructions.LayoutOfBlock6 | src/gbemu/extended_instruction.go:365-396 | the same, for opcodes 0xC0..0xDF |
| ExtendedInstructions.LayoutOfBlock7 | src/gbemu/extended_instruction.go:397-428 | the same, for opcodes 0xE0..0xFF |
| ExtendedInstructions.MaskIsBitZero | src/gbemu/extended_instruction.go:763 | byte(1 >> n) is 1 for n = 0 and 0 for every other n |
| ExtendedInstructions.SwapExchangesNibbles | src/gbemu/extended_instruction.go:432-465 | SWAP exchanges the nibbles, twice restores the operand, and sets F to 0x10 exactly on a zero operand |
| ExtendedInstructions.SwapNibblesValue | src/gbemu/extended_instruction.go:432-446 | the swapped byte is low nibble × 16 + high nibble |
| ExtendedInstructions.SwapNibblesTwice | src/gbemu/extended_instruction.go:432-446 | swapping twice is the identity, and the swap is 0 exactly when the operand is |
| ExtendedInstructions.LeftShifts | src/gbemu/extended_instruction.go:467-672 | RLC gives (2v mod 256) + v >> 7; RL gives (2v mod 256) + (F & 1); SLA gives 2v mod 256 |
| ExtendedInstructions.ShiftLeftOne | src/gbemu/extended_instruction.go:633-650 | v << 1 is 2v modulo 256 with bit 0 clear |
| ExtendedInstructions.LeftShiftFlags | src/gbemu/extended_instruction.go:467-672 | RLC and RL set F to 0x10 exactly when bit 7 was set; SLA adds 0x80 on a zero result |
| ExtendedInstructions.RightShifts | src/gbemu/extended_instruction.go:549-760 | RRC gives v >> 1 plus 0x80 when bit 4 is set; RR plus 0x80 when F bit 0 is set; SRL gives v >> 1 |
| ExtendedInstructions.ShiftRightOne | src/gbemu/extended_instruction.go:719-737 | v >> 1 is v div 2, below 0x80 |
| ExtendedInstructions.SraAddsOperand | src/gbemu/extended_instruction.go:674-692 | SRA adds v \| 0x80 to v >> 1: 0x00 gives 0x80 with F 0, 0x02 gives 0x83, 0x80 gives 0xC0 |
| ExtendedInstructions.RightShiftFlags | src/gbemu/extended_instruction.go:549-760 | RRC and RR set F to 0x10 exactly when bit 4 was set; SRL and SRA add 0x80 on a zero result |
| ExtendedInstructions.RlcRotates | src/gbemu/extended_instruction.go:467-483 | RLC is the rotation (v << 1) \| (v >> 7) |
| ExtendedInstructions.RotateSplits | src/gbemu/extended_instruction.go:467-483 | m + n RLCs are m RLCs followed by n |
| ExtendedInstructions.RlcFourTimes | src/gbemu/extended_instruction.go:432-483 | four RLCs equal one SWAP |
| ExtendedInstructions.RlcEightTimes | src/gbemu/extended_instruction.go:467-483 | eight RLCs restore the operand |
| ExtendedInstructions.CarryInIsLost | src/gbemu/extended_instruction.go:506-631 | a rotate or shift leaves F bit 0 clear, so a following RL or RR takes in 0 |
| ExtendedInstructions.BitTestsOnlyBitZero | src/gbemu/extended_instruction.go:762-790 | BIT 0 sets F to 0x20, plus 0x80 when bit 0 is clear; BIT 1..7 always set 0xA0 |
| ExtendedInstructions.SetResult | src/gbemu/extended_instruction.go:792-807 | SET ORs the mask into the operand |
| ExtendedInstructions.ClearMask | src/gbemu/extended_instruction.go:810 | RES's mask is the complement of byte(1 >> n) |
| ExtendedInstructions.ResetResult | src/gbemu/extended_instruction.go:809-825 | RES ANDs the complemented mask into the operand |
| ExtendedInstructions.SetAndResetBit | src/gbemu/extended_instruction.go:792-825 | SET 0 and RES 0 set and clear bit 0; for n ≥ 1 both leave the operand; RES after SET equals RES and SET after RES equals SET |
| ExtendedInstructions.Store | src/gbemu/extended_instruction.go:432-825 | storing an operand keeps the memory map well-sized |
| ExtendedInstructions.ExtendedEffect | src/gbemu/extended_instruction.go:432-825 | no extended instruction transfers control |
| ExtendedInstructions.ShiftStoresThenFlags | src/gbemu/extended_instruction.go:432-760 | a rotate, shift or SWAP stores the new operand and then writes F |
| ExtendedInstructions.BitStores | src/gbemu/extended_instruction.go:792-825 | SET and RES store the new operand and nothing else |
| ExtendedInstructions.ExtendedFrame | src/gbemu/extended_instruction.go:432-825 | an extended instruction changes only its register operand and, unless it is SET or RES, F; never PC or SP |
| ExtendedInstructions.MemoryFormWrites | src/gbemu/extended_instruction.go:447-825 | an (HL) form changes only the byte at HL in memory, never the registers it names |
| ExtendedInstructions.ExecuteExtended | src/gbemu/extended_instruction.go:432-825 | executing leaves the state `ExtendedEffect` says and returns no jump |
| ExtendedInstructions.ReadOperand | src/gbemu/extended_instruction.go:447-465 | reads the register, or the byte at HL |
| ExtendedInstructions.WriteOperand | src/gbemu/extended_instruction.go:447-465 | writes the register, or the byte at HL |
| ExtendedInstructions.ExecuteShift | src/gbemu/extended_instruction.go:432-760 | a rotate, shift or SWAP as `ExtendedEffect` says |
| ExtendedInstructions.ComputeShift | src/gbemu/extended_instruction.go:432-760 | the new operand and F are `ShiftValue` and `ShiftFlags` |
| ExtendedInstructions.ComputeSwap | src/gbemu/extended_instruction.go:432-446 | the source's SWAP steps compute `ShiftValue` and `ShiftFlags` |
| ExtendedInstructions.ComputeLeftShift | src/gbemu/extended_instruction.go:467-672 | the source's RLC, RL and SLA steps compute `ShiftValue` and `ShiftFlags` |
| ExtendedInstructions.ComputeRightShift | src/gbemu/extended_instruction.go:549-760 | the source's RRC, RR, SRA and SRL steps compute `ShiftValue` and `ShiftFlags` |
| ExtendedInstructions.ExecuteBit | src/gbemu/extended_instruction.go:762-790 | BIT as `ExtendedEffect` says |
| ExtendedInstructions.ExecuteSet | src/gbemu/extended_instruction.go:792-807 | SET as `ExtendedEffect` says |
| ExtendedInstructions.ExecuteReset | src/gbemu/extended_instruction.go:809-825 | RES as `ExtendedEffect` says |
| Oam.FromBytes | src/gbemu/oam.go:22-26 | a byte slice of any length other than 4 gives the all-zero attribute |
| Oam.ToBytes | src/gbemu/oam.go:27-32 | an attribute is four bytes: Y, X, tile and flags |
| Oam.FromBytesRoundTrip | src/gbemu/oam.go:22-33 | four bytes decode to Y, X, tile and flags in that order and encode back to the same bytes |
| Oam.GetYPosition | src/gbemu/oam.go:35-37 | returns the entry's Y byte, a value in 0..255 |
| Oam.GetXPosition | src/gbemu/oam.go:39-41 | returns the entry's X byte, a value in 0..255 |
| Oam.GetTileNumber | src/gbemu/oam.go:43-45 | returns the entry's tile-number byte, a value in 0..255 |
| Oam.GettersKeepBytes | src/gbemu/oam.go:35-45 | each getter returns its byte unchanged |
| Oam.PaletteNumber | src/gbemu/oam.go:59-65 | the palette number is 0 or 1 |
| Oam.FlagBits | src/gbemu/oam.go:47-65 | priority holds exactly when flags bit 7 is clear; horizontal flip is bit 5, vertical flip bit 6, palette number bit 4 |
| TileFetcher.FourFetchesCycle | src/gbemu/fetcher.go:67-80 | four fetches return to the starting state, and none of the three before it is that state |
| TileFetcher.OneDeliveryPerCycle | src/gbemu/fetcher.go:51-60 | of four consecutive fetches exactly one moves into the tile read, the one that returns pixels |
| TileFetcher.Fetcher.constructor | src/gbemu/fetcher.go:27-38 | a new fetcher is in the tile read with map number 0, tile 0, eight zero pixels, and the mode and maps the LCDC holds |
| TileFetcher.Fetcher.Fetch | src/gbemu/fetcher.go:40-61 | one step round the cycle; the tile is read in the tile-read state; pixels are returned exactly on the step into the tile read, as a fresh copy of the buffer |
| TileFetcher.Fetcher.Reset | src/gbemu/fetcher.go:63-65 | the map number becomes 0 and the state and tile are kept |
| TileFetcher.Fetcher.ReadTile | src/gbemu/fetcher.go:86-88 | the tile is the byte at the background map's start address |
| PixelUnit.Ppu.constructor | src/gbemu/ppu.go:13-18 | a new PPU has sixteen zero FIFO entries, can shift, and a fresh fetcher in the tile read |
| PixelUnit.Ppu.Tick | src/gbemu/ppu.go:20-26 | a tick steps the fetcher once and changes neither the FIFO nor memory, so the PPU can still shift |
| Lcd.SpriteHeight | src/gbemu/gpu.go:239-246 | sprites are 8 rows high when LCDC bit 2 is clear, 16 otherwise |
| Lcd.OamEntryBytes | src/gbemu/gpu.go:220-224 | OAM entry i is decoded from bytes 4i..4i+3 of OAM |
| Lcd.OnLineEntries | src/gbemu/gpu.go:219-229 | the entries covering a line are no more than the entries |
| Lcd.OnLineEntriesSelect | src/gbemu/gpu.go:226-228 | an attribute is kept exactly when it is an entry with Y − 16 ≤ LY < Y − 16 + height |
| Lcd.OnLinePrefix | src/gbemu/gpu.go:219-229 | scanning a prefix of OAM keeps a prefix of the covering entries |
| Lcd.VisibleSpritesChosen | src/gbemu/gpu.go:217-237 | at most ten sprites, each an OAM entry covering the line; the first ten covering entries in OAM order, all of them when there are at most ten; sorted stably |
| Lcd.OamSearchStep | src/gbemu/gpu.go:154-161 | the memory map stays well-sized |
| Lcd.HBlankStep | src/gbemu/gpu.go:169-185 | the memory map stays well-sized |
| Lcd.VBlankStep | src/gbemu/gpu.go:186-200 | the memory map stays well-sized |
| Lcd.DisplayTick | src/gbemu/gpu.go:148-202 | the memory map stays well-sized |
| Lcd.TickWhileDisabled | src/gbemu/gpu.go:149-151 | with the LCD off a tick changes nothing |
| Lcd.TickKeepsMode | src/gbemu/gpu.go:148-202 | no tick changes the LCD mode or the LCD enable bit, because every mode request keeps STAT's low bits |
| Lcd.HBlankKeepsMode | src/gbemu/gpu.go:169-185 | the horizontal-blank step keeps the mode and LCDC |
| Lcd.TickCounters | src/gbemu/gpu.go:153-200 | the count stays within 0..80 in OAM search, 0..376 in horizontal blank and 0..456 in vertical blank; pixel transfer adds 1 and changes no memory |
| Lcd.OamScanAtEighty | src/gbemu/gpu.go:154-161 | the OAM scan happens when the count is 80 and resets it; otherwise the count rises and the sprites stay |
| Lcd.HBlankLineEnd | src/gbemu/gpu.go:169-182 | at 376 the line advances and LY reads it; after line 143 the VBLANK bit of IF is set, otherwise IF is unchanged |
| Lcd.VBlankLineEnd | src/gbemu/gpu.go:186-197 | at 456 the count resets; after line 169 the line restarts at 0, otherwise it advances and LY reads it |
| Lcd.Display.constructor | src/gbemu/gpu.go:111-119 | a new display has count 0, line 0, ten empty sprite slots and the addresser for the LCDC's mode |
| Lcd.Display.Tick | src/gbemu/gpu.go:148-202 | line state and memory become `DisplayTick` of the old ones; the PPU's fetcher steps exactly in pixel transfer |
| Lcd.Display.OamSearchTick | src/gbemu/gpu.go:154-161 | as `OamSearchStep` says |
| Lcd.Display.PixelTransferTick | src/gbemu/gpu.go:162-168 | the count rises by 1, memory is unchanged, and the fetcher steps once |
| Lcd.Display.HBlankTick | src/gbemu/gpu.go:169-185 | as `HBlankStep` says |
| Lcd.Display.StartVBlank | src/gbemu/gpu.go:171-176 | the end of line 143, as `HBlankStep` says |
| Lcd.Display.StartNextLine | src/gbemu/gpu.go:177-182 | the end of any other line, as `HBlankStep` says |
| Lcd.Display.VBlankTick | src/gbemu/gpu.go:186-200 | as `VBlankStep` says |
| Lcd.Display.ReadOamEntry | src/gbemu/gpu.go:220-224 | the four reads decode OAM entry i |
| Lcd.Display.ReadOam | src/gbemu/gpu.go:217-237 | only the sprite list changes, to `VisibleSprites` of the memory map and the current line |
| Lcd.Display.ScanOam | src/gbemu/gpu.go:218-234 | the scan loop keeps the first ten entries covering the line, in OAM order |
| StableSort.InsertSorted | src/gbemu/gpu.go:236 | inserting into a sorted list keeps it sorted and adds exactly that element |
| StableSort.InsertStable | src/gbemu/gpu.go:236 | insertion places the element after every element with an equal key |
| StableSort.SortIsStable | src/gbemu/gpu.go:236 | the sort is sorted, a permutation, and keeps the order among equal keys |
| DividerTimer.DividerStaysZero | src/gbemu/timer.go:33-35 | incrementing DIV stores 0 there and changes nothing else |
| DividerTimer.CounterIncrements | src/gbemu/timer.go:37-39 | incrementing TIMA adds 1 modulo 256 and changes nothing else |
| DividerTimer.TickBounds | src/gbemu/timer.go:24-31 | the counter stays in 0..255; TIMA is never touched; 255 of 256 ticks change no memory; the 256th leaves DIV at 0 |
| DividerTimer.TicksBeforeWrap | src/gbemu/timer.go:24-31 | fewer than 256 ticks from 0 only count and touch no memory |
| DividerTimer.EveryTwoHundredFiftySixthTick | src/gbemu/timer.go:24-31 | 256 ticks from 0 increment DIV once and bring the counter back to 0, and DIV still reads 0 |
| DividerTimer.Timer.constructor | src/gbemu/timer.go:17-22 | a new timer has counter 0 |
| DividerTimer.Timer.Tick | src/gbemu/timer.go:24-31 | counter and memory become `TimerTick` of the old ones |
| DividerTimer.Timer.IncrementDivider | src/gbemu/timer.go:33-35 | memory becomes `IncrementedDivider` of the old memory |
| DividerTimer.Timer.IncrementCounter | src/gbemu/timer.go:37-39 | memory becomes `IncrementedCounter` of the old memory |

## Left out

- The OpenGL and GLFW presentation is not modelled: creating the window, `Render`, `updateDisplay` and the endless `Simulate` loop (src/gbemu/gpu.go:83-146, 204-211). It is foreign library code. When a frame ends, `VBlankStep` performs no refresh.
- src/gbemu/main.go (reading the ROM file, locking the OS thread, wiring the parts together) is not part of this model. Neither is src/gbemu/cpu.go, a struct with no behaviour.
- The CPU's fetch, decode and interrupt dispatch engine is not part of this model: no source file contains it.
- The joypad read is not modelled, because reading 0xFF00 never returns. Every read requires an address other than 0xFF00. Every write requires that it does not start a DMA from page 0xFF, whose copy would read 0xFF00.
- `GetHighestInterruptBit` is not part of this model. `Mmu.ClearHighestInterrupt` takes the chosen bit (below 5) as a parameter.
- `SortableSpriteAttribute` is not part of this model. Sprites are sorted by a stable insertion sort under a key function the display is given at creation.
- The memory map's `Tick` is not modelled: its body is empty.
- The `// ???` opcodes are not modelled: they are commented out of the opcode table.
- The debug output is not modelled: `fmt.Println`/`fmt.Printf`, `DumpContents` and the stack dump. Register-pair errors are modelled as a `PairStatus` result. An instruction that ignores such an error continues with the value 0, as the source does.
- `WriteSPImmediate` is not defined in register.go. ADD SP,e, INC SP and DEC SP are modelled as writing SP directly, as `WriteSP` does.
- Cycle counts and parameter-byte counts are modelled as declared in the tables, including the counts that do not match what an instruction reads:
  - opcode 0xE8 declares no parameter although ADD SP,e reads one;
  - extended opcodes 0x87, 0x97, 0xA7 and 0xB7 each declare one.
- `display.Tick` calls `ppu.Tick(sprites, lY)` and `ppu.Reset()`, which do not match the PPU in ppu.go. The display is modelled on ppu.go's PPU:
  - a pixel-transfer tick steps the PPU once;
  - `LineFinished` is always false there, so the request for horizontal blank and the PPU reset are never reached.
- The display's initial sprite list holds ten nil attributes. The model fills those ten slots with the all-zero attribute.
- The source's scan loop leaves with `break` once ten sprites are kept. `Display.ScanOam` puts that test in its loop condition instead; the behaviour is the same.
- ExtendedInstructions.SraAddsOperand: states SRA's value only on three sample operands. The general value, ((v >> 1) + (v | 0x80)) modulo 256, is `ShiftValue` itself. SRA's flags are stated for every operand in `RightShiftFlags`.
- Default branches that cannot be reached are left out. In the fetcher's `nextState`, the four states cover every value.
- Go's `int` counters (`currentTicks`, `lY`, the timer's `divider`) are unbounded integers: none of them comes near overflow. LY is written as the low byte of the line, like Go's `uint8(d.lY)`.
