// The memory map (mmu.go): nine fixed regions behind one 16-bit address space, the side
// effects of writes, interrupt-flag bookkeeping, and the LCD control, status and palette
// registers.
//
// `Image` is the value the map holds and `Read`/`Write` say what `ReadAt`/`WriteByte` do to
// it; the class `Mmu` keeps the regions in arrays and is proved against those functions.

module Memory {
  import opened Bits
  import opened Colors
  import opened Addressing

  const JoypadInput: Word := 0xFF00
  const DividerRegister: Word := 0xFF04
  const TimerRegister: Word := 0xFF05
  const TimerModulo: Word := 0xFF06
  const TimerControl: Word := 0xFF07
  const InterruptFlags: Word := 0xFF0F
  const LcdControl: Word := 0xFF40
  const LcdcStatus: Word := 0xFF41
  const ScrollY: Word := 0xFF42
  const ScrollX: Word := 0xFF43
  const LcdcYCoordinate: Word := 0xFF44
  const LyCompare: Word := 0xFF45
  const DmaTransferAddress: Word := 0xFF46
  const BgWindowPalette: Word := 0xFF47
  const ObjectPalette0: Word := 0xFF48
  const ObjectPalette1: Word := 0xFF49
  const WindowYPosition: Word := 0xFF4A
  const WindowXPosition: Word := 0xFF4B
  const InterruptEnable: Word := 0xFFFF

  /** The five interrupt sources, in the order of their bits in IE and IF. */
  datatype Interrupt = VBlankInterrupt | LcdcStatusInterrupt | TimerInterrupt | SerialInterrupt | JoypadInterrupt
  {
    function Bit(): (b: nat)
      ensures b < 5
    {
      match this
      case VBlankInterrupt => 0
      case LcdcStatusInterrupt => 1
      case TimerInterrupt => 2
      case SerialInterrupt => 3
      case JoypadInterrupt => 4
    }
  }

  /** The contents of the memory map, region by region; the unused region 0xFEA0-0xFEFF holds nothing. */
  datatype Image = Image(
    rom: seq<bv8>,            // 0x0000 - 0x7FFF
    vram: seq<bv8>,           // 0x8000 - 0x9FFF
    switchableRam: seq<bv8>,  // 0xA000 - 0xBFFF
    internalRam: seq<bv8>,    // 0xC000 - 0xDFFF
    echoRam: seq<bv8>,        // 0xE000 - 0xFDFF, 8192 bytes of which the first 7680 are addressable
    oam: seq<bv8>,            // 0xFE00 - 0xFE9F
    ioPorts: seq<bv8>,        // 0xFF00 - 0xFF7F
    hram: seq<bv8>,           // 0xFF80 - 0xFFFE
    interruptEnable: bv8)     // 0xFFFF
  {
    predicate WellSized() {
      |rom| == 0x8000 && |vram| == 0x2000 && |switchableRam| == 0x2000 && |internalRam| == 0x2000
      && |echoRam| == 0x2000 && |oam| == 0xA0 && |ioPorts| == 0x80 && |hram| == 0x7F
    }
  }

  /** The memory map as created: every byte 0. */
  function Blank(): (m: Image)
    ensures m.WellSized()
  {
    Image(seq(0x8000, _ => 0), seq(0x2000, _ => 0), seq(0x2000, _ => 0), seq(0x2000, _ => 0),
          seq(0x2000, _ => 0), seq(0xA0, _ => 0), seq(0x80, _ => 0), seq(0x7F, _ => 0), 0)
  }

  /**
    * The byte read at `address`. Reading 0xFF00 goes through the joypad read, which reads
    * 0xFF00 again and never returns, so it is excluded; 0xFEA0-0xFEFF reads 0.
    */
  function Read(m: Image, address: Word): bv8
    requires m.WellSized() && address != JoypadInput
  {
    if 0x0000 <= address <= 0x7FFF then m.rom[address]
    else if 0x8000 <= address <= 0x9FFF then m.vram[address - 0x8000]
    else if 0xA000 <= address <= 0xBFFF then m.switchableRam[address - 0xA000]
    else if 0xC000 <= address <= 0xDFFF then m.internalRam[address - 0xC000]
    else if 0xE000 <= address <= 0xFDFF then m.echoRam[address - 0xE000]
    else if 0xFE00 <= address <= 0xFE9F then m.oam[address - 0xFE00]
    else if 0xFF00 <= address <= 0xFF7F then m.ioPorts[address - 0xFF00]
    else if 0xFF80 <= address <= 0xFFFE then m.hram[address - 0xFF80]
    else if address == InterruptEnable then m.interruptEnable
    else 0
  }

  /** The `i`-th byte an OAM DMA transfer from page `value` copies. */
  function DmaSource(value: bv8, i: nat): (a: Word)
    requires i < 0xA0
    ensures value != 0xFF ==> a != JoypadInput
  {
    (value as int) * 0x100 + i
  }

  /** Address of the `i`-th byte of OAM. */
  function OamAddress(i: nat): (a: Word)
    requires i < 0xA0
    ensures 0xFE00 <= a <= 0xFE9F
  {
    0xFE00 + i
  }

  /**
    * OAM after a DMA transfer from page `value`. A transfer from page 0xFF would read 0xFF00
    * and never return, so it is excluded.
    */
  function Dma(m: Image, value: bv8): (r: Image)
    requires m.WellSized() && value != 0xFF
    ensures r.WellSized()
  {
    m.(oam := seq(0xA0, i requires 0 <= i < 0xA0 => Read(m, DmaSource(value, i))))
  }

  /** STAT keeps its read-only bits 7, 2, 1 and 0 from `current` and takes bits 3-6 from `value`. */
  function StatusWrite(value: bv8, current: bv8): bv8
  {
    (value & 0x78) | (current & 0x87)
  }

  /** The value an I/O register keeps when `value` is written to it. */
  function StoredIoValue(m: Image, address: Word, value: bv8): bv8
    requires m.WellSized() && 0xFF00 <= address <= 0xFF7F
  {
    if address == DividerRegister then 0
    else if address == LcdcStatus then StatusWrite(value, m.ioPorts[0x41])
    else if address == JoypadInput then value & 0x30
    else value
  }

  /** A write returns unless it starts a DMA transfer from page 0xFF, which reads 0xFF00. */
  predicate CanWrite(address: Word, value: bv8)
  {
    !(address == DmaTransferAddress && value == 0xFF)
  }

  /** The addresses whose writes store the value unchanged and read back. */
  predicate StoresVerbatim(address: Word)
  {
    address != JoypadInput && address != DividerRegister && address != LcdcStatus
    && !(0xFEA0 <= address <= 0xFEFF)
  }

  /** The memory map after writing `value` at `address`. */
  function Write(m: Image, address: Word, value: bv8): (r: Image)
    requires m.WellSized() && CanWrite(address, value)
    ensures r.WellSized()
  {
    if 0x0000 <= address <= 0x7FFF then m.(rom := m.rom[address := value])
    else if 0x8000 <= address <= 0x9FFF then m.(vram := m.vram[address - 0x8000 := value])
    else if 0xA000 <= address <= 0xBFFF then m.(switchableRam := m.switchableRam[address - 0xA000 := value])
    else if 0xC000 <= address <= 0xDFFF then
      m.(internalRam := m.internalRam[address - 0xC000 := value],
         echoRam := m.echoRam[address - 0xC000 := value])
    else if 0xE000 <= address <= 0xFDFF then m.(echoRam := m.echoRam[address - 0xE000 := value])
    else if 0xFE00 <= address <= 0xFE9F then m.(oam := m.oam[address - 0xFE00 := value])
    else if 0xFEA0 <= address <= 0xFEFF then m
    else if 0xFF00 <= address <= 0xFF7F then
      var stored := StoredIoValue(m, address, value);
      var n := if address == DmaTransferAddress then Dma(m, value) else m;
      n.(ioPorts := n.ioPorts[address - 0xFF00 := stored])
    else if 0xFF80 <= address <= 0xFFFE then m.(hram := m.hram[address - 0xFF80 := value])
    else m.(interruptEnable := value)
  }

  // ---------------------------------------------------------------------------------------
  // What a write does

  /** Internal RAM is mirrored into echo RAM: the byte is readable at both addresses. */
  lemma WriteInternalRamEchoes(m: Image, address: Word, value: bv8)
    requires m.WellSized() && 0xC000 <= address <= 0xDDFF
    ensures Read(Write(m, address, value), address) == value
    ensures Read(Write(m, address, value), address + 0x2000) == value
  {
  }

  /** The unused region discards writes and reads as 0. */
  lemma UnusedRegion(m: Image, address: Word, value: bv8)
    requires m.WellSized() && 0xFEA0 <= address <= 0xFEFF
    ensures Write(m, address, value) == m
    ensures Read(m, address) == 0
  {
  }

  /** The I/O write rules: DIV resets, STAT keeps its read-only bits, the joypad keeps bits 4-5. */
  lemma IoWriteRules(m: Image, address: Word, value: bv8)
    requires m.WellSized() && 0xFF00 <= address <= 0xFF7F && address != DmaTransferAddress
    ensures address == JoypadInput ==> Write(m, address, value).ioPorts[0] == value & 0x30
    ensures address == DividerRegister ==> Read(Write(m, address, value), address) == 0
    ensures address == LcdcStatus ==>
      Read(Write(m, address, value), address) == (value & 0x78) | (Read(m, LcdcStatus) & 0x87)
    ensures address != JoypadInput && address != DividerRegister && address != LcdcStatus ==>
      Read(Write(m, address, value), address) == value
  {
  }

  /** Outside DMA, a write to an I/O register changes that register alone. */
  lemma WriteIoRegister(m: Image, address: Word, value: bv8)
    requires m.WellSized() && 0xFF00 <= address <= 0xFF7F && address != DmaTransferAddress
    ensures Write(m, address, value) ==
      m.(ioPorts := m.ioPorts[address - 0xFF00 := StoredIoValue(m, address, value)])
  {
  }

  /** A write stores the value at its address, wherever the address stores verbatim. */
  lemma WriteThenRead(m: Image, address: Word, value: bv8)
    requires m.WellSized() && CanWrite(address, value) && StoresVerbatim(address)
    ensures Read(Write(m, address, value), address) == value
  {
  }

  /** Apart from the echo mirror and a DMA's copy into OAM, a write changes no address but its own. */
  lemma WriteLeavesOthers(m: Image, address: Word, other: Word, value: bv8)
    requires m.WellSized() && CanWrite(address, value)
    requires !(address == DmaTransferAddress && 0xFE00 <= other <= 0xFE9F)
    requires other != address && other != JoypadInput
    requires !(0xC000 <= address <= 0xDDFF && other == address + 0x2000)
    ensures Read(Write(m, address, value), other) == Read(m, other)
  {
    if address <= 0xBFFF {
      WriteLeavesOthersIn(m, address, other, value, 0x0000, 0xBFFF);
    } else if address <= 0xFEFF {
      WriteLeavesOthersIn(m, address, other, value, 0xC000, 0xFEFF);
    } else {
      WriteLeavesOthersIn(m, address, other, value, 0xFF00, 0xFFFF);
    }
  }

  /** `WriteLeavesOthers` for writes to one of three address ranges, each proved on its own. */
  lemma WriteLeavesOthersIn(m: Image, address: Word, other: Word, value: bv8, low: Word, high: Word)
    requires m.WellSized() && CanWrite(address, value)
    requires !(address == DmaTransferAddress && 0xFE00 <= other <= 0xFE9F)
    requires (low, high) in {(0x0000, 0xBFFF), (0xC000, 0xFEFF), (0xFF00, 0xFFFF)}
    requires low <= address <= high
    requires other != address && other != JoypadInput
    requires !(0xC000 <= address <= 0xDDFF && other == address + 0x2000)
    ensures Read(Write(m, address, value), other) == Read(m, other)
  {
    if low == 0x0000 {
    } else if low == 0xC000 {
    } else {
    }
  }

  /** Writing a page number to DMA copies that page's first 160 bytes into OAM, then stores it. */
  lemma DmaCopiesPage(m: Image, value: bv8)
    requires m.WellSized() && value != 0xFF
    ensures forall i :: 0 <= i < 0xA0 ==>
      Read(Write(m, DmaTransferAddress, value), OamAddress(i)) == Read(m, DmaSource(value, i))
    ensures Read(Write(m, DmaTransferAddress, value), DmaTransferAddress) == value
  {
    var r := Write(m, DmaTransferAddress, value);
    forall i | 0 <= i < 0xA0
      ensures Read(r, OamAddress(i)) == Read(m, DmaSource(value, i))
    {
    }
  }

  // ---------------------------------------------------------------------------------------
  // LCD status, control and palettes

  /** The mode in the two low bits of STAT. */
  function LcdStatusMode(m: Image): (r: bv8)
    requires m.WellSized()
    ensures r <= 3
  {
    Read(m, LcdcStatus) & 0x03
  }

  /** Requesting an LCD mode: the old STAT with its two low bits replaced by `mode`, written back. */
  function WithStatusMode(m: Image, mode: bv8): (r: Image)
    requires m.WellSized()
    ensures r.WellSized()
  {
    Write(m, LcdcStatus, (Read(m, LcdcStatus) & 0xFC) + mode)
  }

  /**
    * The write rule for STAT keeps its three low bits, so requesting a mode never changes the
    * mode that is read back; only bits 3-6 can take the requested value's bits.
    */
  lemma SetStatusModeKeepsMode(m: Image, mode: bv8)
    requires m.WellSized()
    ensures LcdStatusMode(WithStatusMode(m, mode)) == LcdStatusMode(m)
    ensures Read(WithStatusMode(m, mode), LcdcStatus) ==
      (((Read(m, LcdcStatus) & 0xFC) + mode) & 0x78) | (Read(m, LcdcStatus) & 0x87)
    ensures WithStatusMode(m, mode) == m.(ioPorts := WithStatusMode(m, mode).ioPorts)
  {
  }

  function CanAccessOam(m: Image): (r: bool)
    requires m.WellSized()
    ensures r <==> LcdStatusMode(m) <= 1
  {
    var mode := LcdStatusMode(m);
    mode == 0 || mode == 1
  }

  function CanAccessVram(m: Image): (r: bool)
    requires m.WellSized()
    ensures r <==> LcdStatusMode(m) < 3
  {
    LcdStatusMode(m) != 3
  }

  function LcdEnabled(m: Image): bool
    requires m.WellSized()
  {
    GetBit(Read(m, LcdControl), 7) == 1
  }

  function WindowTileMap(m: Image): (r: Word)
    requires m.WellSized()
    ensures r == 0x9C00 || r == 0x9800
  {
    if GetBit(Read(m, LcdControl), 6) == 1 then 0x9C00 else 0x9800
  }

  function WindowDisplayEnabled(m: Image): bool
    requires m.WellSized()
  {
    GetBit(Read(m, LcdControl), 5) == 1
  }

  function BgAndWindowAddressMode(m: Image): AddressMode
    requires m.WellSized()
  {
    if GetBit(Read(m, LcdControl), 4) == 1 then Mode8000 else Mode8800
  }

  function BgTileMap(m: Image): (r: Word)
    requires m.WellSized()
    ensures r == 0x9C00 || r == 0x9800
  {
    if GetBit(Read(m, LcdControl), 3) == 1 then 0x9C00 else 0x9800
  }

  function SpriteSize(m: Image): (r: int)
    requires m.WellSized()
    ensures r == 0 || r == 1
  {
    GetBit(Read(m, LcdControl), 2)
  }

  function SpritesEnabled(m: Image): bool
    requires m.WellSized()
  {
    GetBit(Read(m, LcdControl), 1) == 1
  }

  function BgDisplayEnabled(m: Image): bool
    requires m.WellSized()
  {
    GetBit(Read(m, LcdControl), 0) == 1
  }

  /** Each LCDC accessor tests one fixed bit of 0xFF40, from bit 7 down to bit 0. */
  lemma LcdControlBits(m: Image)
    requires m.WellSized()
    ensures LcdEnabled(m) <==> Read(m, LcdControl) & 0x80 != 0
    ensures WindowTileMap(m) == 0x9C00 <==> Read(m, LcdControl) & 0x40 != 0
    ensures WindowDisplayEnabled(m) <==> Read(m, LcdControl) & 0x20 != 0
    ensures BgAndWindowAddressMode(m) == Mode8000 <==> Read(m, LcdControl) & 0x10 != 0
    ensures BgTileMap(m) == 0x9C00 <==> Read(m, LcdControl) & 0x08 != 0
    ensures SpriteSize(m) == 1 <==> Read(m, LcdControl) & 0x04 != 0
    ensures SpritesEnabled(m) <==> Read(m, LcdControl) & 0x02 != 0
    ensures BgDisplayEnabled(m) <==> Read(m, LcdControl) & 0x01 != 0
  {
  }

  /** The shade a palette byte gives colour number `color`: the colour's two bits, high bit first. */
  function ShadeForColor(palette: bv8, color: nat): RgbPixel
    requires color < 4
  {
    ColorMapping()[BitsToNum(GetBit(palette, 2 * color + 1), GetBit(palette, 2 * color))]
  }

  /** Colour numbers 0-2 are themselves; every other number is treated as 3. */
  function PaletteColor(i: int): (c: nat)
    ensures c < 4
    ensures 0 <= i <= 2 ==> c == i
    ensures !(0 <= i <= 2) ==> c == 3
  {
    match i
    case 0 => 0
    case 1 => 1
    case 2 => 2
    case _ => 3
  }

  function ConvertNumToBgPixel(m: Image, i: int): RgbPixel
    requires m.WellSized()
  {
    ShadeForColor(Read(m, BgWindowPalette), PaletteColor(i))
  }

  /** The palette register of sprite palette `paletteNum`, with Go's 16-bit wrap-around. */
  function SpritePaletteAddress(paletteNum: int): (a: Word)
    ensures 0 <= paletteNum < 0xB8 ==> a == 0xFF48 + paletteNum
  {
    Wrap16(0xFF48 + paletteNum)
  }

  function ConvertNumToSpritePixel(m: Image, i: int, paletteNum: int): RgbPixel
    requires m.WellSized() && SpritePaletteAddress(paletteNum) != JoypadInput
  {
    ShadeForColor(Read(m, SpritePaletteAddress(paletteNum)), PaletteColor(i))
  }

  /** The shade of colour `c` is the two palette bits at 2c read as a number. */
  lemma ShadeForColorIsBitPair(palette: bv8, color: nat)
    requires color < 4
    ensures ShadeForColor(palette, color) == ColorMapping()[((palette >> (2 * color)) & 3) as int]
  {
    BitPairValue(palette, 2 * color);
  }

  /** Background colour `i` takes bits 2i+1..2i of BGP for i in 0..2 and bits 7..6 otherwise. */
  lemma ConvertNumToBgPixelDecoding(m: Image, i: int)
    requires m.WellSized()
    ensures i == 0 ==> ConvertNumToBgPixel(m, i) == ColorMapping()[(Read(m, BgWindowPalette) & 3) as int]
    ensures i == 1 ==> ConvertNumToBgPixel(m, i) == ColorMapping()[((Read(m, BgWindowPalette) >> 2) & 3) as int]
    ensures i == 2 ==> ConvertNumToBgPixel(m, i) == ColorMapping()[((Read(m, BgWindowPalette) >> 4) & 3) as int]
    ensures !(0 <= i <= 2) ==>
      ConvertNumToBgPixel(m, i) == ColorMapping()[((Read(m, BgWindowPalette) >> 6) & 3) as int]
  {
    ShadeForColorIsBitPair(Read(m, BgWindowPalette), PaletteColor(i));
  }

  /** Sprite palettes 0 and 1 are OBP0 and OBP1, decoded like the background palette. */
  lemma ConvertNumToSpritePixelDecoding(m: Image, i: int, paletteNum: int)
    requires m.WellSized()
    requires paletteNum == 0 || paletteNum == 1
    ensures SpritePaletteAddress(paletteNum) == (if paletteNum == 0 then ObjectPalette0 else ObjectPalette1)
    ensures ConvertNumToSpritePixel(m, i, paletteNum) ==
      ColorMapping()[((Read(m, SpritePaletteAddress(paletteNum)) >> (2 * PaletteColor(i))) & 3) as int]
  {
    ShadeForColorIsBitPair(Read(m, SpritePaletteAddress(paletteNum)), PaletteColor(i));
  }

  // ---------------------------------------------------------------------------------------
  // Interrupts

  function HasPendingInterrupt(m: Image): (r: bool)
    requires m.WellSized()
    ensures r <==> m.interruptEnable & m.ioPorts[0x0F] != 0
  {
    Read(m, InterruptEnable) & Read(m, InterruptFlags) != 0
  }

  /** The vector of interrupt bit 0..4. */
  function InterruptMapping(): (vectors: map<nat, Word>)
    ensures vectors.Keys == {0, 1, 2, 3, 4}
  {
    map[0 := 0x40, 1 := 0x48, 2 := 0x50, 3 := 0x58, 4 := 0x60]
  }

  /** The vector of the pending interrupt whose bit `bit` the interrupt selector chose. */
  function GetNextPendingInterrupt(bit: nat): (vector: Word)
    requires bit < 5
    ensures vector == 0x40 + 8 * bit
  {
    InterruptMapping()[bit]
  }

  /** IF with bit `bit` cleared, and bits 5-7 cleared too by the mask `(1 << bit) ^ 31`. */
  function WithInterruptCleared(m: Image, bit: nat): (r: Image)
    requires m.WellSized() && bit < 5
    ensures r.WellSized()
  {
    var flags := Read(m, InterruptFlags);
    Write(m, InterruptFlags, flags & (((1 as bv8) << bit) ^ 31))
  }

  /** IF with the bit of `interrupt` set. */
  function WithInterruptFired(m: Image, interrupt: Interrupt): (r: Image)
    requires m.WellSized()
    ensures r.WellSized()
  {
    Write(m, InterruptFlags, Read(m, InterruptFlags) | ((1 as bv8) << interrupt.Bit()))
  }

  /** Setting bit k of a byte changes no other bit. */
  lemma SetBitOnly(x: bv8, k: nat, j: nat)
    requires k < 8 && j < 8
    ensures GetBit(x | ((1 as bv8) << k), j) == if j == k then 1 else GetBit(x, j)
  {
  }

  /** Masking with `(1 << k) ^ 31` keeps bits 0-4 other than k and clears the rest. */
  lemma ClearMaskBits(x: bv8, k: nat, j: nat)
    requires k < 5 && j < 8
    ensures GetBit(x & (((1 as bv8) << k) ^ 31), j) == if j < 5 && j != k then GetBit(x, j) else 0
  {
  }

  /** A write to IF stores the value and changes nothing outside the I/O registers. */
  lemma InterruptWriteChangesIoOnly(m: Image, flags: bv8)
    requires m.WellSized()
    ensures Write(m, InterruptFlags, flags) == m.(ioPorts := m.ioPorts[0x0F := flags])
  {
    WriteIoRegister(m, InterruptFlags, flags);
  }

  /** Clearing keeps IF bits 0-4 other than `bit` and clears the rest; nothing else changes. */
  lemma {:induction false} ClearedInterruptBits(m: Image, bit: nat)
    requires m.WellSized() && bit < 5
    ensures forall j :: 0 <= j < 8 ==>
      GetBit(Read(WithInterruptCleared(m, bit), InterruptFlags), j) ==
        (if j < 5 && j != bit then GetBit(Read(m, InterruptFlags), j) else 0)
    ensures WithInterruptCleared(m, bit) == m.(ioPorts := WithInterruptCleared(m, bit).ioPorts)
  {
    var flags := Read(m, InterruptFlags);
    var cleared := flags & (((1 as bv8) << bit) ^ 31);
    InterruptWriteChangesIoOnly(m, cleared);
    assert Read(WithInterruptCleared(m, bit), InterruptFlags) == cleared;
    forall j | 0 <= j < 8
      ensures GetBit(Read(WithInterruptCleared(m, bit), InterruptFlags), j) ==
        (if j < 5 && j != bit then GetBit(flags, j) else 0)
    {
      ClearMaskBits(flags, bit, j);
    }
  }

  /** Setting IF bit `k` keeps every other bit; nothing outside the I/O registers changes. */
  lemma {:induction false} SetFlagBit(m: Image, k: nat)
    requires m.WellSized() && k < 5
    ensures forall j :: 0 <= j < 8 ==>
      GetBit(Read(Write(m, InterruptFlags, Read(m, InterruptFlags) | ((1 as bv8) << k)), InterruptFlags), j) ==
        (if j == k then 1 else GetBit(Read(m, InterruptFlags), j))
    ensures Write(m, InterruptFlags, Read(m, InterruptFlags) | ((1 as bv8) << k)) ==
      m.(ioPorts := m.ioPorts[0x0F := Read(m, InterruptFlags) | ((1 as bv8) << k)])
  {
    var flags := Read(m, InterruptFlags);
    var fired := flags | ((1 as bv8) << k);
    InterruptWriteChangesIoOnly(m, fired);
    assert Read(Write(m, InterruptFlags, fired), InterruptFlags) == fired;
    forall j | 0 <= j < 8
      ensures GetBit(fired, j) == (if j == k then 1 else GetBit(flags, j))
    {
      SetBitOnly(flags, k, j);
    }
  }

  /** Firing sets exactly the interrupt's bit of IF; nothing else changes. */
  lemma {:induction false} FiredInterruptBits(m: Image, interrupt: Interrupt)
    requires m.WellSized()
    ensures forall j :: 0 <= j < 8 ==>
      GetBit(Read(WithInterruptFired(m, interrupt), InterruptFlags), j) ==
        (if j == interrupt.Bit() then 1 else GetBit(Read(m, InterruptFlags), j))
    ensures WithInterruptFired(m, interrupt) == m.(ioPorts := WithInterruptFired(m, interrupt).ioPorts)
  {
    SetFlagBit(m, interrupt.Bit());
  }

  /** An enabled interrupt that fires is pending; clearing it again leaves it cleared. */
  lemma FireThenClear(m: Image, interrupt: Interrupt)
    requires m.WellSized()
    requires m.interruptEnable & ((1 as bv8) << interrupt.Bit()) != 0
    ensures HasPendingInterrupt(WithInterruptFired(m, interrupt))
    ensures GetBit(Read(WithInterruptCleared(WithInterruptFired(m, interrupt), interrupt.Bit()), InterruptFlags), interrupt.Bit()) == 0
  {
    FiredInterruptBits(m, interrupt);
    ClearedInterruptBits(WithInterruptFired(m, interrupt), interrupt.Bit());
  }

  // ---------------------------------------------------------------------------------------
  // Reset

  /** The register values the memory map is reset to, written one after the other. */
  function AfterReset(m: Image): (r: Image)
    requires m.WellSized()
    ensures r.WellSized()
  {
    var m1 := Write(m, TimerRegister, 0x00);
    var m2 := Write(m1, TimerModulo, 0x00);
    var m3 := Write(m2, TimerControl, 0x00);
    var m4 := Write(m3, LcdControl, 0x91);
    var m5 := Write(m4, ScrollY, 0x00);
    var m6 := Write(m5, ScrollX, 0x00);
    var m7 := Write(m6, LyCompare, 0x00);
    var m8 := Write(m7, BgWindowPalette, 0xFC);
    var m9 := Write(m8, ObjectPalette0, 0xFF);
    Write(m9, ObjectPalette1, 0xFF)
  }

  /** After reset the timer, LCD control, scroll and palette registers hold their manual values. */
  lemma ResetValues(m: Image)
    requires m.WellSized()
    ensures Read(AfterReset(m), TimerRegister) == 0 && Read(AfterReset(m), TimerModulo) == 0
    ensures Read(AfterReset(m), TimerControl) == 0
    ensures Read(AfterReset(m), LcdControl) == 0x91
    ensures Read(AfterReset(m), ScrollY) == 0 && Read(AfterReset(m), ScrollX) == 0
    ensures Read(AfterReset(m), LyCompare) == 0
    ensures Read(AfterReset(m), BgWindowPalette) == 0xFC
    ensures Read(AfterReset(m), ObjectPalette0) == 0xFF && Read(AfterReset(m), ObjectPalette1) == 0xFF
    ensures AfterReset(m) == m.(ioPorts := AfterReset(m).ioPorts)
    ensures forall k :: 0 <= k < 0x80 && k !in {0x05, 0x06, 0x07, 0x40, 0x42, 0x43, 0x45, 0x47, 0x48, 0x49} ==>
      AfterReset(m).ioPorts[k] == m.ioPorts[k]
  {
  }

  // ---------------------------------------------------------------------------------------
  // The memory map as mutable state

  class Mmu {
    const rom: array<bv8>
    const vram: array<bv8>
    const switchableRam: array<bv8>
    const internalRam: array<bv8>
    const echoRam: array<bv8>
    const oam: array<bv8>
    const ioPorts: array<bv8>
    const hram: array<bv8>
    var interruptEnable: bv8
    ghost const Repr: set<object>

    ghost predicate Valid() {
      Repr == {this, rom, vram, switchableRam, internalRam, echoRam, oam, ioPorts, hram}
      && rom.Length == 0x8000 && vram.Length == 0x2000 && switchableRam.Length == 0x2000
      && internalRam.Length == 0x2000 && echoRam.Length == 0x2000 && oam.Length == 0xA0
      && ioPorts.Length == 0x80 && hram.Length == 0x7F
      // the four 8 KiB regions are separate arrays
      && vram != switchableRam && vram != internalRam && vram != echoRam
      && switchableRam != internalRam && switchableRam != echoRam && internalRam != echoRam
    }

    function Contents(): (m: Image)
      requires Valid()
      reads Repr
      ensures m.WellSized()
    {
      Image(rom[..], vram[..], switchableRam[..], internalRam[..], echoRam[..], oam[..], ioPorts[..],
            hram[..], interruptEnable)
    }

    constructor ()
      ensures Valid() && fresh(Repr)
      ensures Contents() == Blank()
    {
      rom := new bv8[0x8000](_ => 0);
      vram := new bv8[0x2000](_ => 0);
      switchableRam := new bv8[0x2000](_ => 0);
      internalRam := new bv8[0x2000](_ => 0);
      echoRam := new bv8[0x2000](_ => 0);
      oam := new bv8[0xA0](_ => 0);
      ioPorts := new bv8[0x80](_ => 0);
      hram := new bv8[0x7F](_ => 0);
      interruptEnable := 0;
      Repr := {this, rom, vram, switchableRam, internalRam, echoRam, oam, ioPorts, hram};
    }

    method ReadAt(address: Word) returns (r: bv8)
      requires Valid() && address != JoypadInput
      ensures r == Read(Contents(), address)
    {
      if 0x0000 <= address <= 0x7FFF {
        r := rom[address];
      } else if 0x8000 <= address <= 0x9FFF {
        r := vram[address - 0x8000];
      } else if 0xA000 <= address <= 0xBFFF {
        r := switchableRam[address - 0xA000];
      } else if 0xC000 <= address <= 0xDFFF {
        r := internalRam[address - 0xC000];
      } else if 0xE000 <= address <= 0xFDFF {
        r := echoRam[address - 0xE000];
      } else if 0xFE00 <= address <= 0xFE9F {
        r := oam[address - 0xFE00];
      } else if 0xFF00 <= address <= 0xFF7F {
        r := ioPorts[address - 0xFF00];
      } else if 0xFF80 <= address <= 0xFFFE {
        r := hram[address - 0xFF80];
      } else if address == InterruptEnable {
        r := interruptEnable;
      } else {
        r := 0;
      }
    }

    method WriteByte(address: Word, value: bv8)
      requires Valid() && CanWrite(address, value)
      modifies Repr
      ensures Contents() == Write(old(Contents()), address, value)
      decreases if address == DmaTransferAddress then 2 else 0
    {
      if 0x0000 <= address <= 0x7FFF {
        rom[address] := value;
      } else if 0x8000 <= address <= 0x9FFF {
        vram[address - 0x8000] := value;
      } else if 0xA000 <= address <= 0xBFFF {
        switchableRam[address - 0xA000] := value;
      } else if 0xC000 <= address <= 0xDFFF {
        internalRam[address - 0xC000] := value;
        echoRam[address - 0xC000] := value;
      } else if 0xE000 <= address <= 0xFDFF {
        echoRam[address - 0xE000] := value;
      } else if 0xFE00 <= address <= 0xFE9F {
        oam[address - 0xFE00] := value;
      } else if 0xFEA0 <= address <= 0xFEFF {
        return;
      } else if 0xFF00 <= address <= 0xFF7F {
        ghost var before := Contents();
        var stored := value;
        if address == DividerRegister {
          stored := 0;
        } else if address == DmaTransferAddress {
          StartDma(value);
        } else if address == LcdcStatus {
          stored := StatusWrite(value, ioPorts[0x41]);
        } else if address == JoypadInput {
          stored := value & 0x30;
        }
        assert stored == StoredIoValue(before, address, value);
        assert Contents() == if address == DmaTransferAddress then Dma(before, value) else before;
        ioPorts[address - 0xFF00] := stored;
      } else if 0xFF80 <= address <= 0xFFFE {
        hram[address - 0xFF80] := value;
      } else {
        interruptEnable := value;
      }
    }

    /** Copies the 160 bytes of page `value` into OAM, one byte at a time, through `WriteByte`. */
    method StartDma(value: bv8)
      requires Valid() && value != 0xFF
      modifies Repr
      ensures Contents() == Dma(old(Contents()), value)
      decreases 1
    {
      ghost var m := Contents();
      for i := 0 to 0xA0
        invariant Contents() == m.(oam := oam[..])
        invariant forall j :: 0 <= j < i ==> oam[j] == Read(m, DmaSource(value, j))
        invariant forall j :: i <= j < 0xA0 ==> oam[j] == m.oam[j]
      {
        var b := ReadAt(DmaSource(value, i));
        WriteByte(OamAddress(i), b);
      }
      assert oam[..] == Dma(m, value).oam;
    }

    method SetLcdStatusMode(mode: bv8)
      requires Valid()
      modifies Repr
      ensures Contents() == WithStatusMode(old(Contents()), mode)
    {
      var status := ReadAt(LcdcStatus);
      WriteByte(LcdcStatus, (status & 0xFC) + mode);
    }

    method Reset()
      requires Valid()
      modifies Repr
      ensures Contents() == AfterReset(old(Contents()))
    {
      WriteByte(TimerRegister, 0x00);
      WriteByte(TimerModulo, 0x00);
      WriteByte(TimerControl, 0x00);
      WriteByte(LcdControl, 0x91);
      WriteByte(ScrollY, 0x00);
      WriteByte(ScrollX, 0x00);
      WriteByte(LyCompare, 0x00);
      WriteByte(BgWindowPalette, 0xFC);
      WriteByte(ObjectPalette0, 0xFF);
      WriteByte(ObjectPalette1, 0xFF);
    }

    /** Clears IF bit `bit`, the bit the interrupt selector chose among IE & IF. */
    method ClearHighestInterrupt(bit: nat)
      requires Valid() && bit < 5
      modifies Repr
      ensures Contents() == WithInterruptCleared(old(Contents()), bit)
    {
      var flags := ReadAt(InterruptFlags);
      WriteByte(InterruptFlags, flags & (((1 as bv8) << bit) ^ 31));
    }

    method FireInterrupt(interrupt: Interrupt)
      requires Valid()
      modifies Repr
      ensures Contents() == WithInterruptFired(old(Contents()), interrupt)
    {
      var flags := ReadAt(InterruptFlags);
      WriteByte(InterruptFlags, flags | ((1 as bv8) << interrupt.Bit()));
    }
  }
}
