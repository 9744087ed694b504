// The LCD mode and scan-line machine (gpu.go): OAM search, pixel transfer, horizontal blank and
// vertical blank, the scan of OAM for the sprites on the current line, and the sprite height.

module Lcd {
  import opened Bits
  import opened Memory
  import opened Addressing
  import opened Oam
  import opened StableSort
  import opened TileFetcher
  import opened PixelUnit

  const ScreenWidth: int := 160
  const ScreenHeight: int := 144
  const HBlankMode: bv8 := 0
  const VBlankMode: bv8 := 1
  const OamSearchMode: bv8 := 2
  const PixelTransferMode: bv8 := 3

  // ---------------------------------------------------------------------------------------------
  // The OAM scan

  /** Sprites are 8 lines high, or 16 when LCDC bit 2 is set. */
  function SpriteHeight(m: Image): (h: int)
    requires m.WellSized()
    ensures h == 8 || h == 16
    ensures h == 8 <==> GetBit(Read(m, LcdControl), 2) == 0
  {
    if SpriteSize(m) == 0 then 8 else 16
  }

  /** OAM entry `i` (0..39), decoded from the four bytes from 0xFE00 + 4i on. */
  function OamEntry(m: Image, i: nat): SpriteAttribute
    requires m.WellSized() && i < 40
  {
    FromBytes([Read(m, 0xFE00 + i * 4), Read(m, 0xFE00 + i * 4 + 1), Read(m, 0xFE00 + i * 4 + 2), Read(m, 0xFE00 + i * 4 + 3)])
  }

  /** Entry `i` is the four OAM bytes from offset 4i, in the order Y, X, tile, flags. */
  lemma OamEntryBytes(m: Image, i: nat)
    requires m.WellSized() && i < 40
    ensures ToBytes(OamEntry(m, i)) == m.oam[i * 4..i * 4 + 4]
  {
  }

  /** The forty OAM entries in address order. */
  function OamEntries(m: Image): seq<SpriteAttribute>
    requires m.WellSized()
  {
    seq(40, i requires 0 <= i < 40 => OamEntry(m, i))
  }

  /** A sprite covers line `lY` when `lY` lies in the `height` lines from its Y position less 16. */
  predicate OnLine(attr: SpriteAttribute, lY: int, height: int)
  {
    lY >= GetYPosition(attr) - 16 && lY < GetYPosition(attr) - 16 + height
  }

  /** The entries that cover line `lY`, in their order. */
  function OnLineEntries(entries: seq<SpriteAttribute>, lY: int, height: int): (r: seq<SpriteAttribute>)
    ensures |r| <= |entries|
    decreases |entries|
  {
    if |entries| == 0 then []
    else
      var last := entries[|entries| - 1];
      OnLineEntries(entries[..|entries| - 1], lY, height) + (if OnLine(last, lY, height) then [last] else [])
  }

  /** The selected entries are exactly the entries that cover the line. */
  lemma {:induction false} OnLineEntriesSelect(entries: seq<SpriteAttribute>, lY: int, height: int)
    ensures forall x :: x in OnLineEntries(entries, lY, height) <==> x in entries && OnLine(x, lY, height)
    decreases |entries|
  {
    if |entries| > 0 {
      var front := entries[..|entries| - 1];
      assert entries == front + [entries[|entries| - 1]];
      OnLineEntriesSelect(front, lY, height);
    }
  }

  /** The entries a prefix selects are a prefix of those the whole sequence selects. */
  lemma {:induction false} OnLinePrefix(entries: seq<SpriteAttribute>, i: nat, lY: int, height: int)
    requires i <= |entries|
    ensures OnLineEntries(entries[..i], lY, height) <= OnLineEntries(entries, lY, height)
    decreases |entries| - i
  {
    if i < |entries| {
      var front := entries[..|entries| - 1];
      assert front[..i] == entries[..i];
      OnLinePrefix(front, i, lY, height);
    } else {
      assert entries[..i] == entries;
    }
  }

  /** Extending the scanned prefix by one entry appends that entry when it covers the line. */
  lemma OnLineStep(entries: seq<SpriteAttribute>, i: nat, lY: int, height: int)
    requires i < |entries|
    ensures OnLineEntries(entries[..i + 1], lY, height)
      == OnLineEntries(entries[..i], lY, height) + (if OnLine(entries[i], lY, height) then [entries[i]] else [])
  {
    assert entries[..i + 1][..i] == entries[..i];
  }

  /** The first ten elements, or all of them when there are fewer. */
  function FirstTen<T>(s: seq<T>): seq<T>
  {
    if |s| <= 10 then s else s[..10]
  }

  /** Once a prefix holds ten covering entries, they are the first ten of the whole sequence. */
  lemma TenFound(entries: seq<SpriteAttribute>, i: nat, lY: int, height: int)
    requires i <= |entries| && |OnLineEntries(entries[..i], lY, height)| == 10
    ensures OnLineEntries(entries[..i], lY, height) == FirstTen(OnLineEntries(entries, lY, height))
  {
    OnLinePrefix(entries, i, lY, height);
  }

  /** The sprites kept for line `lY`: the first ten entries covering it, stably sorted by `key`. */
  function VisibleSprites(m: Image, lY: int, key: SpriteAttribute -> int): seq<SpriteAttribute>
    requires m.WellSized()
  {
    Sort(FirstTen(OnLineEntries(OamEntries(m), lY, SpriteHeight(m))), key)
  }

  /**
    * At most ten sprites are kept, each an OAM entry covering the line; they are the first ten
    * covering entries in OAM order (all of them when there are at most ten), sorted stably.
    */
  lemma {:induction false} VisibleSpritesChosen(m: Image, lY: int, key: SpriteAttribute -> int)
    requires m.WellSized()
    ensures var r := VisibleSprites(m, lY, key);
      var candidates := OnLineEntries(OamEntries(m), lY, SpriteHeight(m));
      && |r| <= 10
      && (forall x :: x in r ==> x in OamEntries(m) && OnLine(x, lY, SpriteHeight(m)))
      && multiset(r) == multiset(FirstTen(candidates))
      && (|candidates| <= 10 ==> forall i :: 0 <= i < 40 && OnLine(OamEntry(m, i), lY, SpriteHeight(m)) ==> OamEntry(m, i) in r)
      && SortedBy(r, key)
      && forall k :: WithKey(r, key, k) == WithKey(FirstTen(candidates), key, k)
  {
    var candidates := OnLineEntries(OamEntries(m), lY, SpriteHeight(m));
    var kept := FirstTen(candidates);
    OnLineEntriesSelect(OamEntries(m), lY, SpriteHeight(m));
    SortIsStable(kept, key);
    var r := VisibleSprites(m, lY, key);
    forall x | x in r
      ensures x in OamEntries(m) && OnLine(x, lY, SpriteHeight(m))
    {
      assert x in multiset(kept);
      assert x in candidates;
    }
    if |candidates| <= 10 {
      forall i | 0 <= i < 40 && OnLine(OamEntry(m, i), lY, SpriteHeight(m))
        ensures OamEntry(m, i) in r
      {
        assert OamEntries(m)[i] == OamEntry(m, i);
        assert OamEntry(m, i) in multiset(kept);
      }
    }
  }

  // ---------------------------------------------------------------------------------------------
  // One tick of the mode machine

  /** The display's own state: the tick counter of the current mode, the line, and the kept sprites. */
  datatype LineState = LineState(currentTicks: int, lY: int, visibleSprites: seq<SpriteAttribute>)

  /** Go's `uint8` conversion of the line number. */
  function LyByte(lY: int): bv8
  {
    (lY % 0x100) as bv8
  }

  /** OAM search: count to 80, then scan OAM, request pixel transfer and restart the count. */
  function OamSearchStep(s: LineState, m: Image, key: SpriteAttribute -> int): (r: (LineState, Image))
    requires m.WellSized()
    ensures r.1.WellSized()
  {
    if s.currentTicks == 80 then
      (s.(visibleSprites := VisibleSprites(m, s.lY, key), currentTicks := 0), WithStatusMode(m, PixelTransferMode))
    else (s.(currentTicks := s.currentTicks + 1), m)
  }

  /**
    * Pixel transfer: count on. The PPU never reports a finished line, so the request for
    * horizontal blank and the PPU reset that would follow it never happen.
    */
  function PixelTransferStep(s: LineState, m: Image): (r: (LineState, Image))
  {
    (s.(currentTicks := s.currentTicks + 1), m)
  }

  /**
    * Horizontal blank: count to 376, then move to the next line and write it to LY; after line
    * 143 request vertical blank and fire its interrupt, otherwise request OAM search.
    */
  function HBlankStep(s: LineState, m: Image): (r: (LineState, Image))
    requires m.WellSized()
    ensures r.1.WellSized()
  {
    if s.currentTicks != 376 then (s.(currentTicks := s.currentTicks + 1), m)
    else if s.lY == ScreenHeight - 1 then
      var m1 := WithStatusMode(m, VBlankMode);
      var m2 := Write(m1, LcdcYCoordinate, LyByte(s.lY + 1));
      (s.(lY := s.lY + 1, currentTicks := 0), WithInterruptFired(m2, VBlankInterrupt))
    else
      var m1 := Write(m, LcdcYCoordinate, LyByte(s.lY + 1));
      (s.(lY := s.lY + 1, currentTicks := 0), WithStatusMode(m1, OamSearchMode))
  }

  /**
    * Vertical blank: count to 456, then either restart at line 0 with OAM search requested (after
    * line 169, the screen width plus 9) or move to the next line and write it to LY.
    */
  function VBlankStep(s: LineState, m: Image): (r: (LineState, Image))
    requires m.WellSized()
    ensures r.1.WellSized()
  {
    if s.currentTicks != 456 then (s.(currentTicks := s.currentTicks + 1), m)
    else if s.lY == ScreenWidth + 9 then
      (s.(currentTicks := 0, lY := 0), WithStatusMode(m, OamSearchMode))
    else
      (s.(lY := s.lY + 1, currentTicks := 0), Write(m, LcdcYCoordinate, LyByte(s.lY + 1)))
  }

  /** One tick: nothing while the LCD is off, otherwise the step of the mode STAT holds. */
  function DisplayTick(s: LineState, m: Image, key: SpriteAttribute -> int): (r: (LineState, Image))
    requires m.WellSized()
    ensures r.1.WellSized()
  {
    if !LcdEnabled(m) then (s, m)
    else
      var mode := LcdStatusMode(m);
      if mode == OamSearchMode then OamSearchStep(s, m, key)
      else if mode == PixelTransferMode then PixelTransferStep(s, m)
      else if mode == HBlankMode then HBlankStep(s, m)
      else VBlankStep(s, m)
  }

  // ---------------------------------------------------------------------------------------------
  // What a tick does

  /** With the LCD off a tick changes nothing. */
  lemma TickWhileDisabled(s: LineState, m: Image, key: SpriteAttribute -> int)
    requires m.WellSized() && !LcdEnabled(m)
    ensures DisplayTick(s, m, key) == (s, m)
  {
  }

  /** Writing LY changes no other I/O register. */
  lemma LyWriteKeepsOthers(m: Image, value: bv8)
    requires m.WellSized()
    ensures Write(m, LcdcYCoordinate, value) == m.(ioPorts := m.ioPorts[0x44 := value])
  {
    WriteIoRegister(m, LcdcYCoordinate, value);
  }

  /** Requesting a mode writes STAT alone. */
  lemma StatusWriteKeepsOthers(m: Image, mode: bv8)
    requires m.WellSized()
    ensures WithStatusMode(m, mode) == m.(ioPorts := m.ioPorts[0x41 := WithStatusMode(m, mode).ioPorts[0x41]])
  {
    WriteIoRegister(m, LcdcStatus, (Read(m, LcdcStatus) & 0xFC) + mode);
  }

  /** Firing an interrupt writes IF alone. */
  lemma FireKeepsOthers(m: Image, interrupt: Interrupt)
    requires m.WellSized()
    ensures WithInterruptFired(m, interrupt) == m.(ioPorts := m.ioPorts[0x0F := WithInterruptFired(m, interrupt).ioPorts[0x0F]])
  {
    InterruptWriteChangesIoOnly(m, Read(m, InterruptFlags) | ((1 as bv8) << interrupt.Bit()));
  }

  /**
    * No tick ever changes the LCD mode: every mode request goes through the STAT write rule,
    * which keeps the mode bits, and the other writes (LY, IF) do not touch STAT. The display
    * therefore stays in the mode STAT held when it started.
    */
  lemma {:induction false} TickKeepsMode(s: LineState, m: Image, key: SpriteAttribute -> int)
    requires m.WellSized()
    ensures LcdStatusMode(DisplayTick(s, m, key).1) == LcdStatusMode(m)
    ensures LcdEnabled(DisplayTick(s, m, key).1) == LcdEnabled(m)
  {
    if LcdEnabled(m) {
      var mode := LcdStatusMode(m);
      if mode == OamSearchMode {
        SetStatusModeKeepsMode(m, PixelTransferMode);
        StatusWriteKeepsOthers(m, PixelTransferMode);
      } else if mode == HBlankMode {
        HBlankKeepsMode(s, m);
      } else if mode == VBlankMode {
        SetStatusModeKeepsMode(m, OamSearchMode);
        StatusWriteKeepsOthers(m, OamSearchMode);
        LyWriteKeepsOthers(m, LyByte(s.lY + 1));
      }
    }
  }

  /** `TickKeepsMode` for horizontal blank, whose line change writes LY and STAT and may fire VBLANK. */
  lemma HBlankKeepsMode(s: LineState, m: Image)
    requires m.WellSized()
    ensures LcdStatusMode(HBlankStep(s, m).1) == LcdStatusMode(m)
    ensures Read(HBlankStep(s, m).1, LcdControl) == Read(m, LcdControl)
  {
    if s.currentTicks == 376 {
      if s.lY == ScreenHeight - 1 {
        var m1 := WithStatusMode(m, VBlankMode);
        var m2 := Write(m1, LcdcYCoordinate, LyByte(s.lY + 1));
        SetStatusModeKeepsMode(m, VBlankMode);
        StatusWriteKeepsOthers(m, VBlankMode);
        LyWriteKeepsOthers(m1, LyByte(s.lY + 1));
        FireKeepsOthers(m2, VBlankInterrupt);
      } else {
        var m1 := Write(m, LcdcYCoordinate, LyByte(s.lY + 1));
        LyWriteKeepsOthers(m, LyByte(s.lY + 1));
        SetStatusModeKeepsMode(m1, OamSearchMode);
        StatusWriteKeepsOthers(m1, OamSearchMode);
      }
    }
  }

  /**
    * Each blanking or search mode counts up to its limit and restarts at 0, so a counter in
    * range stays in range; pixel transfer counts on and changes no memory.
    */
  lemma TickCounters(s: LineState, m: Image, key: SpriteAttribute -> int)
    requires m.WellSized() && LcdEnabled(m)
    ensures var t := DisplayTick(s, m, key).0;
      && (LcdStatusMode(m) == OamSearchMode && 0 <= s.currentTicks <= 80 ==> 0 <= t.currentTicks <= 80)
      && (LcdStatusMode(m) == HBlankMode && 0 <= s.currentTicks <= 376 ==> 0 <= t.currentTicks <= 376)
      && (LcdStatusMode(m) == VBlankMode && 0 <= s.currentTicks <= 456 ==> 0 <= t.currentTicks <= 456)
      && (LcdStatusMode(m) == PixelTransferMode ==>
            t == s.(currentTicks := s.currentTicks + 1) && DisplayTick(s, m, key).1 == m)
  {
  }

  /** The OAM scan happens on the tick the search count reaches 80, and only then. */
  lemma OamScanAtEighty(s: LineState, m: Image, key: SpriteAttribute -> int)
    requires m.WellSized() && LcdEnabled(m) && LcdStatusMode(m) == OamSearchMode
    ensures var t := DisplayTick(s, m, key).0;
      && (s.currentTicks == 80 ==> t.visibleSprites == VisibleSprites(m, s.lY, key) && t.currentTicks == 0)
      && (s.currentTicks != 80 ==> t.visibleSprites == s.visibleSprites && t.currentTicks == s.currentTicks + 1)
      && t.lY == s.lY
  {
  }

  /**
    * At the end of a horizontal blank the line advances by one and LY reads the new line;
    * after line 143 the VBLANK bit of IF is set, and otherwise IF is untouched.
    */
  lemma {:induction false} HBlankLineEnd(s: LineState, m: Image)
    requires m.WellSized() && s.currentTicks == 376
    ensures var (t, n) := HBlankStep(s, m);
      && t.lY == s.lY + 1 && t.currentTicks == 0 && t.visibleSprites == s.visibleSprites
      && Read(n, LcdcYCoordinate) == LyByte(s.lY + 1)
      && (s.lY == ScreenHeight - 1 ==> GetBit(Read(n, InterruptFlags), VBlankInterrupt.Bit()) == 1)
      && (s.lY != ScreenHeight - 1 ==> Read(n, InterruptFlags) == Read(m, InterruptFlags))
  {
    var value := LyByte(s.lY + 1);
    if s.lY == ScreenHeight - 1 {
      var m1 := WithStatusMode(m, VBlankMode);
      var m2 := Write(m1, LcdcYCoordinate, value);
      LyWriteKeepsOthers(m1, value);
      FireKeepsOthers(m2, VBlankInterrupt);
      FiredInterruptBits(m2, VBlankInterrupt);
    } else {
      var m1 := Write(m, LcdcYCoordinate, value);
      LyWriteKeepsOthers(m, value);
      StatusWriteKeepsOthers(m1, OamSearchMode);
    }
  }

  /**
    * At the end of a vertical-blank line the display either restarts at line 0 (after line
    * 169) or advances by one line and writes it to LY.
    */
  lemma VBlankLineEnd(s: LineState, m: Image)
    requires m.WellSized() && s.currentTicks == 456
    ensures var (t, n) := VBlankStep(s, m);
      && t.currentTicks == 0 && t.visibleSprites == s.visibleSprites
      && (s.lY == ScreenWidth + 9 ==> t.lY == 0)
      && (s.lY != ScreenWidth + 9 ==> t.lY == s.lY + 1 && Read(n, LcdcYCoordinate) == LyByte(s.lY + 1))
  {
    if s.lY != ScreenWidth + 9 {
      LyWriteKeepsOthers(m, LyByte(s.lY + 1));
    }
  }

  // ---------------------------------------------------------------------------------------------
  // The display as mutable state

  class Display {
    const mmu: Mmu
    const ppu: Ppu
    const addresser: MemoryAddresser
    var currentTicks: int
    var lY: int
    var visibleSprites: seq<SpriteAttribute>
    /** The order the stable sort of the kept sprites uses, fixed for the display's lifetime. */
    const spriteOrder: SpriteAttribute -> int

    ghost predicate Valid()
      reads this, mmu, mmu.Repr, ppu, ppu.fetcher, ppu.fetcher.mmu, ppu.fetcher.mmu.Repr
    {
      mmu.Valid() && this !in mmu.Repr && ppu.Valid() && ppu.fetcher.mmu == mmu
    }

    function State(): LineState
      reads this
    {
      LineState(currentTicks, lY, visibleSprites)
    }

    /** Line 0, count 0, ten empty sprite slots, a fresh PPU, and the tile addressing LCDC selects. */
    constructor (mmu: Mmu, spriteOrder: SpriteAttribute -> int)
      requires mmu.Valid()
      ensures Valid() && this.mmu == mmu && this.spriteOrder == spriteOrder
      ensures State() == LineState(0, 0, seq(10, _ => EmptyAttribute()))
      ensures addresser == CreateMemoryAddresser(BgAndWindowAddressMode(mmu.Contents()))
    {
      this.mmu := mmu;
      addresser := CreateMemoryAddresser(BgAndWindowAddressMode(mmu.Contents()));
      ppu := new Ppu(mmu);
      currentTicks := 0;
      lY := 0;
      visibleSprites := seq(10, _ => EmptyAttribute());
      this.spriteOrder := spriteOrder;
    }

    function CurrentLine(): int
      reads this
    {
      lY
    }

    function Mode(): bv8
      requires Valid()
      reads this, mmu, mmu.Repr, ppu, ppu.fetcher, ppu.fetcher.mmu, ppu.fetcher.mmu.Repr
    {
      LcdStatusMode(mmu.Contents())
    }

    /** One tick of the mode machine; in pixel transfer the PPU's fetcher also steps once. */
    method Tick()
      requires Valid()
      modifies this, mmu.Repr, ppu.fetcher
      ensures Valid()
      ensures (State(), mmu.Contents()) == DisplayTick(old(State()), old(mmu.Contents()), spriteOrder)
      ensures ppu.fetcher.currentState ==
        if old(LcdEnabled(mmu.Contents()) && LcdStatusMode(mmu.Contents()) == PixelTransferMode)
        then NextState(old(ppu.fetcher.currentState)) else old(ppu.fetcher.currentState)
    {
      if !LcdEnabled(mmu.Contents()) {
        return;
      }
      var mode := Mode();
      if mode == OamSearchMode {
        OamSearchTick();
      } else if mode == PixelTransferMode {
        PixelTransferTick();
      } else if mode == HBlankMode {
        HBlankTick();
      } else if mode == VBlankMode {
        VBlankTick();
      }
    }

    method OamSearchTick()
      requires Valid()
      modifies this, mmu.Repr
      ensures Valid()
      ensures (State(), mmu.Contents()) == OamSearchStep(old(State()), old(mmu.Contents()), spriteOrder)
    {
      if currentTicks == 80 {
        ReadOam();
        mmu.SetLcdStatusMode(PixelTransferMode);
        currentTicks := 0;
      } else {
        currentTicks := currentTicks + 1;
      }
    }

    method PixelTransferTick()
      requires Valid()
      modifies this, ppu.fetcher
      ensures Valid()
      ensures State() == PixelTransferStep(old(State()), old(mmu.Contents())).0
      ensures mmu.Contents() == old(mmu.Contents())
      ensures ppu.fetcher.currentState == NextState(old(ppu.fetcher.currentState))
    {
      ppu.Tick(visibleSprites);
      currentTicks := currentTicks + 1;
    }

    method HBlankTick()
      requires Valid()
      modifies this, mmu.Repr
      ensures Valid()
      ensures (State(), mmu.Contents()) == HBlankStep(old(State()), old(mmu.Contents()))
    {
      if currentTicks == 376 {
        if lY == ScreenHeight - 1 {
          StartVBlank();
        } else {
          StartNextLine();
        }
      } else {
        currentTicks := currentTicks + 1;
      }
    }

    /** The end of line 143: request vertical blank, write the new line to LY, fire VBLANK. */
    method StartVBlank()
      requires Valid() && currentTicks == 376 && lY == ScreenHeight - 1
      modifies this, mmu.Repr
      ensures Valid()
      ensures (State(), mmu.Contents()) == HBlankStep(old(State()), old(mmu.Contents()))
    {
      mmu.SetLcdStatusMode(VBlankMode);
      lY := lY + 1;
      mmu.WriteByte(LcdcYCoordinate, LyByte(lY));
      currentTicks := 0;
      mmu.FireInterrupt(VBlankInterrupt);
    }

    /** The end of any other visible line: write the new line to LY and request OAM search. */
    method StartNextLine()
      requires Valid() && currentTicks == 376 && lY != ScreenHeight - 1
      modifies this, mmu.Repr
      ensures Valid()
      ensures (State(), mmu.Contents()) == HBlankStep(old(State()), old(mmu.Contents()))
    {
      lY := lY + 1;
      mmu.WriteByte(LcdcYCoordinate, LyByte(lY));
      mmu.SetLcdStatusMode(OamSearchMode);
      currentTicks := 0;
    }

    method VBlankTick()
      requires Valid()
      modifies this, mmu.Repr
      ensures Valid()
      ensures (State(), mmu.Contents()) == VBlankStep(old(State()), old(mmu.Contents()))
    {
      if currentTicks == 456 {
        if lY == ScreenWidth + 9 {
          mmu.SetLcdStatusMode(OamSearchMode);
          currentTicks := 0;
          lY := 0;
        } else {
          lY := lY + 1;
          mmu.WriteByte(LcdcYCoordinate, LyByte(lY));
          currentTicks := 0;
        }
      } else {
        currentTicks := currentTicks + 1;
      }
    }

    /** Reads the four bytes of OAM entry `i` and decodes them. */
    method ReadOamEntry(i: nat) returns (attr: SpriteAttribute)
      requires mmu.Valid() && i < 40
      ensures attr == OamEntries(mmu.Contents())[i]
    {
      var byte0 := mmu.ReadAt(0xFE00 + i * 4);
      var byte1 := mmu.ReadAt(0xFE00 + i * 4 + 1);
      var byte2 := mmu.ReadAt(0xFE00 + i * 4 + 2);
      var byte3 := mmu.ReadAt(0xFE00 + i * 4 + 3);
      attr := FromBytes([byte0, byte1, byte2, byte3]);
    }

    /** Keeps the sprites on the current line, then sorts them stably. */
    method ReadOam()
      requires Valid()
      modifies this
      ensures Valid()
      ensures State() == old(State()).(visibleSprites := VisibleSprites(mmu.Contents(), lY, spriteOrder))
    {
      var visible := ScanOam();
      visibleSprites := Sort(visible, spriteOrder);
    }

    /**
      * Scans the forty OAM entries in address order, keeping those that cover the current line,
      * and stops once ten are kept.
      */
    method ScanOam() returns (visible: seq<SpriteAttribute>)
      requires mmu.Valid()
      ensures visible == FirstTen(OnLineEntries(OamEntries(mmu.Contents()), lY, SpriteHeight(mmu.Contents())))
    {
      ghost var entries := OamEntries(mmu.Contents());
      ghost var height := SpriteHeight(mmu.Contents());
      visible := [];
      var i := 0;
      while i < 40 && |visible| < 10
        invariant 0 <= i <= 40
        invariant visible == OnLineEntries(entries[..i], lY, height)
        invariant |visible| <= 10
      {
        var attr := ReadOamEntry(i);
        if OnLine(attr, lY, SpriteHeight(mmu.Contents())) {
          visible := visible + [attr];
        }
        assert visible == OnLineEntries(entries[..i + 1], lY, height) by {
          OnLineStep(entries, i, lY, height);
        }
        i := i + 1;
      }
      assert visible == FirstTen(OnLineEntries(entries, lY, height)) by {
        if |visible| == 10 {
          TenFound(entries, i, lY, height);
        } else {
          assert entries[..i] == entries;
        }
      }
    }
  }
}
