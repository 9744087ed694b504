// The pixel-processing unit (ppu.go): a pixel FIFO beside a tile fetcher. Shifting pixels out is
// not implemented, so a tick only steps the fetcher.

module PixelUnit {
  import opened Memory
  import opened TileFetcher
  import opened Oam

  class Ppu {
    var fifo: seq<bv8>
    const fetcher: Fetcher

    ghost predicate Valid()
      reads this, fetcher, fetcher.mmu, fetcher.mmu.Repr
    {
      fetcher.Valid() && this !in fetcher.mmu.Repr
    }

    /** A FIFO of sixteen zero entries and a fresh fetcher over the memory map. */
    constructor (mmu: Mmu)
      requires mmu.Valid()
      ensures Valid() && fresh(fetcher)
      ensures fifo == seq(16, _ => 0) && CanShift()
      ensures fetcher.mmu == mmu && fetcher.currentState == TileRead
    {
      fifo := seq(16, _ => 0);
      fetcher := new Fetcher(mmu);
    }

    /** A pixel can be shifted out while the FIFO holds more than eight entries. */
    predicate CanShift()
      reads this
    {
      |fifo| > 8
    }

    /**
      * One tick: one fetch, then a shift when one is possible. The shift does nothing, so the
      * FIFO never changes and stays shiftable; the sprites are not used.
      */
    method Tick(sprites: seq<SpriteAttribute>)
      requires Valid()
      modifies fetcher
      ensures Valid()
      ensures fifo == old(fifo)
      ensures old(CanShift()) ==> CanShift()
      ensures fetcher.currentState == NextState(old(fetcher.currentState))
      ensures fetcher.mmu.Contents() == old(fetcher.mmu.Contents())
    {
      var pixels := fetcher.Fetch();
      if CanShift() {
        ShiftOutPixel();
      }
    }

    /** A line is never reported finished. */
    function LineFinished(): (r: bool)
    {
      false
    }

    /** Shifting a pixel out is not implemented: it changes nothing. */
    method ShiftOutPixel()
    {
    }
  }
}
