// The background tile fetcher (fetcher.go): a four-state cycle that reads a tile number on its
// first state and hands out its eight-pixel buffer each time it comes back round.

module TileFetcher {
  import opened Bits
  import opened Colors
  import opened Addressing
  import opened Memory

  datatype FetchState = TileRead | ReadData0 | ReadData1 | Idle

  /** The state after `state`: tile read, two data reads, idle, and back to the tile read. */
  function NextState(state: FetchState): FetchState
  {
    match state
    case TileRead => ReadData0
    case ReadData0 => ReadData1
    case ReadData1 => Idle
    case Idle => TileRead
  }

  /** The state after `n` fetches. */
  function Advance(state: FetchState, n: nat): FetchState
    decreases n
  {
    if n == 0 then state else Advance(NextState(state), n - 1)
  }

  /** Four fetches return to the starting state, and the three before it are three other states. */
  lemma {:induction false} FourFetchesCycle(state: FetchState)
    ensures Advance(state, 4) == state
    ensures Advance(state, 1) != state && Advance(state, 2) != state && Advance(state, 3) != state
  {
    assert Advance(state, 4) == Advance(NextState(state), 3) == Advance(NextState(NextState(state)), 2);
    assert Advance(state, 3) == Advance(NextState(NextState(state)), 1);
  }

  /** Of the states reached by four consecutive fetches, exactly one is the tile read. */
  lemma {:induction false} OneDeliveryPerCycle(state: FetchState)
    ensures (if Advance(state, 1) == TileRead then 1 else 0) + (if Advance(state, 2) == TileRead then 1 else 0)
      + (if Advance(state, 3) == TileRead then 1 else 0) + (if Advance(state, 4) == TileRead then 1 else 0) == 1
  {
    assert Advance(state, 4) == Advance(NextState(state), 3) == Advance(NextState(NextState(state)), 2);
    assert Advance(state, 3) == Advance(NextState(NextState(state)), 1);
  }

  /** The fetcher never waits: every fetch changes state. */
  function ShouldChangeState(): (r: bool)
  {
    true
  }

  class Fetcher {
    var currentState: FetchState
    const addresser: MemoryAddresser
    const mmu: Mmu
    const backgroundStartAddress: Word
    const windowStartAddress: Word
    var backgroundMapNumber: Word
    var currentTile: Word
    const pixels: array<RgbPixel>

    /**
      * The background map number is only ever reset to 0, and the background map starts at
      * 0x9800 or 0x9C00, so the tile read never touches the joypad register.
      */
    ghost predicate Valid()
      reads this, mmu, mmu.Repr
    {
      && mmu.Valid() && this !in mmu.Repr && pixels !in mmu.Repr
      && pixels.Length == 8
      && backgroundMapNumber == 0
      && (backgroundStartAddress == 0x9800 || backgroundStartAddress == 0x9C00)
    }

    /** Starts at the tile read, with both counters 0, eight black pixels and the maps LCDC selects. */
    constructor (mmu: Mmu)
      requires mmu.Valid()
      ensures Valid() && fresh(pixels)
      ensures this.mmu == mmu && currentState == TileRead
      ensures backgroundMapNumber == 0 && currentTile == 0
      ensures pixels[..] == seq(8, _ => Black())
      ensures addresser == CreateMemoryAddresser(BgAndWindowAddressMode(mmu.Contents()))
      ensures backgroundStartAddress == BgTileMap(mmu.Contents())
      ensures windowStartAddress == WindowTileMap(mmu.Contents())
    {
      currentState := TileRead;
      addresser := CreateMemoryAddresser(BgAndWindowAddressMode(mmu.Contents()));
      this.mmu := mmu;
      backgroundStartAddress := BgTileMap(mmu.Contents());
      windowStartAddress := WindowTileMap(mmu.Contents());
      backgroundMapNumber := 0;
      currentTile := 0;
      pixels := new RgbPixel[8](_ => Black());
    }

    /**
      * One fetch: the work of the current state, then one step round the cycle. On the step back
      * into the tile read it resets the map number and returns a fresh copy of the pixel buffer;
      * on every other step it returns null.
      */
    method Fetch() returns (result: array?<RgbPixel>)
      requires Valid()
      modifies this
      ensures Valid()
      ensures currentState == NextState(old(currentState))
      ensures currentTile ==
        if old(currentState) == TileRead then Read(mmu.Contents(), backgroundStartAddress) as int else old(currentTile)
      ensures result != null <==> currentState == TileRead
      ensures result != null ==> fresh(result) && result[..] == pixels[..]
    {
      match currentState {
        case TileRead => ReadTile();
        case ReadData0 => ReadData(0);
        case ReadData1 => ReadData(1);
        case Idle =>
      }
      result := null;
      if ShouldChangeState() {
        currentState := NextState(currentState);
        if currentState == TileRead {
          Reset();
          result := new RgbPixel[8];
          forall i | 0 <= i < 8 {
            result[i] := pixels[i];
          }
        }
      }
    }

    method Reset()
      modifies this
      ensures backgroundMapNumber == 0
      ensures currentState == old(currentState) && currentTile == old(currentTile)
    {
      backgroundMapNumber := 0;
    }

    /** The tile number at the start of the background map (the map number is always 0). */
    method ReadTile()
      requires Valid()
      modifies this
      ensures Valid()
      ensures currentTile == Read(mmu.Contents(), backgroundStartAddress) as int
      ensures currentState == old(currentState) && backgroundMapNumber == old(backgroundMapNumber)
    {
      var tile := mmu.ReadAt(Wrap16(backgroundStartAddress + backgroundMapNumber));
      currentTile := tile as int;
    }

    /** Reading tile data is not implemented: it changes nothing. */
    method ReadData(byteNum: int)
    {
    }
  }
}
