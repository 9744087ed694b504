// Tile-data addressing (memory_addresser.go): where the byte for a tile offset lives in video RAM.

module Addressing {
  import opened Bits

  /** The two tile-data addressing modes selected by bit 4 of the LCD control register. */
  datatype AddressMode = Mode8000 | Mode8800

  /** The addresser is immutable: its mode is fixed when it is created. */
  datatype MemoryAddresser = MemoryAddresser(addressMode: AddressMode)

  function CreateMemoryAddresser(addressMode: AddressMode): (r: MemoryAddresser)
    ensures r.addressMode == addressMode
  {
    MemoryAddresser(addressMode)
  }

  /** Address of the tile data at `offset`: unsigned from 0x8000, or split around 0x9000 in 0x8800 mode. */
  function GetAddress(addresser: MemoryAddresser, offset: bv8): (r: Word)
    ensures 0x8000 <= r <= 0x90FF
  {
    if addresser.addressMode == Mode8000 then
      0x8000 + offset as int
    else if offset < 128 then
      0x9000 + offset as int
    else
      0x8800 + offset as int
  }

  lemma GetAddressByMode(addresser: MemoryAddresser, offset: bv8)
    ensures addresser.addressMode == Mode8000 ==>
      GetAddress(addresser, offset) == 0x8000 + offset as int
    ensures addresser.addressMode == Mode8800 && offset < 128 ==>
      GetAddress(addresser, offset) == 0x9000 + offset as int
    ensures addresser.addressMode == Mode8800 && offset >= 128 ==>
      GetAddress(addresser, offset) == 0x8800 + offset as int
  {
  }

  /** Distinct offsets never share a tile address in either mode. */
  lemma GetAddressInjective(addresser: MemoryAddresser, o1: bv8, o2: bv8)
    requires GetAddress(addresser, o1) == GetAddress(addresser, o2)
    ensures o1 == o2
  {
    IntOfByte(o1);
    IntOfByte(o2);
    if addresser.addressMode == Mode8000 {
      assert o1 as int == o2 as int;
    } else if o1 < 128 && o2 < 128 {
      assert o1 as int == o2 as int;
    } else if o1 >= 128 && o2 >= 128 {
      assert o1 as int == o2 as int;
    } else {
      assert false;
    }
  }
}
