// Sprite attributes (oam.go): the four bytes of an OAM entry and the flag tests on them.

module Oam {
  import opened Bits

  /** One sprite's attributes: Y, X, tile number and flags, each a byte. */
  datatype SpriteAttribute = SpriteAttribute(yPosition: bv8, xPosition: bv8, tileNumber: bv8, flags: bv8)

  /** The attributes with every byte 0, which a malformed entry yields. */
  function EmptyAttribute(): SpriteAttribute
  {
    SpriteAttribute(0, 0, 0, 0)
  }

  /** The attributes held in four bytes, in the order Y, X, tile, flags; any other length gives all zeros. */
  function FromBytes(bytes: seq<bv8>): (r: SpriteAttribute)
    ensures |bytes| != 4 ==> r == EmptyAttribute()
  {
    if |bytes| != 4 then EmptyAttribute()
    else SpriteAttribute(bytes[0], bytes[1], bytes[2], bytes[3])
  }

  /** The four bytes of an entry, as OAM stores them. */
  function ToBytes(attr: SpriteAttribute): (bytes: seq<bv8>)
    ensures |bytes| == 4
  {
    [attr.yPosition, attr.xPosition, attr.tileNumber, attr.flags]
  }

  /** Decoding the bytes of an entry gives the entry back, and every four bytes are some entry's bytes. */
  lemma FromBytesRoundTrip(attr: SpriteAttribute, bytes: seq<bv8>)
    ensures FromBytes(ToBytes(attr)) == attr
    ensures |bytes| == 4 ==> ToBytes(FromBytes(bytes)) == bytes
  {
  }

  /** The Y position byte of the entry, as a number. */
  function GetYPosition(attr: SpriteAttribute): (r: int)
    ensures r == attr.yPosition as int
    ensures 0 <= r < 0x100
  {
    attr.yPosition as int
  }

  /** The X position byte of the entry, as a number. */
  function GetXPosition(attr: SpriteAttribute): (r: int)
    ensures r == attr.xPosition as int
    ensures 0 <= r < 0x100
  {
    attr.xPosition as int
  }

  /** The tile number byte of the entry, as a number. */
  function GetTileNumber(attr: SpriteAttribute): (r: int)
    ensures r == attr.tileNumber as int
    ensures 0 <= r < 0x100
  {
    attr.tileNumber as int
  }

  /** Each getter gives back its byte unchanged: converting the result to a byte yields the field. */
  lemma GettersKeepBytes(attr: SpriteAttribute)
    ensures GetYPosition(attr) as bv8 == attr.yPosition
    ensures GetXPosition(attr) as bv8 == attr.xPosition
    ensures GetTileNumber(attr) as bv8 == attr.tileNumber
  {
  }

  predicate HasPriority(attr: SpriteAttribute) { attr.flags & 0x80 == 0 }

  predicate HorizontalFlip(attr: SpriteAttribute) { attr.flags & 0x20 == 0x20 }

  predicate VerticalFlip(attr: SpriteAttribute) { attr.flags & 0x40 == 0x40 }

  function PaletteNumber(attr: SpriteAttribute): (r: int)
    ensures r == 0 || r == 1
  {
    if attr.flags & 0x10 == 0x10 then 1 else 0
  }

  /**
    * Each flag test reads one bit of the flags byte: priority is bit 7 clear, horizontal flip
    * bit 5, vertical flip bit 6, and the palette number is bit 4.
    */
  lemma FlagBits(attr: SpriteAttribute)
    ensures HasPriority(attr) <==> GetBit(attr.flags, 7) == 0
    ensures HorizontalFlip(attr) <==> GetBit(attr.flags, 5) == 1
    ensures VerticalFlip(attr) <==> GetBit(attr.flags, 6) == 1
    ensures PaletteNumber(attr) == GetBit(attr.flags, 4)
  {
  }
}
