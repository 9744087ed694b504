// The four opaque shades the display produces (gpu.go) and the MMU's colour mapping (mmu.go).

module Colors {

  datatype RgbPixel = RgbPixel(red: bv8, green: bv8, blue: bv8)

  function White(): RgbPixel { RgbPixel(255, 255, 255) }
  function LightGray(): RgbPixel { RgbPixel(211, 211, 211) }
  function DarkGray(): RgbPixel { RgbPixel(47, 70, 79) }
  function Black(): RgbPixel { RgbPixel(0, 0, 0) }

  /** Colour number 0..3 to shade, lightest first. */
  function ColorMapping(): (m: map<int, RgbPixel>)
    ensures m.Keys == {0, 1, 2, 3}
  {
    map[0 := White(), 1 := LightGray(), 2 := DarkGray(), 3 := Black()]
  }
}
