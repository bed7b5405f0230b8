/** The FastLED vocabulary the firmware is written in: 8-bit RGB and HSV
    colours, the four gradient palettes, the HTML named colours it uses,
    and the library primitives whose code is not part of this model.

    Those primitives are carried in a `Library` record of total functions
    over 8-bit values: nothing is assumed of them beyond their types, which
    are their range contracts (every result is a channel value in 0..255
    or an RGB colour). */
module FastLed {
  import opened Ints

  datatype RGB = RGB(r: u8, g: u8, b: u8)

  datatype HSV = HSV(hue: u8, sat: u8, val: u8)

  /** The gradient palettes of src/main.cpp:112-172. Their control points go
      through the library's gradient conversion, so only their names matter. */
  datatype Palette =
    | RainbowLoopAgroGamma
    | TiamatAgroGamma
    | YelmagAgroGamma
    | RainbowSherbetAgroGamma

  const Black := RGB(0, 0, 0)

  // FastLED's HTML named colours used by the crossfade wrappers.
  const Red := RGB(0xFF, 0x00, 0x00)
  const White := RGB(0xFF, 0xFF, 0xFF)
  const Orange := RGB(0xFF, 0xA5, 0x00)
  const Cyan := RGB(0x00, 0xFF, 0xFF)
  const Magenta := RGB(0xFF, 0x00, 0xFF)
  const Turquoise := RGB(0x40, 0xE0, 0xD0)
  const Gold := RGB(0xFF, 0xD7, 0x00)
  const DeepPink := RGB(0xFF, 0x14, 0x93)

  /** The library primitives, uninterpreted:
      - scale8(i, s): i scaled by s/256
      - qmul8(i, j): saturating 8-bit multiply (used by `CRGB * uint8_t`)
      - triwave8(x): triangle wave over one 0..255 period
      - ease8InOutCubic(x): cubic S-curve
      - colorFromPalette(p, index, brightness): palette lookup with LINEARBLEND
      - hsv2rgb(c): the CHSV to CRGB conversion
      - fadeToBlackBy(c, amount): one pixel dimmed by amount/256 */
  datatype Library = Library(
    scale8: (u8, u8) -> u8,
    qmul8: (u8, u8) -> u8,
    triwave8: u8 -> u8,
    ease8InOutCubic: u8 -> u8,
    colorFromPalette: (Palette, u8, u8) -> RGB,
    hsv2rgb: HSV -> RGB,
    fadeToBlackBy: (RGB, u8) -> RGB)

  /** `CRGB::nscale8(s)`: every channel replaced by scale8(channel, s). */
  function NScale8(lib: Library, c: RGB, s: u8): RGB
  {
    RGB(lib.scale8(c.r, s), lib.scale8(c.g, s), lib.scale8(c.b, s))
  }

  /** `CRGB * uint8_t`: every channel multiplied with saturation. */
  function Times(lib: Library, c: RGB, d: u8): RGB
  {
    RGB(lib.qmul8(c.r, d), lib.qmul8(c.g, d), lib.qmul8(c.b, d))
  }
}
