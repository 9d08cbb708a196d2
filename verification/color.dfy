/** Android's packed ARGB colour integers, as used for particle colours. */
module AndroidColor {

  /** A Kotlin `Int`. */
  type Int32 = x: int | -0x8000_0000 <= x < 0x8000_0000

  /** An 8-bit colour channel value. */
  type Channel = x: int | 0 <= x < 256

  /** `Color.rgb(r, g, b)`: opaque colour `0xFF000000 | r << 16 | g << 8 | b`,
      read back as a signed 32-bit integer. */
  function Rgb(r: Channel, g: Channel, b: Channel): (c: Int32)
    ensures c < 0
  {
    -0x100_0000 + r * 0x1_0000 + g * 0x100 + b
  }

  /** `Color.red(c)`: `(c >> 16) & 0xFF`. For a positive divisor Dafny's `/`
      floors, which is the arithmetic shift on a negative `Int`. */
  function Red(c: Int32): Channel { (c / 0x1_0000) % 0x100 }

  /** `Color.green(c)`: `(c >> 8) & 0xFF`. */
  function Green(c: Int32): Channel { (c / 0x100) % 0x100 }

  /** `Color.blue(c)`: `c & 0xFF`. */
  function Blue(c: Int32): Channel { c % 0x100 }

  /** The channels of a packed colour are the ones it was packed from. */
  lemma RgbRoundTrip(r: Channel, g: Channel, b: Channel)
    ensures Red(Rgb(r, g, b)) == r
    ensures Green(Rgb(r, g, b)) == g
    ensures Blue(Rgb(r, g, b)) == b
  {
    var c := Rgb(r, g, b);
    assert c == (r - 0x100) * 0x1_0000 + (g * 0x100 + b);
    assert c / 0x1_0000 == r - 0x100;
    assert c == (r * 0x100 + g - 0x1_0000) * 0x100 + b;
    assert c / 0x100 == r * 0x100 + g - 0x1_0000;
  }

  /** Android's named colour constants used as default custom colours. */
  const ColorWhite: Int32 := -1            // 0xFFFFFFFF
  const ColorCyan: Int32 := -0xFF_0001     // 0xFF00FFFF
  const ColorMagenta: Int32 := -0xFF01     // 0xFFFF00FF
  const ColorYellow: Int32 := -0x100       // 0xFFFFFF00
  const ColorBlue: Int32 := -0xFF_FF01    // 0xFF0000FF

  /** A colour as the four floats of a vertex colour attribute. */
  datatype Rgba = Rgba(r: real, g: real, b: real, a: real)

  /** The colour attribute written for a particle: each channel divided by
      255 and alpha fixed at 1. */
  function ToAttribute(c: Int32): (v: Rgba)
    ensures 0.0 <= v.r <= 1.0 && 0.0 <= v.g <= 1.0 && 0.0 <= v.b <= 1.0
    ensures v.a == 1.0
    ensures v.r * 255.0 == Red(c) as real
    ensures v.g * 255.0 == Green(c) as real
    ensures v.b * 255.0 == Blue(c) as real
  {
    Rgba(Red(c) as real / 255.0, Green(c) as real / 255.0, Blue(c) as real / 255.0, 1.0)
  }

  /** The five "sci-fi" colours both renderers choose from. */
  const ScifiColors: seq<Int32> :=
    [Rgb(0, 200, 255), Rgb(80, 100, 255), Rgb(200, 50, 255), Rgb(255, 50, 120), Rgb(255, 80, 50)]
}
