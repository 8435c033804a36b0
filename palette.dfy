/**
 * The colour helper of the Swift front end (Utils/Palette.swift).  `ColorFromRGB`
 * splits a packed 0xRRGGBB value (a Swift `UInt`, 64 bits) into its three channels;
 * the final scaling of each channel to 0.0 ... 1.0 is floating point and not modelled,
 * so a colour here is its three integer channels.
 */
module Palette {

  datatype Channels = Channels(red: bv64, green: bv64, blue: bv64)

  /** The channel extraction of `ColorFromRGB`. */
  function ColorFromRgb(rgb: bv64): (c: Channels)
    ensures c.red < 256 && c.green < 256 && c.blue < 256
  {
    Channels((rgb & 0xFF0000) >> 16, (rgb & 0x00FF00) >> 8, rgb & 0x0000FF)
  }

  /** The channels put back together give the low 24 bits of the input. */
  lemma ChannelsRecombine(rgb: bv64)
    ensures ColorFromRgb(rgb).red * 0x1_0000 + ColorFromRgb(rgb).green * 0x100 + ColorFromRgb(rgb).blue == rgb & 0xFF_FFFF
    ensures (ColorFromRgb(rgb).red << 16) | (ColorFromRgb(rgb).green << 8) | ColorFromRgb(rgb).blue == rgb & 0xFF_FFFF
  {
  }

  /** Bits above the lowest 24 play no part. */
  lemma HighBitsIgnored(rgb: bv64)
    ensures ColorFromRgb(rgb) == ColorFromRgb(rgb & 0xFF_FFFF)
  {
  }

  const Color1 := ColorFromRgb(0x0F32E3)
  const Color2 := ColorFromRgb(0xC6C6B3)
  const Color3 := ColorFromRgb(0xABB7D2)
  const Color4 := ColorFromRgb(0x506ED1)
  const Color5 := ColorFromRgb(0x65737E)

  /** The palette's colours as channel triples. */
  lemma PaletteChannels()
    ensures Color1 == Channels(15, 50, 227)
    ensures Color2 == Channels(198, 198, 179)
    ensures Color3 == Channels(171, 183, 210)
    ensures Color4 == Channels(80, 110, 209)
    ensures Color5 == Channels(101, 115, 126)
  {
  }
}
