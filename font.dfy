/** The built-in hexadecimal font: sixteen 4x5 sprites, one per digit 0-F,
    as listed in section 2.4 of Cowgod's Chip-8 Technical Reference. */
module Font {
  import opened Words

  const GlyphHeight := 5
  const GlyphCount := 16

  /** The sprite of hexadecimal digit d, top row first: the five bytes the machine's
      font table lists for d, which are the reference's sprite for d. Each row uses
      only the upper nibble: a glyph is four pixels wide. */
  function Glyph(d: nat): (g: seq<u8>)
    requires d < GlyphCount
    ensures |g| == GlyphHeight
    ensures forall row :: 0 <= row < |g| ==> g[row] % 0x10 == 0
  {
    match d
    case 0x0 => [0xF0, 0x90, 0x90, 0x90, 0xF0]
    case 0x1 => [0x20, 0x60, 0x20, 0x20, 0x70]
    case 0x2 => [0xF0, 0x10, 0xF0, 0x80, 0xF0]
    case 0x3 => [0xF0, 0x10, 0xF0, 0x10, 0xF0]
    case 0x4 => [0x90, 0x90, 0xF0, 0x10, 0x10]
    case 0x5 => [0xF0, 0x80, 0xF0, 0x10, 0xF0]
    case 0x6 => [0xF0, 0x80, 0xF0, 0x90, 0xF0]
    case 0x7 => [0xF0, 0x10, 0x20, 0x40, 0x40]
    case 0x8 => [0xF0, 0x90, 0xF0, 0x90, 0xF0]
    case 0x9 => [0xF0, 0x90, 0xF0, 0x10, 0xF0]
    case 0xA => [0xF0, 0x90, 0xF0, 0x90, 0x90]
    case 0xB => [0xE0, 0x90, 0xE0, 0x90, 0xE0]
    case 0xC => [0xF0, 0x80, 0x80, 0x80, 0xF0]
    case 0xD => [0xE0, 0x90, 0x90, 0x90, 0xE0]
    case 0xE => [0xF0, 0x80, 0xF0, 0x80, 0xF0]
    case 0xF => [0xF0, 0x80, 0xF0, 0x80, 0x80]
  }

  /** Glyphs 0 .. k-1 of the reference laid end to end. */
  function Glyphs(k: nat): (s: seq<u8>)
    requires k <= GlyphCount
    ensures |s| == GlyphHeight * k
  {
    if k == 0 then [] else Glyphs(k - 1) + Glyph(k - 1)
  }

  /** Slicing a concatenation inside its left part, or exactly over its right part. */
  lemma SliceOfAppend(a: seq<u8>, b: seq<u8>, lo: nat, hi: nat)
    requires lo <= hi
    ensures hi <= |a| ==> (a + b)[lo..hi] == a[lo..hi]
    ensures lo == |a| && hi == |a| + |b| ==> (a + b)[lo..hi] == b
  {
  }

  /** In a run of glyphs, glyph d occupies bytes 5d .. 5d+4. */
  lemma {:induction false} GlyphsAt(k: nat, d: nat)
    requires d < k <= GlyphCount
    ensures Glyphs(k)[GlyphHeight * d .. GlyphHeight * d + GlyphHeight] == Glyph(d)
  {
    var prev, last := Glyphs(k - 1), Glyph(k - 1);
    assert Glyphs(k) == prev + last;
    SliceOfAppend(prev, last, GlyphHeight * d, GlyphHeight * d + GlyphHeight);
    if d < k - 1 {
      GlyphsAt(k - 1, d);
    }
  }

  /** The 80-byte table the machine installs: the sixteen glyphs in digit order. */
  const FontTable: seq<u8> := Glyphs(GlyphCount)
}
