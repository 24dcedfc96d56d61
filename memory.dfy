/** The memory layout: a flat byte store of 0xFFF cells (addresses 0x000 .. 0xFFE),
    the font installed at 0x050 .. 0x09F and programs loaded from 0x200. */
module Memory {
  import opened Words
  import opened Font

  /** The store is declared with 0xFFF cells, one fewer than the 4 KB address space. */
  const MemorySize := 0xFFF
  const FontBase := 0x050
  const FontEnd := FontBase + GlyphCount * GlyphHeight
  const RomBase := 0x200

  /** A ROM of this many bytes, copied from RomBase, stays inside the store. */
  predicate RomFits(length: nat)
  {
    RomBase + length <= MemorySize
  }

  /** m with the cells from base on replaced by data: the effect of a copy loop
      writing data[i] to cell base + i. */
  function Overwrite(m: seq<u8>, base: nat, data: seq<u8>): (r: seq<u8>)
    requires base + |data| <= |m|
    ensures |r| == |m|
    ensures forall a :: base <= a < base + |data| ==> r[a] == data[a - base]
    ensures forall a :: 0 <= a < |m| && !(base <= a < base + |data|) ==> r[a] == m[a]
  {
    m[..base] + data + m[base + |data|..]
  }

  /** The store after a reset: every cell cleared, then the font installed. */
  function InitialMemory(): (m: seq<u8>)
    ensures |m| == MemorySize
    ensures forall a :: FontBase <= a < FontEnd ==> m[a] == FontTable[a - FontBase]
    ensures forall a :: 0 <= a < MemorySize && !(FontBase <= a < FontEnd) ==> m[a] == 0
  {
    var cleared: seq<u8> := seq(MemorySize, _ => 0);
    assert forall a :: 0 <= a < MemorySize ==> cleared[a] == 0;
    Overwrite(cleared, FontBase, FontTable)
  }

  /** The address of the sprite for hexadecimal digit d. */
  function GlyphAddress(d: nat): (a: nat)
    requires d < GlyphCount
    ensures FontBase <= a && a + GlyphHeight <= FontEnd
  {
    FontBase + GlyphHeight * d
  }

  /** After a reset, the five cells from GlyphAddress(d) hold the sprite of digit d. */
  lemma {:induction false} InitialMemoryGlyph(d: nat)
    requires d < GlyphCount
    ensures InitialMemory()[GlyphAddress(d) .. GlyphAddress(d) + GlyphHeight] == Glyph(d)
  {
    var a := GlyphAddress(d);
    GlyphsAt(GlyphCount, d);
    assert InitialMemory()[a .. a + GlyphHeight] == FontTable[GlyphHeight * d .. GlyphHeight * d + GlyphHeight];
  }

  /** The store after a reset followed by loading a ROM: the font below 0x200,
      the ROM from 0x200, and zero in every other cell (in particular in every
      cell past the end of the ROM). */
  lemma {:induction false} BootImage(rom: seq<u8>)
    requires RomFits(|rom|)
    ensures |Overwrite(InitialMemory(), RomBase, rom)| == MemorySize
    ensures Overwrite(InitialMemory(), RomBase, rom)[FontBase..FontEnd] == FontTable
    ensures Overwrite(InitialMemory(), RomBase, rom)[RomBase..RomBase + |rom|] == rom
    ensures forall a :: 0 <= a < MemorySize && !(FontBase <= a < FontEnd) && !(RomBase <= a < RomBase + |rom|) ==>
      Overwrite(InitialMemory(), RomBase, rom)[a] == 0
  {
  }
}
