/** packages/go/opentui.go: colours, the string hand-off to C, and the packing
    of box-border options into one word. */
module OpenTui {
  import opened Ints
  import opened Wrappers
  import opened Utf8

  /** A colour; the components are float32 in Go. The wrappers only copy colours
      into foreign calls, so the model never computes with them. */
  datatype RGBA = RGBA(R: real, G: real, B: real, A: real)

  /** The (pointer, length) pair handed to C for a Go string: the string's UTF-8
      bytes and their count; `ptr` is `None` for nil. */
  datatype CBytes = CBytes(ptr: Option<seq<u8>>, len: nat)

  /** `stringToC`: nil and 0 for the empty string, otherwise the string's UTF-8
      bytes and `len(s)`, their count, which the receiving side can decode back
      into the string. */
  function StringToC(s: string): (r: CBytes)
    ensures (r.ptr == None && r.len == 0) <==> s == []
    ensures r.len == Len(s) && r.len >= |s|
    ensures r.ptr.Some? ==> |r.ptr.value| == r.len && Decode(r.ptr.value) == Some(s)
  {
    if Len(s) == 0 then CBytes(None, 0)
    else
      DecodeEncode(s);
      CBytes(Some(Encode(s)), Len(s))
  }

  /** Which sides of a box border to draw. */
  datatype BorderSides = BorderSides(Top: bool, Right: bool, Bottom: bool, Left: bool)

  /** `TextAlignment` values. */
  const AlignLeft: u8 := 0
  const AlignCenter: u8 := 1
  const AlignRight: u8 := 2

  /** `packBorderOptions`: Top, Right, Bottom, Left in bits 3..0, fill in bit 4,
      and the low two bits of the title alignment in bits 5..6. */
  function PackBorderOptions(sides: BorderSides, fill: bool, titleAlignment: bv8): (packed: bv32)
    ensures packed < 128
    ensures UnpackBorderOptions(packed) == (sides, fill, titleAlignment & 3)
  {
    var flags: bv32 :=
      (if sides.Top then 8 else 0)
      | (if sides.Right then 4 else 0)
      | (if sides.Bottom then 2 else 0)
      | (if sides.Left then 1 else 0)
      | (if fill then 1 << 4 else 0);
    var alignment: bv32 := ((titleAlignment & 3) as bv32) << 5;
    assert flags < 32 && alignment & 31 == 0 && alignment < 128;
    flags | alignment
  }

  /** How the receiving side reads the packed word back. */
  function UnpackBorderOptions(packed: bv32): (BorderSides, bool, bv8) {
    (BorderSides(packed & 8 != 0, packed & 4 != 0, packed & 2 != 0, packed & 1 != 0),
     packed & (1 << 4) != 0,
     ((packed >> 5) & 3) as bv8)
  }

  /** Two option sets pack to the same word exactly when they agree on the sides,
      the fill flag and the low two bits of the alignment. */
  lemma PackBorderOptionsInjective(s1: BorderSides, f1: bool, a1: bv8, s2: BorderSides, f2: bool, a2: bv8)
    ensures PackBorderOptions(s1, f1, a1) == PackBorderOptions(s2, f2, a2)
            <==> s1 == s2 && f1 == f2 && a1 & 3 == a2 & 3
  {
    var p1, p2 := PackBorderOptions(s1, f1, a1), PackBorderOptions(s2, f2, a2);
    if p1 == p2 {
      assert UnpackBorderOptions(p1) == UnpackBorderOptions(p2);
    }
  }

  /** Each side flag and the fill flag own exactly one bit, which no other option touches. */
  lemma FlagBits(sides: BorderSides, fill: bool, a: bv8)
    ensures PackBorderOptions(sides.(Top := true), fill, a) == PackBorderOptions(sides.(Top := false), fill, a) | 8
    ensures PackBorderOptions(sides.(Top := false), fill, a) & 8 == 0
    ensures PackBorderOptions(sides.(Right := true), fill, a) == PackBorderOptions(sides.(Right := false), fill, a) | 4
    ensures PackBorderOptions(sides.(Right := false), fill, a) & 4 == 0
    ensures PackBorderOptions(sides.(Bottom := true), fill, a) == PackBorderOptions(sides.(Bottom := false), fill, a) | 2
    ensures PackBorderOptions(sides.(Bottom := false), fill, a) & 2 == 0
    ensures PackBorderOptions(sides.(Left := true), fill, a) == PackBorderOptions(sides.(Left := false), fill, a) | 1
    ensures PackBorderOptions(sides.(Left := false), fill, a) & 1 == 0
    ensures PackBorderOptions(sides, true, a) == PackBorderOptions(sides, false, a) | 16
    ensures PackBorderOptions(sides, false, a) & 16 == 0
  {
    SideBit(sides.(Top := true), sides.(Top := false), fill, a, 8);
    SideBit(sides.(Right := true), sides.(Right := false), fill, a, 4);
    SideBit(sides.(Bottom := true), sides.(Bottom := false), fill, a, 2);
    SideBit(sides.(Left := true), sides.(Left := false), fill, a, 1);
  }

  /** Two side sets that differ in one side, whose bit is `bit`, pack to words
      that differ in that bit alone. */
  lemma SideBit(on: BorderSides, off: BorderSides, fill: bool, a: bv8, bit: bv32)
    requires bit == 8 || bit == 4 || bit == 2 || bit == 1
    requires bit == 8 ==> on == off.(Top := true) && !off.Top
    requires bit == 4 ==> on == off.(Right := true) && !off.Right
    requires bit == 2 ==> on == off.(Bottom := true) && !off.Bottom
    requires bit == 1 ==> on == off.(Left := true) && !off.Left
    ensures PackBorderOptions(on, fill, a) == PackBorderOptions(off, fill, a) | bit
    ensures PackBorderOptions(off, fill, a) & bit == 0
  {
  }

  /** Only the low two bits of the alignment reach the word, in bits 5..6. */
  lemma AlignmentBits(sides: BorderSides, fill: bool, a: bv8)
    ensures PackBorderOptions(sides, fill, a) == PackBorderOptions(sides, fill, a & 3)
    ensures PackBorderOptions(sides, fill, a) >> 5 == (a & 3) as bv32
  {
  }

  /** Every `TextAlignment` constant survives the packing unchanged. */
  lemma AlignmentsRoundTrip(sides: BorderSides, fill: bool)
    ensures UnpackBorderOptions(PackBorderOptions(sides, fill, AlignLeft as bv8)).2 == AlignLeft as bv8
    ensures UnpackBorderOptions(PackBorderOptions(sides, fill, AlignCenter as bv8)).2 == AlignCenter as bv8
    ensures UnpackBorderOptions(PackBorderOptions(sides, fill, AlignRight as bv8)).2 == AlignRight as bv8
  {
  }

  /** Top and Bottom with fill and centred title pack to a non-zero word. */
  lemma TopBottomFillCenterIsNonZero()
    ensures PackBorderOptions(BorderSides(true, false, true, false), true, AlignCenter as bv8) == 58
  {
  }
}
