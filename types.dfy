/** packages/go/types.go: cells, attribute and modifier bits, rectangles,
    line information and the error type. */
module Types {
  import opened Ints
  import opened OpenTui

  /** One terminal cell. */
  datatype Cell = Cell(Char: i32, Foreground: RGBA, Background: RGBA, Attributes: bv8)

  /** Text attribute bits (`Attr*`). */
  const AttrBold: bv8 := 1 << 0
  const AttrDim: bv8 := 1 << 1
  const AttrItalic: bv8 := 1 << 2
  const AttrUnderline: bv8 := 1 << 3
  const AttrBlink: bv8 := 1 << 4
  const AttrReverse: bv8 := 1 << 5
  const AttrStrike: bv8 := 1 << 6

  /** Key modifier bits (`Mod*`). */
  const ModShift: bv8 := 1 << 0
  const ModCtrl: bv8 := 1 << 1
  const ModAlt: bv8 := 1 << 2
  const ModSuper: bv8 := 1 << 3

  /** `v` has exactly one bit set. */
  predicate SingleBit(v: bv8) {
    v != 0 && v & (v - 1) == 0
  }

  /** Every attribute is a single non-zero bit of a byte, and no two share a bit. */
  lemma AttributesAreDistinctBits()
    ensures forall a <- [AttrBold, AttrDim, AttrItalic, AttrUnderline, AttrBlink, AttrReverse, AttrStrike] :: SingleBit(a)
    ensures var attrs := [AttrBold, AttrDim, AttrItalic, AttrUnderline, AttrBlink, AttrReverse, AttrStrike];
            forall i, j :: 0 <= i < j < |attrs| ==> attrs[i] & attrs[j] == 0
  {
  }

  /** Every modifier is a single non-zero bit, and no two share a bit. */
  lemma ModifiersAreDistinctBits()
    ensures forall m <- [ModShift, ModCtrl, ModAlt, ModSuper] :: SingleBit(m)
    ensures var mods := [ModShift, ModCtrl, ModAlt, ModSuper];
            forall i, j :: 0 <= i < j < |mods| ==> mods[i] & mods[j] == 0
  {
  }

  /** Information about one laid-out line of a text buffer. */
  datatype LineInfo = LineInfo(StartIndex: u32, Width: u32)

  /** Go's `Error` type: an error carrying a message. */
  datatype Error = Error(Message: string)

  /** `newError`. */
  function NewError(msg: string): (e: Error)
    ensures e.Message == msg
  {
    Error(msg)
  }

  /** Go's `a + b` on int32: wraps around modulo 2^32. */
  function AddI32(a: i32, b: i32): (r: i32)
    ensures -TWO_31 <= a + b < TWO_31 ==> r == a + b
  {
    ToI32(a + b)
  }

  /** Go's `x + int32(w)`: the far edge of a span, in int32 arithmetic. It is the
      mathematical `x + w` whenever that fits in int32, even if `int32(w)` is negative. */
  function EdgeI32(x: i32, w: u32): (e: i32)
    ensures -TWO_31 <= x + w < TWO_31 ==> e == x + w
  {
    AddI32(x, ToI32(w))
  }

  /** A rectangle: position (`Position`, embedded) and size (`Size`, embedded). */
  datatype Rect = Rect(X: i32, Y: i32, Width: u32, Height: u32) {

    /** The right and bottom edges, X+Width and Y+Height, are representable in int32. */
    predicate NoOverflow() {
      X + Width < TWO_31 && Y + Height < TWO_31
    }

    /** `Contains`, evaluated in int32 arithmetic: `int32(Width)` and the sums wrap. */
    predicate Contains(x: i32, y: i32)
      ensures NoOverflow() ==> (Contains(x, y) <==> X <= x < X + Width && Y <= y < Y + Height)
      ensures Width == 0 || Height == 0 ==> !Contains(x, y)
    {
      x >= X && x < EdgeI32(X, Width) &&
      y >= Y && y < EdgeI32(Y, Height)
    }

    /** `Overlaps`, evaluated in int32 arithmetic. */
    predicate Overlaps(other: Rect)
      ensures NoOverflow() && other.NoOverflow() ==>
                (Overlaps(other) <==> X < other.X + other.Width && other.X < X + Width &&
                                      Y < other.Y + other.Height && other.Y < Y + Height)
    {
      X < EdgeI32(other.X, other.Width) &&
      EdgeI32(X, Width) > other.X &&
      Y < EdgeI32(other.Y, other.Height) &&
      EdgeI32(Y, Height) > other.Y
    }
  }

  lemma OverlapsSymmetric(a: Rect, b: Rect)
    ensures a.Overlaps(b) == b.Overlaps(a)
  {
  }

  /** A point inside both rectangles makes them overlap, when neither edge overflows. */
  lemma CommonPointOverlaps(a: Rect, b: Rect, x: i32, y: i32)
    requires a.NoOverflow() && b.NoOverflow()
    requires a.Contains(x, y) && b.Contains(x, y)
    ensures a.Overlaps(b)
  {
  }

  /** Without the no-overflow condition `Contains` is not the mathematical test:
      a width of 2^31 or more turns negative in int32, and when the wrapped edge
      `X + Width - 2^32` stays in int32 it lies left of `X`, so the rectangle
      contains no point. */
  lemma HugeWidthContainsNothing(r: Rect, x: i32, y: i32)
    requires r.Width >= TWO_31 && r.X + r.Width - TWO_32 >= -TWO_31
    ensures !r.Contains(x, y)
  {
    assert ToI32(r.Width) == r.Width - TWO_32;
    assert EdgeI32(r.X, r.Width) == r.X + r.Width - TWO_32;
  }

  /** The condition on the wrapped edge is needed: at `X = -2^31` the sum wraps a
      second time and the rectangle of width 2^31 contains the point (-1, 0). */
  lemma HugeWidthWrapsTwice()
    ensures Rect(-0x8000_0000, 0, 0x8000_0000, 1).Contains(-1, 0)
  {
    assert EdgeI32(-0x8000_0000, 0x8000_0000) == 0;
  }
}
