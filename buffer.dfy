/** packages/go/buffer.go: the `Buffer` wrapper around a native OptimizedBuffer
    and the `DirectAccess` view of its cell arrays. */
module Buffers {
  import opened Ints
  import opened Wrappers
  import opened OpenTui
  import opened Types

  /** Width-calculation methods understood by the C library. */
  const WidthMethodWCWidth: u8 := 0
  const WidthMethodUnicode: u8 := 1

  const ErrBufferClosed := Error("buffer is closed")
  const ErrInvalidDimensions := Error("invalid dimensions")
  const ErrOutOfBounds := Error("coordinates out of bounds")

  /** Go's `BoxOptions`; `BorderChars` holds eight runes: top-left, top, top-right,
      right, bottom-right, bottom, bottom-left, left. */
  datatype BoxOptions = BoxOptions(Sides: BorderSides, Fill: bool, Title: string,
                                   TitleAlignment: u8, BorderChars: BoxChars)

  /** Go's `[8]rune`. */
  type BoxChars = s: seq<i32> | |s| == 8 witness [0, 0, 0, 0, 0, 0, 0, 0]

  /** `DefaultBoxChars`: the light box-drawing characters. */
  const DefaultBoxChars: BoxChars := [0x250C, 0x2500, 0x2510, 0x2502, 0x2502, 0x2514, 0x2500, 0x2518]

  /** A call into the C library issued by a `Buffer`, with the arguments it passes. */
  datatype BufferCall =
    | CreateOptimizedBuffer(width: u32, height: u32, respectAlpha: bool, widthMethod: u8)
    | DestroyOptimizedBuffer
    | BufferDrawText(text: CBytes, x: u32, y: u32, fg: RGBA, bg: Option<RGBA>, attributes: bv8)
    | BufferDrawBox(boxX: i32, boxY: i32, boxWidth: u32, boxHeight: u32, borderChars: seq<u32>,
                    packedOptions: bv32, borderColor: RGBA, backgroundColor: RGBA, title: CBytes)
    | BufferResize(width: u32, height: u32)

  /** `Buffer`. The native pointer is modelled by `open` (`ptr != nil`); what the
      C library does with the buffer is not modelled, only the calls the wrapper
      makes into it, in order, in `calls`. */
  class Buffer {
    var open: bool
    const managed: bool
    var calls: seq<BufferCall>

    /** A buffer owned by a renderer (`GetNextBuffer`, `GetCurrentBuffer`). */
    constructor Managed()
      ensures open && managed && calls == []
    {
      open, managed, calls := true, true, [];
    }

    /** A buffer just returned by `createOptimizedBuffer`. */
    constructor Created(width: u32, height: u32, respectAlpha: bool, widthMethod: u8)
      ensures open && !managed
      ensures calls == [CreateOptimizedBuffer(width, height, respectAlpha, widthMethod)]
    {
      open, managed := true, false;
      calls := [CreateOptimizedBuffer(width, height, respectAlpha, widthMethod)];
    }

    /** `NewBuffer`: nil for a zero dimension, before any call into C; otherwise
        whatever `createOptimizedBuffer` gives (`created` says whether it
        returned a buffer). */
    static method NewBuffer(width: u32, height: u32, respectAlpha: bool, widthMethod: u8, created: bool)
      returns (b: Buffer?)
      ensures b == null <==> width == 0 || height == 0 || !created
      ensures b != null ==> fresh(b) && b.open && !b.managed
      ensures b != null ==> b.calls == [CreateOptimizedBuffer(width, height, respectAlpha, widthMethod)]
    {
      if width == 0 || height == 0 {
        return null;
      }
      if !created {
        return null;
      }
      b := new Buffer.Created(width, height, respectAlpha, widthMethod);
    }

    /** `Valid`: the buffer has not been closed. */
    predicate Valid(): (valid: bool)
      reads this
      ensures valid <==> open
    {
      open
    }

    /** `Close`: destroys an open buffer it owns; a managed buffer stays open. Always nil. */
    method Close() returns (err: Option<Error>)
      modifies this`open, this`calls
      ensures err == None
      ensures open == (old(open) && managed)
      ensures calls == if old(open) && !managed then old(calls) + [DestroyOptimizedBuffer] else old(calls)
    {
      if open && !managed {
        calls := calls + [DestroyOptimizedBuffer];
        open := false;
      }
      return None;
    }

    /** `Resize`: rejects a closed buffer and a zero dimension without calling C. */
    method Resize(width: u32, height: u32) returns (err: Option<Error>)
      modifies this`calls
      ensures !open ==> err == Some(ErrBufferClosed)
      ensures open && (width == 0 || height == 0) ==> err == Some(ErrInvalidDimensions)
      ensures err.Some? ==> calls == old(calls)
      ensures err.None? <==> open && width > 0 && height > 0
      ensures err.None? ==> calls == old(calls) + [BufferResize(width, height)]
    {
      if !open {
        return Some(ErrBufferClosed);
      }
      if width == 0 || height == 0 {
        return Some(ErrInvalidDimensions);
      }
      calls := calls + [BufferResize(width, height)];
      return None;
    }

    /** `DrawText`: an empty string is a successful no-op that never reaches C. */
    method DrawText(text: string, x: u32, y: u32, fg: RGBA, bg: Option<RGBA>, attributes: bv8)
      returns (err: Option<Error>)
      modifies this`calls
      ensures err == if open then None else Some(ErrBufferClosed)
      ensures calls == if open && text != [] then old(calls) + [BufferDrawText(StringToC(text), x, y, fg, bg, attributes)]
                       else old(calls)
    {
      if !open {
        return Some(ErrBufferClosed);
      }
      var textC := StringToC(text);
      if textC.ptr == None {
        return None;
      }
      calls := calls + [BufferDrawText(textC, x, y, fg, bg, attributes)];
      return None;
    }

    /** `DrawBox`: packs the options with `packBorderOptions` and passes the
        border runes as uint32 and the title through `stringToC`. */
    method DrawBox(x: i32, y: i32, width: u32, height: u32, options: BoxOptions,
                   borderColor: RGBA, backgroundColor: RGBA)
      returns (err: Option<Error>)
      modifies this`calls
      ensures err == if open then None else Some(ErrBufferClosed)
      ensures !open ==> calls == old(calls)
      ensures open ==> calls == old(calls) + [BufferDrawBox(x, y, width, height, RunesToC(options.BorderChars),
                                                            PackBorderOptions(options.Sides, options.Fill, options.TitleAlignment as bv8),
                                                            borderColor, backgroundColor, StringToC(options.Title))]
    {
      if !open {
        return Some(ErrBufferClosed);
      }
      var borderChars := RunesToC(options.BorderChars);
      var packed := PackBorderOptions(options.Sides, options.Fill, options.TitleAlignment as bv8);
      var title := if options.Title != [] then StringToC(options.Title) else CBytes(None, 0);
      calls := calls + [BufferDrawBox(x, y, width, height, borderChars, packed, borderColor, backgroundColor, title)];
      return None;
    }

    /** `GetDirectAccess`: C reports the size (`width`, `height`) and the four cell
        arrays of `width*height` entries each; the view wraps exactly those arrays. */
    method GetDirectAccess(width: u32, height: u32, chars: array<u32>, fg: array<RGBA>,
                           bg: array<RGBA>, attrs: array<bv8>)
      returns (r: Result<DirectAccess, Error>)
      requires width * height < TWO_32 && fg != bg && Distinct(chars, fg, bg, attrs)
      requires chars.Length == width * height && fg.Length == width * height
      requires bg.Length == width * height && attrs.Length == width * height
      ensures r.Err? <==> !Valid()
      ensures r.Err? ==> r.error == ErrBufferClosed
      ensures r.Ok? ==> r.value.Valid() && r.value.Width == width && r.value.Height == height
      ensures r.Ok? ==> r.value.Chars == chars && r.value.Foreground == fg
                        && r.value.Background == bg && r.value.Attributes == attrs
    {
      if !open {
        return Err(ErrBufferClosed);
      }
      var da := new DirectAccess(chars, fg, bg, attrs, width, height);
      return Ok(da);
    }
  }

  /** Runes as the uint32 code points C receives. */
  function RunesToC(runes: seq<i32>): (r: seq<u32>)
    ensures |r| == |runes|
    ensures forall i :: 0 <= i < |r| ==> ToI32(r[i]) == runes[i]
  {
    if runes == [] then [] else [ToU32(runes[0])] + RunesToC(runes[1..])
  }

  lemma MulMonotone(a: nat, b: nat, c: nat)
    requires a <= b
    ensures a * c <= b * c
  {
  }

  /** A coordinate inside a `w`-wide, `h`-high grid has a row-major index inside the grid. */
  lemma IndexInGrid(x: nat, y: nat, w: nat, h: nat)
    requires x < w && y < h
    ensures y * w + x < w * h
  {
    MulMonotone(y + 1, h, w);
    assert y * w + x < (y + 1) * w;
  }

  /** Distinct coordinates of a `w`-wide grid have distinct row-major indices. */
  lemma IndexInjective(x1: nat, y1: nat, x2: nat, y2: nat, w: nat)
    requires x1 < w && x2 < w
    requires y1 * w + x1 == y2 * w + x2
    ensures x1 == x2 && y1 == y2
  {
    if y1 < y2 {
      MulMonotone(y1 + 1, y2, w);
    } else if y2 < y1 {
      MulMonotone(y2 + 1, y1, w);
    }
  }

  /** The byte-valued attribute array is a different object from the other three
      (Dafny does not tell arrays of bit-vectors apart from other arrays by type). */
  predicate Distinct(chars: array<u32>, fg: array<RGBA>, bg: array<RGBA>, attrs: array<bv8>) {
    attrs as object != chars && attrs as object != fg && attrs as object != bg
  }

  /** `DirectAccess`: the four parallel cell arrays of a buffer, row-major,
      `Width` cells per row. */
  class DirectAccess {
    const Chars: array<u32>
    const Foreground: array<RGBA>
    const Background: array<RGBA>
    const Attributes: array<bv8>
    const Width: u32
    const Height: u32

    /** Each array holds one entry per cell; the grid size fits the uint32 Go computes it in. */
    ghost predicate Valid() {
      Width * Height < TWO_32 &&
      Chars.Length == Width * Height && Foreground.Length == Width * Height &&
      Background.Length == Width * Height && Attributes.Length == Width * Height &&
      Foreground != Background && Distinct(Chars, Foreground, Background, Attributes)
    }

    constructor (chars: array<u32>, fg: array<RGBA>, bg: array<RGBA>, attrs: array<bv8>, width: u32, height: u32)
      requires width * height < TWO_32 && fg != bg && Distinct(chars, fg, bg, attrs)
      requires chars.Length == width * height && fg.Length == width * height
      requires bg.Length == width * height && attrs.Length == width * height
      ensures Valid()
      ensures Chars == chars && Foreground == fg && Background == bg && Attributes == attrs
      ensures Width == width && Height == height
    {
      Chars, Foreground, Background, Attributes := chars, fg, bg, attrs;
      Width, Height := width, height;
    }

    /** `index := y*da.Width + x` in uint32: never wraps for an in-bounds cell. */
    function Index(x: u32, y: u32): (i: nat)
      requires Valid() && x < Width && y < Height
      ensures i == y * Width + x && i < Width * Height
    {
      IndexInGrid(x, y, Width, Height);
      ToU32(y * Width + x)
    }

    /** The cell held at row-major index `i`, its code point read back as a rune. */
    function StoredCell(i: nat): Cell
      requires Valid() && i < Width * Height
      reads Chars, Foreground, Background, Attributes
    {
      Cell(ToI32(Chars[i]), Foreground[i], Background[i], Attributes[i])
    }

    /** `GetCell`: an error exactly when `x >= Width` or `y >= Height`; otherwise the
        cell stored at the coordinate's row-major index, its code point read back as a rune. */
    function GetCell(x: u32, y: u32): (r: Result<Cell, Error>)
      requires Valid()
      reads Chars, Foreground, Background, Attributes
      ensures r.Err? <==> x >= Width || y >= Height
      ensures r.Err? ==> r.error == ErrOutOfBounds
      ensures r.Ok? ==> r.value == StoredCell(Index(x, y))
    {
      if x >= Width || y >= Height then
        Err(ErrOutOfBounds)
      else
        var index := Index(x, y);
        Ok(StoredCell(index))
    }

    /** `SetCell`: out of bounds is an error that changes nothing; otherwise exactly
        the entry at the cell's index changes in each of the four arrays, a later
        `GetCell` there returns `cell`, and every other coordinate reads as before. */
    method SetCell(x: u32, y: u32, cell: Cell) returns (err: Option<Error>)
      requires Valid()
      modifies Chars, Foreground, Background, Attributes
      ensures err.Some? <==> x >= Width || y >= Height
      ensures err.Some? ==> err.value == ErrOutOfBounds
      ensures err.Some? ==> unchanged(Chars, Foreground, Background, Attributes)
      ensures err.None? ==>
                var i := Index(x, y);
                && Chars[..] == old(Chars[..])[i := ToU32(cell.Char)]
                && Foreground[..] == old(Foreground[..])[i := cell.Foreground]
                && Background[..] == old(Background[..])[i := cell.Background]
                && Attributes[..] == old(Attributes[..])[i := cell.Attributes]
      ensures err.None? ==> GetCell(x, y) == Ok(cell)
      ensures forall x': u32, y': u32 :: x' != x || y' != y ==> GetCell(x', y') == old(GetCell(x', y'))
    {
      if x >= Width || y >= Height {
        return Some(ErrOutOfBounds);
      }
      var index := Index(x, y);
      Chars[index] := ToU32(cell.Char);
      assert Chars[..] == old(Chars[..])[index := ToU32(cell.Char)];
      Foreground[index] := cell.Foreground;
      Background[index] := cell.Background;
      Attributes[index] := cell.Attributes;
      RuneRoundTrip(cell.Char);
      forall x': u32, y': u32 | x' < Width && y' < Height && (x' != x || y' != y)
        ensures Index(x', y') != index
      {
        if Index(x', y') == index {
          IndexInjective(x', y', x, y, Width);
        }
      }
      return None;
    }
  }
}
