/** packages/go/textbuffer.go: the `TextBuffer` wrapper around a native text
    buffer, its line information and the `TextBufferDirectAccess` view. */
module TextBuffers {
  import opened Ints
  import opened Wrappers
  import opened OpenTui
  import opened Types

  const ErrTextBufferClosed := Error("text buffer is closed")
  const ErrOtherClosed := Error("other text buffer is nil or closed")
  const ErrConcatFailed := Error("failed to concatenate text buffers")
  const ErrIndexOutOfBounds := Error("index out of bounds")

  /** The capacity used when `NewTextBuffer` is asked for length 0. */
  const DefaultCapacity: u32 := 1024

  /** A styled text fragment; a missing style is nil in Go. */
  datatype TextChunk = TextChunk(Text: string, Foreground: Option<RGBA>, Background: Option<RGBA>,
                                 Attributes: Option<bv8>)

  /** A call into the C library issued by a `TextBuffer`, with the arguments it passes. */
  datatype TextBufferCall =
    | CreateTextBuffer(capacity: u32, widthMethod: u8)
    | DestroyTextBuffer
    | TextBufferSetCell(index: u32, codePoint: u32, cellFg: RGBA, cellBg: RGBA, cellAttributes: bv16)
    | TextBufferWriteChunk(text: CBytes, chunkFg: Option<RGBA>, chunkBg: Option<RGBA>, chunkAttributes: Option<bv8>)
    | TextBufferConcat
    | TextBufferResize(newLength: u32)
    | TextBufferReset
    | TextBufferSetSelection(start: u32, end: u32, selectionBg: Option<RGBA>, selectionFg: Option<RGBA>)
    | TextBufferResetSelection
    | TextBufferSetDefaultFg(defaultFg: Option<RGBA>)
    | TextBufferSetDefaultBg(defaultBg: Option<RGBA>)
    | TextBufferSetDefaultAttributes(defaultAttributes: Option<bv8>)
    | TextBufferResetDefaults
    | TextBufferFinalizeLineInfo

  /** The capacity `NewTextBuffer` passes to C for a requested length. */
  function InitialCapacity(length: u32): (capacity: u32)
    ensures capacity != 0
    ensures length != 0 ==> capacity == length
    ensures length == 0 ==> capacity == DefaultCapacity
  {
    if length == 0 then DefaultCapacity else length
  }

  /** The line records built from parallel start and width tables, pairwise. */
  function ZipLines(starts: seq<u32>, widths: seq<u32>): (lines: seq<LineInfo>)
    requires |starts| == |widths|
    ensures |lines| == |starts|
    ensures forall i :: 0 <= i < |lines| ==> lines[i] == LineInfo(starts[i], widths[i])
  {
    if starts == [] then []
    else [LineInfo(starts[0], widths[0])] + ZipLines(starts[1..], widths[1..])
  }

  /** The start index of each line. */
  function LineStarts(lines: seq<LineInfo>): (starts: seq<u32>)
    ensures |starts| == |lines|
    ensures forall i :: 0 <= i < |lines| ==> starts[i] == lines[i].StartIndex
  {
    if lines == [] then [] else [lines[0].StartIndex] + LineStarts(lines[1..])
  }

  /** The width of each line. */
  function LineWidths(lines: seq<LineInfo>): (widths: seq<u32>)
    ensures |widths| == |lines|
    ensures forall i :: 0 <= i < |lines| ==> widths[i] == lines[i].Width
  {
    if lines == [] then [] else [lines[0].Width] + LineWidths(lines[1..])
  }

  /** Zipping loses nothing: both tables can be read back from the line records. */
  lemma {:induction false} UnzipZipLines(starts: seq<u32>, widths: seq<u32>)
    requires |starts| == |widths|
    ensures LineStarts(ZipLines(starts, widths)) == starts
    ensures LineWidths(ZipLines(starts, widths)) == widths
  {
    if starts != [] {
      UnzipZipLines(starts[1..], widths[1..]);
    }
  }

  /** Zipping the two tables of a list of line records gives that list back. */
  lemma {:induction false} ZipUnzipLines(lines: seq<LineInfo>)
    ensures ZipLines(LineStarts(lines), LineWidths(lines)) == lines
  {
    if lines != [] {
      ZipUnzipLines(lines[1..]);
    }
  }

  /** `TextBuffer`. The native pointer is modelled by `open` (`ptr != nil`); the
      content the C library keeps is not modelled, only the calls the wrapper
      makes into it, in order, in `calls`. */
  class TextBuffer {
    var open: bool
    var calls: seq<TextBufferCall>

    /** A text buffer just returned by the C library, recording the call that made it. */
    constructor Created(call: TextBufferCall)
      ensures open && calls == [call]
    {
      open, calls := true, [call];
    }

    /** `NewTextBuffer`: asks C for a buffer of capacity `length`, or 1024 when
        `length` is 0; nil when C returns none (`created` says whether it did). */
    static method NewTextBuffer(length: u32, widthMethod: u8, created: bool) returns (tb: TextBuffer?)
      ensures tb == null <==> !created
      ensures tb != null ==> fresh(tb) && tb.open
      ensures tb != null ==> tb.calls == [CreateTextBuffer(InitialCapacity(length), widthMethod)]
    {
      var capacity := length;
      if capacity == 0 {
        capacity := 1024;
      }
      if !created {
        return null;
      }
      tb := new TextBuffer.Created(CreateTextBuffer(capacity, widthMethod));
    }

    /** `Valid`: the text buffer has not been closed. */
    predicate Valid(): (valid: bool)
      reads this
      ensures valid <==> open
    {
      open
    }

    /** `Close`: destroys an open buffer; closing again does nothing. Always nil. */
    method Close() returns (err: Option<Error>)
      modifies this`open, this`calls
      ensures err == None && !Valid()
      ensures calls == if old(open) then old(calls) + [DestroyTextBuffer] else old(calls)
    {
      if open {
        calls := calls + [DestroyTextBuffer];
        open := false;
      }
      return None;
    }

    /** The shape shared by the operations that are a closed check and one call into C:
        an error on a closed buffer, otherwise exactly that call. */
    method Command(call: TextBufferCall) returns (err: Option<Error>)
      modifies this`calls
      ensures err.Some? <==> !open
      ensures err.Some? ==> err.value == ErrTextBufferClosed && calls == old(calls)
      ensures err.None? ==> calls == old(calls) + [call]
    {
      if !open {
        return Some(ErrTextBufferClosed);
      }
      calls := calls + [call];
      return None;
    }

    /** `SetCell`: the rune is passed to C as uint32. */
    method SetCell(index: u32, rune: i32, fg: RGBA, bg: RGBA, attributes: bv16) returns (err: Option<Error>)
      modifies this`calls
      ensures err.Some? <==> !open
      ensures err.Some? ==> err.value == ErrTextBufferClosed && calls == old(calls)
      ensures err.None? ==> calls == old(calls) + [TextBufferSetCell(index, ToU32(rune), fg, bg, attributes)]
    {
      err := Command(TextBufferSetCell(index, ToU32(rune), fg, bg, attributes));
    }

    /** `Resize`. */
    method Resize(newLength: u32) returns (err: Option<Error>)
      modifies this`calls
      ensures err.Some? <==> !open
      ensures err.Some? ==> err.value == ErrTextBufferClosed && calls == old(calls)
      ensures err.None? ==> calls == old(calls) + [TextBufferResize(newLength)]
    {
      err := Command(TextBufferResize(newLength));
    }

    /** `Reset`. */
    method Reset() returns (err: Option<Error>)
      modifies this`calls
      ensures err.Some? <==> !open
      ensures err.Some? ==> err.value == ErrTextBufferClosed && calls == old(calls)
      ensures err.None? ==> calls == old(calls) + [TextBufferReset]
    {
      err := Command(TextBufferReset);
    }

    /** `SetSelection`: a missing colour is passed as nil. */
    method SetSelection(start: u32, end: u32, bgColor: Option<RGBA>, fgColor: Option<RGBA>) returns (err: Option<Error>)
      modifies this`calls
      ensures err.Some? <==> !open
      ensures err.Some? ==> err.value == ErrTextBufferClosed && calls == old(calls)
      ensures err.None? ==> calls == old(calls) + [TextBufferSetSelection(start, end, bgColor, fgColor)]
    {
      err := Command(TextBufferSetSelection(start, end, bgColor, fgColor));
    }

    /** `ResetSelection`. */
    method ResetSelection() returns (err: Option<Error>)
      modifies this`calls
      ensures err.Some? <==> !open
      ensures err.Some? ==> err.value == ErrTextBufferClosed && calls == old(calls)
      ensures err.None? ==> calls == old(calls) + [TextBufferResetSelection]
    {
      err := Command(TextBufferResetSelection);
    }

    /** `SetDefaultForeground`. */
    method SetDefaultForeground(fg: Option<RGBA>) returns (err: Option<Error>)
      modifies this`calls
      ensures err.Some? <==> !open
      ensures err.Some? ==> err.value == ErrTextBufferClosed && calls == old(calls)
      ensures err.None? ==> calls == old(calls) + [TextBufferSetDefaultFg(fg)]
    {
      err := Command(TextBufferSetDefaultFg(fg));
    }

    /** `SetDefaultBackground`. */
    method SetDefaultBackground(bg: Option<RGBA>) returns (err: Option<Error>)
      modifies this`calls
      ensures err.Some? <==> !open
      ensures err.Some? ==> err.value == ErrTextBufferClosed && calls == old(calls)
      ensures err.None? ==> calls == old(calls) + [TextBufferSetDefaultBg(bg)]
    {
      err := Command(TextBufferSetDefaultBg(bg));
    }

    /** `SetDefaultAttributes`. */
    method SetDefaultAttributes(attributes: Option<bv8>) returns (err: Option<Error>)
      modifies this`calls
      ensures err.Some? <==> !open
      ensures err.Some? ==> err.value == ErrTextBufferClosed && calls == old(calls)
      ensures err.None? ==> calls == old(calls) + [TextBufferSetDefaultAttributes(attributes)]
    {
      err := Command(TextBufferSetDefaultAttributes(attributes));
    }

    /** `ResetDefaults`. */
    method ResetDefaults() returns (err: Option<Error>)
      modifies this`calls
      ensures err.Some? <==> !open
      ensures err.Some? ==> err.value == ErrTextBufferClosed && calls == old(calls)
      ensures err.None? ==> calls == old(calls) + [TextBufferResetDefaults]
    {
      err := Command(TextBufferResetDefaults);
    }

    /** `FinalizeLineInfo`. */
    method FinalizeLineInfo() returns (err: Option<Error>)
      modifies this`calls
      ensures err.Some? <==> !open
      ensures err.Some? ==> err.value == ErrTextBufferClosed && calls == old(calls)
      ensures err.None? ==> calls == old(calls) + [TextBufferFinalizeLineInfo]
    {
      err := Command(TextBufferFinalizeLineInfo);
    }

    /** `Length`, `Capacity` and `LineCount`: the number C reports (`reported`),
        or an error on a closed buffer. */
    method Query(reported: u32) returns (r: Result<u32, Error>)
      ensures r.Err? <==> !Valid()
      ensures r.Err? ==> r.error == ErrTextBufferClosed
      ensures r.Ok? ==> r.value == reported
    {
      if !open {
        return Err(ErrTextBufferClosed);
      }
      return Ok(reported);
    }

    /** `WriteChunk`: an empty text is written as 0 characters without calling C;
        otherwise the count C reports (`written`). */
    method WriteChunk(chunk: TextChunk, written: u32) returns (r: Result<u32, Error>)
      modifies this`calls
      ensures r.Err? <==> !open
      ensures r.Err? ==> r.error == ErrTextBufferClosed
      ensures r.Ok? ==> r.value == if chunk.Text == [] then 0 else written
      ensures calls == if open && chunk.Text != [] then
                         old(calls) + [TextBufferWriteChunk(StringToC(chunk.Text), chunk.Foreground,
                                                            chunk.Background, chunk.Attributes)]
                       else old(calls)
    {
      if !open {
        return Err(ErrTextBufferClosed);
      }
      var text := StringToC(chunk.Text);
      if text.ptr == None {
        return Ok(0);
      }
      calls := calls + [TextBufferWriteChunk(text, chunk.Foreground, chunk.Background, chunk.Attributes)];
      return Ok(written);
    }

    /** `WriteString`: `WriteChunk` with no styling. */
    method WriteString(text: string, written: u32) returns (r: Result<u32, Error>)
      modifies this`calls
      ensures r.Err? <==> !open
      ensures r.Ok? ==> r.value == if text == [] then 0 else written
      ensures calls == if open && text != [] then
                         old(calls) + [TextBufferWriteChunk(StringToC(text), None, None, None)]
                       else old(calls)
    {
      r := WriteChunk(TextChunk(text, None, None, None), written);
    }

    /** `WriteStyledString`: `WriteChunk` with the given optional styling. */
    method WriteStyledString(text: string, fg: Option<RGBA>, bg: Option<RGBA>, attributes: Option<bv8>,
                             written: u32)
      returns (r: Result<u32, Error>)
      modifies this`calls
      ensures r.Err? <==> !open
      ensures r.Ok? ==> r.value == if text == [] then 0 else written
      ensures calls == if open && text != [] then
                         old(calls) + [TextBufferWriteChunk(StringToC(text), fg, bg, attributes)]
                       else old(calls)
    {
      r := WriteChunk(TextChunk(text, fg, bg, attributes), written);
    }

    /** `Concat`: both buffers must be open; the result is a new buffer when C
        returns one (`created`). */
    method Concat(other: TextBuffer?, created: bool) returns (r: Result<TextBuffer, Error>)
      modifies this`calls
      ensures !open ==> r == Err(ErrTextBufferClosed)
      ensures open && (other == null || !other.open) ==> r == Err(ErrOtherClosed)
      ensures open && other != null && other.open && !created ==> r == Err(ErrConcatFailed)
      ensures r.Ok? <==> open && other != null && other.open && created
      ensures r.Ok? ==> fresh(r.value) && r.value.open && r.value.calls == [TextBufferConcat]
      ensures calls == if open && other != null && other.open then old(calls) + [TextBufferConcat]
                       else old(calls)
    {
      if !open {
        return Err(ErrTextBufferClosed);
      }
      if other == null || !other.open {
        return Err(ErrOtherClosed);
      }
      calls := calls + [TextBufferConcat];
      if !created {
        return Err(ErrConcatFailed);
      }
      var result := new TextBuffer.Created(TextBufferConcat);
      return Ok(result);
    }

    /** `GetLineInfo`: C reports `lineCount` lines and two tables of at least that
        many entries; the result pairs the tables entry by entry, and is empty
        when there are no lines. */
    method GetLineInfo(lineCount: u32, starts: seq<u32>, widths: seq<u32>) returns (r: Result<seq<LineInfo>, Error>)
      requires lineCount <= |starts| && lineCount <= |widths|
      ensures r.Err? <==> !Valid()
      ensures r.Err? ==> r.error == ErrTextBufferClosed
      ensures r.Ok? ==> r.value == ZipLines(starts[..lineCount], widths[..lineCount])
    {
      if !open {
        return Err(ErrTextBufferClosed);
      }
      if lineCount == 0 {
        return Ok([]);
      }
      var lines := new LineInfo[lineCount];
      var i: u32 := 0;
      while i < lineCount
        invariant i <= lineCount
        invariant forall k :: 0 <= k < i ==> lines[k] == LineInfo(starts[k], widths[k])
      {
        lines[i] := LineInfo(starts[i], widths[i]);
        i := i + 1;
      }
      return Ok(lines[..]);
    }

    /** `GetDirectAccess`: C reports `length` entries and four arrays of that
        length; an empty buffer gets fresh empty arrays instead. */
    method GetDirectAccess(length: u32, chars: array<u32>, fg: array<RGBA>, bg: array<RGBA>, attrs: array<bv16>)
      returns (r: Result<TextBufferDirectAccess, Error>)
      requires length > 0 ==> Parallel(chars, fg, bg, attrs, length)
      ensures r.Err? <==> !Valid()
      ensures r.Err? ==> r.error == ErrTextBufferClosed
      ensures r.Ok? ==> r.value.Valid() && r.value.Length == length
      ensures r.Ok? && length == 0 ==>
                && fresh(r.value.Chars) && fresh(r.value.Foreground)
                && fresh(r.value.Background) && fresh(r.value.Attributes)
      ensures r.Ok? && length > 0 ==>
                && r.value.Chars == chars && r.value.Foreground == fg
                && r.value.Background == bg && r.value.Attributes == attrs
    {
      if !open {
        return Err(ErrTextBufferClosed);
      }
      if length == 0 {
        var noChars := new u32[0];
        var noFg := new RGBA[0];
        var noBg := new RGBA[0];
        var noAttrs := new bv16[0];
        var da := new TextBufferDirectAccess(noChars, noFg, noBg, noAttrs, 0);
        return Ok(da);
      }
      var da := new TextBufferDirectAccess(chars, fg, bg, attrs, length);
      return Ok(da);
    }
  }

  /** Four distinct arrays of `length` entries each. */
  predicate Parallel(chars: array<u32>, fg: array<RGBA>, bg: array<RGBA>, attrs: array<bv16>, length: u32) {
    && chars.Length == length && fg.Length == length && bg.Length == length && attrs.Length == length
    && fg != bg && attrs as object != chars && attrs as object != fg && attrs as object != bg
  }

  /** A character's style: foreground, background and the 16-bit attributes. */
  datatype Style = Style(Foreground: RGBA, Background: RGBA, Attributes: bv16)

  /** `TextBufferDirectAccess`: four parallel arrays of `Length` entries. */
  class TextBufferDirectAccess {
    const Chars: array<u32>
    const Foreground: array<RGBA>
    const Background: array<RGBA>
    const Attributes: array<bv16>
    const Length: u32

    ghost predicate Valid() {
      Parallel(Chars, Foreground, Background, Attributes, Length)
    }

    constructor (chars: array<u32>, fg: array<RGBA>, bg: array<RGBA>, attrs: array<bv16>, length: u32)
      requires Parallel(chars, fg, bg, attrs, length)
      ensures Valid()
      ensures Chars == chars && Foreground == fg && Background == bg && Attributes == attrs
      ensures Length == length
    {
      Chars, Foreground, Background, Attributes, Length := chars, fg, bg, attrs, length;
    }

    /** `GetChar`: an error exactly when `index >= Length`; otherwise the rune
        whose uint32 encoding is the stored code point. */
    function GetChar(index: u32): (r: Result<i32, Error>)
      requires Valid()
      reads Chars
      ensures r.Err? <==> index >= Length
      ensures r.Err? ==> r.error == ErrIndexOutOfBounds
      ensures r.Ok? ==> ToU32(r.value) == Chars[index]
    {
      if index >= Length then Err(ErrIndexOutOfBounds) else Ok(ToI32(Chars[index]))
    }

    /** `SetChar`: out of range is an error that changes nothing; otherwise only
        `Chars[index]` changes, and `GetChar(index)` then returns `rune`. */
    method SetChar(index: u32, rune: i32) returns (err: Option<Error>)
      requires Valid()
      modifies Chars
      ensures err.Some? <==> index >= Length
      ensures err.Some? ==> err.value == ErrIndexOutOfBounds && unchanged(Chars)
      ensures err.None? ==> Chars[..] == old(Chars[..])[index := ToU32(rune)]
      ensures err.None? ==> GetChar(index) == Ok(rune)
      ensures forall i: u32 :: i != index ==> GetChar(i) == old(GetChar(i))
    {
      if index >= Length {
        return Some(ErrIndexOutOfBounds);
      }
      Chars[index] := ToU32(rune);
      RuneRoundTrip(rune);
      return None;
    }

    /** `GetStyle`: an error exactly when `index >= Length`; otherwise the three
        style entries stored at `index`. */
    function GetStyle(index: u32): (r: Result<Style, Error>)
      requires Valid()
      reads Foreground, Background, Attributes
      ensures r.Err? <==> index >= Length
      ensures r.Err? ==> r.error == ErrIndexOutOfBounds
      ensures r.Ok? ==> r.value.Foreground == Foreground[index] && r.value.Background == Background[index]
                        && r.value.Attributes == Attributes[index]
    {
      if index >= Length then Err(ErrIndexOutOfBounds)
      else Ok(Style(Foreground[index], Background[index], Attributes[index]))
    }

    /** `SetStyle`: out of range is an error that changes nothing; otherwise only
        entry `index` of the three style arrays changes, `GetStyle(index)` then
        returns the written style, and no character changes. */
    method SetStyle(index: u32, fg: RGBA, bg: RGBA, attributes: bv16) returns (err: Option<Error>)
      requires Valid()
      modifies Foreground, Background, Attributes
      ensures err.Some? <==> index >= Length
      ensures err.Some? ==> err.value == ErrIndexOutOfBounds && unchanged(Foreground, Background, Attributes)
      ensures err.None? ==>
                && Foreground[..] == old(Foreground[..])[index := fg]
                && Background[..] == old(Background[..])[index := bg]
                && Attributes[..] == old(Attributes[..])[index := attributes]
      ensures err.None? ==> GetStyle(index) == Ok(Style(fg, bg, attributes))
      ensures forall i: u32 :: i != index ==> GetStyle(i) == old(GetStyle(i))
      ensures forall i: u32 :: GetChar(i) == old(GetChar(i))
    {
      if index >= Length {
        return Some(ErrIndexOutOfBounds);
      }
      Foreground[index] := fg;
      Background[index] := bg;
      Attributes[index] := attributes;
      return None;
    }
  }
}
