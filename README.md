# opentui Go bindings and console example, in Dafny

This project models the Go side of opentui: the thin wrappers around the
native rendering library (`packages/go`) and the interactive console example
(`packages/go/examples/console`). The native library itself is reached only
through foreign calls, so the model keeps, for each wrapper object, whether its
native handle is still open and the ordered log of the state-changing foreign
calls it has issued, with their arguments; whatever the foreign calls return
(a new handle, a count, a line table, the arrays behind a direct-access view)
is a parameter of the method that receives it.

What is modelled, module by module:

- `Ints` — Go's `uint8`, `uint16`, `uint32` and `int32` as integer subsets and the
  wrapping conversions `uint32(x)` and `int32(x)`/`rune(x)`.
- `Utf8` — Go strings as UTF-8 bytes: the encoding `[]byte(s)`, the byte count
  `len(s)` and a decoder that reads the encoding back.
- `GoStrings` — the library functions the console example uses on text:
  `unicode.IsSpace`, `strings.TrimSpace`, `strings.Fields`, `strconv.Atoi`
  (64-bit `int`) and `%d`.
- `OpenTui` (`opentui.go`) — `stringToC`, `BorderSides`, the `TextAlignment`
  values and `packBorderOptions`, with the decoding the native side applies.
- `Types` (`types.go`) — `Cell`, the attribute and modifier bits, `LineInfo`,
  `Error`/`newError` and `Rect.Contains`/`Rect.Overlaps` evaluated in int32.
- `Buffers` (`buffer.go`) — `Buffer` (open, closed or owned by a renderer) with
  `NewBuffer`, `Close`, `Valid`, `Resize`, `DrawText`, `DrawBox` and
  `GetDirectAccess`; `DirectAccess`, a row-major `Width`×`Height` grid held in four
  parallel arrays, with `GetCell` and the in-place `SetCell`.
- `TextBuffers` (`textbuffer.go`) — `TextBuffer` with its lifecycle, every
  wrapper method, the `GetLineInfo` loop and `GetDirectAccess`;
  `TextBufferDirectAccess` with `GetChar`, `SetChar`, `GetStyle`, `SetStyle`.
- `Console` (`examples/console/main.go`) — `ConsoleButton` hit testing, the
  background choice and box drawn by `Render`, `Click`; `DemoState` with
  `HandleMouseMove`, `HandleMouseClick` and keyboard dispatch (`handleInput`); `min`.
- `ConsoleInput` (`examples/console/input.go`) — the terminal as the byte
  sequence it delivers: `ReadInput`, `parseAnsiSequence`, `ReadKey` as methods
  over a read cursor, each proved equal to a function of the unread bytes
  (`ReadKey`'s loop is stated once for any event reader, `ReadKeyWith`, and
  applied to `ReadInput`); and `GetTerminalSize` as a function of the output
  of `stty size`.

Behaviour worth knowing that the model makes explicit:

- `ReadInput` reads and drops the byte after a lone ESC (the code comment
  speaks of putting it back, the code does not).
- `parseAnsiSequence` stops at the first ASCII letter or once the sequence holds
  21 bytes; since 'M' is a letter it can only be the last byte, so a sequence is
  a mouse click exactly when it ends in 'M'.
- `ConsoleButton.Contains` works in uint32: a button whose `uint32(X)+Width`
  wraps (a negative `X`, say) contains no point at all.
- `Rect.Contains` works in int32: a width of 2^31 or more turns negative, so when
  the wrapped edge `X + Width - 2^32` is still an int32 it lies left of `X` and
  the rectangle contains nothing. At `X = -2^31` the sum wraps a second time and
  the rectangle of width 2^31 and height 1 contains (-1, 0).
- `stringToC` hands C the UTF-8 bytes and their count, so a box-drawing
  character such as '─' counts 3, not 1.

## Model

| member | source | states |
|---|---|---|
| Ints.ToU32 | packages/go/buffer.go:317 | `uint32(x)` equals `x` modulo 2^32, and is `x` itself when `x` is already in range |
| Ints.ToI32 | packages/go/buffer.go:303 | `rune(u)` is the int32 equal to `u` modulo 2^32, and `u` itself when it fits in int32 |
| Ints.RuneRoundTrip | packages/go/buffer.go:303-317 | storing a rune as uint32 and reading it back as a rune gives the same rune |
| GoStrings.AsciiSpaces | packages/go/examples/console/input.go:196 | on ASCII, `unicode.IsSpace` holds exactly for space, tab, newline, vertical tab, form feed and carriage return; never for a digit or a letter |
| GoStrings.LeadingSpaces | packages/go/examples/console/input.go:196 | the index of the first non-space character: everything before it is space |
| GoStrings.TrailingStart | packages/go/examples/console/input.go:196 | the index just past the last non-space character: everything from it on is space |
| GoStrings.TrimLeft | packages/go/examples/console/input.go:196 | the result is a suffix of the input, everything removed is space, and it does not start with a space |
| GoStrings.TrimRight | packages/go/examples/console/input.go:196 | the result is a prefix of the input, everything removed is space, and it does not end with a space |
| GoStrings.TrimSpaceIsMiddle | packages/go/examples/console/input.go:196 | the result of `TrimSpace` is a contiguous part of the input with only spaces before and after it, and neither starts nor ends with a space |
| GoStrings.WordLength | packages/go/examples/console/input.go:196 | the leading word is non-empty, has no space, and is followed by a space or the end |
| GoStrings.Fields | packages/go/examples/console/input.go:196 | every field is non-empty and holds no space |
| GoStrings.Atoi | packages/go/examples/console/input.go:201-202 | a parsed value fits in a 64-bit int and the text starts with a sign or a digit |
| GoStrings.NatToString | packages/go/examples/console/main.go:356-357 | the decimal form of a natural is a non-empty run of digits |
| GoStrings.Itoa | packages/go/examples/console/main.go:356-357 | `%d` prints a non-empty text without spaces |
| GoStrings.DigitsValueOfNatToString | packages/go/examples/console/input.go:201-202 | the digits printed for `n` have value `n` |
| GoStrings.AtoiOfItoa | packages/go/examples/console/input.go:201-202 | `Atoi` reads back every 64-bit int that `%d` prints |
| GoStrings.WordLengthOfWord | packages/go/examples/console/input.go:196 | a word followed by a space or the end is exactly the leading word |
| GoStrings.FieldsOfWord | packages/go/examples/console/input.go:196 | such a word is the first field, and the rest are the fields of what follows |
| GoStrings.FieldsOfTrimLeft | packages/go/examples/console/input.go:196 | removing leading spaces leaves the fields unchanged |
| GoStrings.FieldsOfTrailingSpace | packages/go/examples/console/input.go:196 | one trailing space leaves the fields unchanged |
| GoStrings.FieldsOfTrimRight | packages/go/examples/console/input.go:196 | removing trailing spaces leaves the fields unchanged |
| GoStrings.FieldsOfTrimSpace | packages/go/examples/console/input.go:196 | `TrimSpace` before `Fields` changes nothing |
| Utf8.RuneLen | packages/go/opentui.go:111-112 | one to four bytes per character, one exactly for ASCII |
| Utf8.EncodeRune | packages/go/opentui.go:111 | a character's encoding has `RuneLen` bytes, is the character itself for ASCII, and continues with continuation bytes |
| Utf8.Encode | packages/go/opentui.go:111 | `[]byte(s)` has at least one byte per character, and exactly one per character iff the text is ASCII |
| Utf8.Len | packages/go/opentui.go:107-112 | `len(s)` is the length of `[]byte(s)` |
| Utf8.DecodeRune | packages/go/opentui.go:111 | a decoded character consumes between one byte and all of the input |
| Utf8.DecodeEncodeRune | packages/go/opentui.go:111 | decoding a character's encoding gives the character and its length back |
| Utf8.DecodeEncode | packages/go/opentui.go:111 | decoding `[]byte(s)` gives `s` back |
| Utf8.EncodeAppend | packages/go/opentui.go:111 | the encoding of `s + t` is the encoding of `s` followed by that of `t` |
| Utf8.BoxDrawingIsThreeBytes | packages/go/opentui.go:107-112 | '─' (U+2500) is the three bytes E2 94 80 |
| OpenTui.StringToC | packages/go/opentui.go:107-113 | nil and length 0 exactly for the empty string; otherwise the UTF-8 bytes, which decode back to the string, and `len(s)`, their count |
| OpenTui.PackBorderOptions | packages/go/opentui.go:124-143 | the packed word is below 128 and decodes to the sides, the fill flag and `alignment & 3` |
| OpenTui.PackBorderOptionsInjective | packages/go/opentui.go:124-143 | two option sets pack equal exactly when they agree on sides, fill and the low two alignment bits |
| OpenTui.FlagBits | packages/go/opentui.go:126-140 | Top, Right, Bottom, Left and fill each set exactly their own bit 8, 4, 2, 1, 16 |
| OpenTui.AlignmentBits | packages/go/opentui.go:141 | only `alignment & 3` reaches the word, in bits 5 and 6 |
| OpenTui.AlignmentsRoundTrip | packages/go/opentui.go:141-152 | left, center and right alignment all survive packing |
| OpenTui.TopBottomFillCenterIsNonZero | packages/go/opentui_test.go:30-38 | Top and Bottom with fill and centred title pack to 58, not 0 |
| Types.AttributesAreDistinctBits | packages/go/types.go:21-29 | each attribute is one non-zero bit of a byte and no two share a bit |
| Types.ModifiersAreDistinctBits | packages/go/types.go:202-207 | each modifier is one non-zero bit and no two share a bit |
| Types.NewError | packages/go/types.go:109-111 | the error carries the given message |
| Types.AddI32 | packages/go/types.go:175-186 | int32 addition is the mathematical sum whenever that fits |
| Types.EdgeI32 | packages/go/types.go:175-186 | `x + int32(w)` is `x + w` whenever that sum fits in int32 |
| Types.Rect.Contains | packages/go/types.go:175-178 | without overflow, contains exactly the points with `X <= x < X+Width` and `Y <= y < Y+Height`; a zero-size rectangle contains nothing |
| Types.Rect.Overlaps | packages/go/types.go:181-186 | without overflow, overlap is the strict interval-intersection test on both axes |
| Types.OverlapsSymmetric | packages/go/types.go:181-186 | `a.Overlaps(b) == b.Overlaps(a)` |
| Types.CommonPointOverlaps | packages/go/types.go:175-186 | a point contained in both rectangles makes them overlap |
| Types.HugeWidthContainsNothing | packages/go/types.go:175-178 | a rectangle whose width is 2^31 or more, and whose wrapped edge `X + Width - 2^32` is still an int32, contains no point |
| Types.HugeWidthWrapsTwice | packages/go/types.go:175-178 | at `X = -2^31` a width of 2^31 wraps back to edge 0, and the rectangle contains (-1, 0) |
| Buffers.Buffer.Managed | packages/go/buffer.go:14-17 | a renderer's buffer is open and managed |
| Buffers.Buffer.Created | packages/go/buffer.go:38 | a created buffer is open, unmanaged, with only its creation call logged |
| Buffers.Buffer.NewBuffer | packages/go/buffer.go:28-41 | nil exactly for a zero dimension or a failed creation; a zero dimension never reaches C |
| Buffers.Buffer.Valid | packages/go/buffer.go:324-327 | valid exactly while the native handle is held (`ptr != nil`, here `open`) |
| Buffers.Buffer.Close | packages/go/buffer.go:46-53 | always nil; an unmanaged buffer is destroyed once and becomes invalid; a managed one stays valid; closing again changes nothing |
| Buffers.Buffer.Resize | packages/go/buffer.go:203-212 | a closed buffer or a zero dimension is an error with no call into C; otherwise exactly one resize call |
| Buffers.Buffer.DrawText | packages/go/buffer.go:108-125 | error only when closed; empty text succeeds without calling C |
| Buffers.Buffer.DrawBox | packages/go/buffer.go:176-199 | error only when closed; otherwise one call with the runes as uint32, the packed options and the title bytes |
| Buffers.Buffer.GetDirectAccess | packages/go/buffer.go:257-282 | error only when closed; otherwise a valid view of the buffer's arrays and size |
| Buffers.RunesToC | packages/go/types.go:144-155 | one uint32 per rune, each reading back as that rune |
| Buffers.IndexInGrid | packages/go/buffer.go:301 | an in-bounds coordinate has row-major index below `Width*Height` |
| Buffers.IndexInjective | packages/go/buffer.go:316 | distinct coordinates of a grid have distinct row-major indices |
| Buffers.DirectAccess.constructor | packages/go/buffer.go:286-293 | the view holds the given arrays and size |
| Buffers.DirectAccess.Index | packages/go/buffer.go:301 | the uint32 index `y*Width+x` does not wrap and lies inside the grid |
| Buffers.DirectAccess.GetCell | packages/go/buffer.go:296-308 | an error exactly when `x >= Width` or `y >= Height`; otherwise the cell stored at the coordinate's index |
| Buffers.DirectAccess.SetCell | packages/go/buffer.go:311-322 | an error exactly out of bounds, then nothing changes; otherwise only that index changes in each array, `GetCell` there returns the cell, and every other coordinate reads as before |
| TextBuffers.InitialCapacity | packages/go/textbuffer.go:21-23 | never 0: the requested length, or 1024 when it is 0 |
| TextBuffers.ZipLines | packages/go/textbuffer.go:271-277 | as many records as lines, record `i` being `(starts[i], widths[i])` |
| TextBuffers.LineStarts | packages/go/types.go:88-91 | the start index of each line record, in order |
| TextBuffers.LineWidths | packages/go/types.go:88-91 | the width of each line record, in order |
| TextBuffers.UnzipZipLines | packages/go/textbuffer.go:271-277 | both tables can be read back from the zipped records |
| TextBuffers.ZipUnzipLines | packages/go/textbuffer.go:271-277 | zipping the two tables of any record list gives that list back |
| TextBuffers.TextBuffer.Created | packages/go/textbuffer.go:30 | a new text buffer is open with its creation call logged |
| TextBuffers.TextBuffer.NewTextBuffer | packages/go/textbuffer.go:20-33 | asks C for capacity `length`, or 1024 when it is 0; nil when C fails |
| TextBuffers.TextBuffer.Valid | packages/go/textbuffer.go:359-362 | valid exactly while the native handle is held (`ptr != nil`, here `open`) |
| TextBuffers.TextBuffer.Close | packages/go/textbuffer.go:37-44 | always nil; destroys an open buffer once; invalid afterwards; idempotent |
| TextBuffers.TextBuffer.Command | packages/go/textbuffer.go:145-151 | closed: the "text buffer is closed" error and no call; open: exactly the given call |
| TextBuffers.TextBuffer.SetCell | packages/go/textbuffer.go:63-69 | closed check, then one call with the rune as uint32 |
| TextBuffers.TextBuffer.Resize | packages/go/textbuffer.go:136-142 | closed check, then one resize call |
| TextBuffers.TextBuffer.Reset | packages/go/textbuffer.go:145-151 | closed check, then one reset call |
| TextBuffers.TextBuffer.SetSelection | packages/go/textbuffer.go:154-169 | closed check, then one call with missing colours passed as nil |
| TextBuffers.TextBuffer.ResetSelection | packages/go/textbuffer.go:172-178 | closed check, then one call |
| TextBuffers.TextBuffer.SetDefaultForeground | packages/go/textbuffer.go:181-193 | closed check, then one call |
| TextBuffers.TextBuffer.SetDefaultBackground | packages/go/textbuffer.go:196-208 | closed check, then one call |
| TextBuffers.TextBuffer.SetDefaultAttributes | packages/go/textbuffer.go:211-223 | closed check, then one call |
| TextBuffers.TextBuffer.ResetDefaults | packages/go/textbuffer.go:226-232 | closed check, then one call |
| TextBuffers.TextBuffer.FinalizeLineInfo | packages/go/textbuffer.go:236-242 | closed check, then one call |
| TextBuffers.TextBuffer.Query | packages/go/textbuffer.go:47-60 | `Length`, `Capacity`, `LineCount`: an error exactly when closed, otherwise the reported number |
| TextBuffers.TextBuffer.WriteChunk | packages/go/textbuffer.go:73-98 | error only when closed; empty text writes 0 without calling C; otherwise one call and the reported count |
| TextBuffers.TextBuffer.WriteString | packages/go/textbuffer.go:101-103 | `WriteChunk` with no styling |
| TextBuffers.TextBuffer.WriteStyledString | packages/go/textbuffer.go:106-113 | `WriteChunk` with the given styling |
| TextBuffers.TextBuffer.Concat | packages/go/textbuffer.go:117-133 | error when this buffer is closed, when the other is nil or closed, or when C fails; otherwise a new open buffer |
| TextBuffers.TextBuffer.GetLineInfo | packages/go/textbuffer.go:255-280 | error exactly when closed; otherwise `lineCount` records pairing starts and widths, empty for no lines |
| TextBuffers.TextBuffer.GetDirectAccess | packages/go/textbuffer.go:284-312 | error exactly when closed; an empty buffer gets fresh empty arrays and length 0; otherwise the C arrays and their length |
| TextBuffers.TextBufferDirectAccess.constructor | packages/go/textbuffer.go:315-321 | the view holds the given arrays and length |
| TextBuffers.TextBufferDirectAccess.GetChar | packages/go/textbuffer.go:324-329 | an error exactly when `index >= Length`; otherwise the rune whose uint32 form is stored there |
| TextBuffers.TextBufferDirectAccess.SetChar | packages/go/textbuffer.go:332-338 | an error exactly out of range, then nothing changes; otherwise only `Chars[index]` changes and `GetChar` returns the rune |
| TextBuffers.TextBufferDirectAccess.GetStyle | packages/go/textbuffer.go:341-346 | an error exactly when `index >= Length`; otherwise the stored foreground, background and attributes |
| TextBuffers.TextBufferDirectAccess.SetStyle | packages/go/textbuffer.go:349-357 | an error exactly out of range, then nothing changes; otherwise only entry `index` of the style arrays changes, `GetStyle` returns it, and no character changes |
| Console.Min | packages/go/examples/console/main.go:362-367 | the result is one of the arguments and no larger than either |
| Console.ConsoleButton.constructor | packages/go/examples/console/main.go:36-76 | a new button has its geometry, texts and colours, is neither hovered nor pressed, and has no clicks |
| Console.ConsoleButton.Contains | packages/go/examples/console/main.go:79-82 | without uint32 wrap-around, contains exactly the points with `uint32(X) <= x < uint32(X)+Width` and likewise for y |
| Console.ConsoleButton.Background | packages/go/examples/console/main.go:87-94 | pressed colour when pressed, else hover colour when hovered, else the original |
| Console.ConsoleButton.BoxStyle | packages/go/examples/console/main.go:97-108 | all four sides, filled, label as centred title, default box characters |
| Console.ConsoleButton.Render | packages/go/examples/console/main.go:85-113 | one box drawn with the state's background; a closed buffer gives the wrapped error |
| Console.ConsoleButton.Click | packages/go/examples/console/main.go:133-138 | the button is pressed and its count rises by exactly one |
| Console.WrappedButtonContainsNothing | packages/go/examples/console/main.go:79-82 | a button whose far edge wraps contains no point |
| Console.FirstContaining | packages/go/examples/console/main.go:350-360 | the least index of a button containing the point, or none exactly when no button contains it |
| Console.CommandFor | packages/go/examples/console/main.go:459-497 | quit exactly for 'q', 'Q' and ESC; '1'..'5' press buttons 0..4; anything else does nothing |
| Console.DemoState.constructor | packages/go/examples/console/main.go:237-243 | the initial status text, running, mouse at the origin |
| Console.DemoState.HandleMouseMove | packages/go/examples/console/main.go:333-347 | mouse position recorded; each button hovered exactly when it contains the point; only buttons just left are released; counts unchanged |
| Console.DemoState.HandleMouseClick | packages/go/examples/console/main.go:350-360 | only the first button containing the point is clicked and reported in the status; with none, nothing changes |
| Console.DemoState.TriggerButton | packages/go/examples/console/main.go:465-470 | the button is clicked and the status names it with its new count |
| Console.ClickStatus | packages/go/examples/console/main.go:356-357 | the status line starts with "Last triggered: " |
| Console.KeyStatus | packages/go/examples/console/main.go:467-468 | the status line starts with "Triggered: " |
| Console.HandleInput | packages/go/examples/console/main.go:459-497 | false exactly for a quit key; a digit key clicks its button when it exists; otherwise nothing changes |
| ConsoleInput.SequenceLengthFrom | packages/go/examples/console/input.go:82-103 | the loop reads at most 21 bytes and stops at the first ending byte, or meets the end of input first |
| ConsoleInput.ParseAnsi | packages/go/examples/console/input.go:79-116 | an error exactly when input ends inside the sequence; otherwise 1 to 21 bytes read and a mouse click or key 0 |
| ConsoleInput.ParseInput | packages/go/examples/console/input.go:49-76 | an error only at end of input; an event consumes at least one byte; a key event carries a byte value |
| ConsoleInput.ReadKeyWith | packages/go/examples/console/input.go:139-151 | `ReadKey`'s loop over any event reader that fails only at end of input and consumes what it reads: its error is end of input, its key a byte value, its length within the input |
| ConsoleInput.ReadKeyFrom | packages/go/examples/console/input.go:139-151 | the loop over `ReadInput`: a key read is a byte value (0..255) and consumes at least one byte; errors are end of input |
| ConsoleInput.KeyTypeIsKeyEvent | packages/go/examples/console/input.go:74-75 | every event classified as "key" is a plain key event carrying only its key |
| ConsoleInput.ReadKeyOfPlainByte | packages/go/examples/console/input.go:139-147 | a byte other than ESC is returned as the key at once, after one byte |
| ConsoleInput.ReadKeyWithFindsFirstKey | packages/go/examples/console/input.go:139-151 | for any reader, a key read comes from a key event that follows only whole non-key events and ends where the read ends |
| ConsoleInput.ReadKeyWithAfterNonKeys | packages/go/examples/console/input.go:139-151 | for any reader, a key event after only whole non-key events is the loop's result, read to that event's end |
| ConsoleInput.ReadKeyWithErrorAfterNonKeys | packages/go/examples/console/input.go:139-151 | for any reader, a failed loop met the reader's error right after whole non-key events |
| ConsoleInput.ReadKeyWithFailsAfterNonKeys | packages/go/examples/console/input.go:139-151 | for any reader, a reader error after whole non-key events is the loop's error |
| ConsoleInput.ReadKeyFindsFirstKey | packages/go/examples/console/input.go:139-151 | a key read is the key of an event that follows only whole non-key events, and the read ends exactly where that event ends |
| ConsoleInput.KeyAfterNonKeysIsRead | packages/go/examples/console/input.go:139-151 | conversely, a key event that follows only whole non-key events is the key returned, read up to that event's end |
| ConsoleInput.ReadKeyErrorAfterNonKeys | packages/go/examples/console/input.go:139-151 | a read fails exactly when, after whole non-key events, no further event can be read |
| ConsoleInput.PlainByteIsKey | packages/go/examples/console/input.go:74-75 | a byte other than ESC is a key event carrying it |
| ConsoleInput.LoneEscapeIsKey | packages/go/examples/console/input.go:56-71 | ESC at end of input or before anything but '[' is the ESC key |
| ConsoleInput.MouseIffEndsWithM | packages/go/examples/console/input.go:89-112 | a sequence is a mouse click exactly when its last byte is 'M' |
| ConsoleInput.UnfinishedSequenceIsError | packages/go/examples/console/input.go:83-86 | an `ESC [` cut off before its end is the end-of-input error |
| ConsoleInput.SequenceEndsAt | packages/go/examples/console/input.go:89-102 | stopping at byte `k` fixes the sequence length at `k+1` |
| ConsoleInput.TerminalInput.constructor | packages/go/examples/console/input.go:28-31 | reading starts at the beginning of the input |
| ConsoleInput.TerminalInput.ReadByte | packages/go/examples/console/input.go:50 | the next byte and one step on, or the end-of-input error without moving |
| ConsoleInput.TerminalInput.ReadInput | packages/go/examples/console/input.go:49-76 | returns `ParseInput` of the unread bytes and consumes what it read |
| ConsoleInput.TerminalInput.ParseAnsiSequence | packages/go/examples/console/input.go:79-116 | returns `ParseAnsi` of the unread bytes and consumes what it read |
| ConsoleInput.KeyboardOnlyInput.constructor | packages/go/examples/console/input.go:130 | wraps the given terminal input |
| ConsoleInput.KeyboardOnlyInput.ReadKey | packages/go/examples/console/input.go:139-151 | returns `ReadKeyFrom` of the unread bytes: the first key event, skipping others; errors propagate |
| ConsoleInput.TerminalSize | packages/go/examples/console/input.go:188-209 | (80, 24) when the command fails, the field count is not 2, or a field is not an integer; otherwise (second field, first field) |
| ConsoleInput.AnsiComplete | packages/go/examples/console/input.go:109-115 | a finished sequence is a mouse click if it holds 'M', key 0 otherwise |
| ConsoleInput.AnsiEndOfInput | packages/go/examples/console/input.go:83-86 | input ending before the sequence does is the end-of-input error |
| ConsoleInput.FieldsOfLeadingSpace | packages/go/examples/console/input.go:196 | a leading space character never changes the fields |
| ConsoleInput.FieldsOfLastWord | packages/go/examples/console/input.go:196 | a word followed by a space character is one field |
| ConsoleInput.FieldsOfSpacedWord | packages/go/examples/console/input.go:196 | a word between two space characters is one field |
| ConsoleInput.FieldsOfTwoWords | packages/go/examples/console/input.go:196 | two words, each followed by a space character, are exactly those two fields |
| ConsoleInput.SttySizeRoundTrip | packages/go/examples/console/input.go:196-208 | the output "rows cols\n" is read as (cols, rows) |

## Left out

- The native library behind every foreign call (drawing, blending, layout, line
  finalisation, rendering): its source is not part of this model, so only the
  calls and their arguments are recorded.
- `renderer.go` and `examples/basic/main.go`: foreign calls behind a nil check,
  and a linear demo script.
- `Buffer.Width`, `Height`, `Size`, `Clear`, `GetRespectAlpha`, `SetRespectAlpha`,
  `SetCellWithAlphaBlending`, `FillRect`: a closed check and one foreign call
  each, the shape `Buffer.Resize` already shows.
- `Buffer.DrawPackedBuffer` and `DrawSuperSampleBuffer`: a closed check, then no
  call for empty data, else one foreign call, the shape `DrawText` shows.
- `Buffer.DrawFrameBuffer` and `DrawTextBuffer`: a closed check, then the error
  "frame buffer is nil or closed" (resp. "text buffer is nil or closed") when the
  other buffer is nil or closed, else one foreign call; `DrawTextBuffer` passes
  the clip rectangle's fields and a has-clip flag when one is given and zeros
  and false otherwise. The second closed check has the shape of
  `TextBuffer.Concat`'s.
- Colours: `RGBA` components are reals that are only copied; `NewRGB`/`NewRGBA`,
  the ×1.3/×1.2/×0.8 colour scaling in `NewConsoleButton` (whose results the
  constructor takes as arguments) and float32 rounding are not modelled.
- Console.Min: reals have no NaN, so Go's answer `b` when `a` is NaN is not captured.
- Time: `LastClickTime`, the sparkle drawn for 300 ms after a click, the render
  ticker and the clock reading in status lines (a parameter `timestamp`).
- `TriggerConsoleLog` and all printing; `DemoState.Render`, `Close` and the
  renderer set-up in `NewDemoState` (the five buttons are given to the constructor).
- The goroutine and channel input loop in `main`, and `runSimpleDemo`.
- `SetTerminalRaw`, `RestoreTerminal`, `NewTerminalInput`'s raw-mode switch and
  running `stty size`: the terminal is the byte sequence it delivers and the
  command's output is a parameter (`None` for failure); only end of input is
  modelled as a read error.
- cgo helpers (`setFinalizer`, `clearFinalizer`, `sliceToC`, `cArrayToSlice`,
  `toCFloat`): foreign memory and finalizers. `runesToC` is modelled as the
  conversion it performs.
- Buffers.DirectAccess.GetCell: requires `Width*Height` to fit in uint32, as it does
  for any buffer C can allocate; Go computes the array size and the index in
  uint32 and would wrap otherwise.
- Buffers.Buffer.GetDirectAccess: requires the arrays C returns to hold
  `width*height` entries and that product to fit in uint32 (Go computes it in uint32).
- TextBuffers.TextBuffer.GetLineInfo: requires the two tables C returns to hold
  at least `lineCount` entries.
- TextBuffers.TextBuffer.WriteChunk: Go narrows the text length to uint32; the
  model logs the full length, so for a chunk of 2^32 bytes or more the logged
  length is not Go's wrapped one.
- Read-only foreign calls are not logged: the width, height and array-pointer
  queries behind `Buffer.GetDirectAccess`, the length, capacity and line-count
  queries behind `TextBuffer.Query`, `GetLineInfo` and `TextBuffer.GetDirectAccess`.
  Their answers are parameters of the methods that receive them.
- Buffers.Buffer.GetDirectAccess and TextBuffers.TextBuffer.GetDirectAccess: require
  the arrays C returns to be distinct objects, as the native library allocates
  them separately; what writes through aliased arrays would do is not modelled.
- Buffers.Buffer.DrawBox: Go narrows the title length to uint32; a title of 2^32
  bytes or more, whose logged length would wrap, is not modelled.
- Console.ConsoleButton.Click: `ClickCount` is unbounded; Go's 64-bit `int` would wrap.
- Zero values returned beside an error (`0`, `RGBA{}`, nil) are folded into the
  `Result` type.
