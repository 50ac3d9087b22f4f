/** packages/go/examples/console/input.go: classifying the bytes read from the
    terminal into input events, and reading the terminal size from the output
    of `stty size`. The terminal is modelled as the byte sequence it delivers,
    end of input being the end of that sequence. */
module ConsoleInput {
  import opened Ints
  import opened Wrappers
  import opened GoStrings
  import opened Types

  /** The error `bufio.Reader.ReadByte` returns at end of input. */
  const ErrEOF := Error("EOF")

  /** The escape byte. */
  const ESC: u8 := 27

  /** Longest escape sequence body `parseAnsiSequence` accumulates. */
  const MaxSequenceLength: nat := 21

  /** The values of `InputEvent.Type`, a string in Go. */
  datatype EventType = TypeKey | TypeMouseMove | TypeMouseClick | TypeMouseRelease {
    /** The string Go uses for the type. */
    function Name(): string {
      match this
      case TypeKey => "key"
      case TypeMouseMove => "mouse_move"
      case TypeMouseClick => "mouse_click"
      case TypeMouseRelease => "mouse_release"
    }
  }

  /** `InputEvent`. */
  datatype InputEvent = InputEvent(Type: EventType, Key: i32, MouseX: u32, MouseY: u32, Button: int)

  function KeyEvent(key: i32): InputEvent {
    InputEvent(TypeKey, key, 0, 0, 0)
  }

  /** The only mouse event the classifier produces. */
  const MouseClick := InputEvent(TypeMouseClick, 0, 10, 10, 1)

  predicate IsLetter(b: u8) {
    'A' as u8 <= b <= 'Z' as u8 || 'a' as u8 <= b <= 'z' as u8
  }

  /** The loop of `parseAnsiSequence` stops after the byte at index `i` (0-based)
      when that byte ends a mouse sequence, is a letter, or makes the sequence
      longer than 20 bytes. */
  predicate EndsSequence(bytes: seq<u8>, i: nat)
    requires i < |bytes|
  {
    bytes[i] == 'M' as u8 || bytes[i] == 'm' as u8 || IsLetter(bytes[i]) || i + 1 > 20
  }

  /** How many bytes of `bytes` the sequence loop reads, scanning from index `i`;
      `None` when the input ends first. */
  function SequenceLengthFrom(bytes: seq<u8>, i: nat): (n: Option<nat>)
    requires i < MaxSequenceLength
    ensures n.Some? ==> i < n.value <= MaxSequenceLength && n.value <= |bytes| && EndsSequence(bytes, n.value - 1)
    ensures n.Some? ==> forall j :: i <= j < n.value - 1 ==> !EndsSequence(bytes, j)
    ensures n.None? ==> |bytes| < MaxSequenceLength && forall j :: i <= j < |bytes| ==> !EndsSequence(bytes, j)
    decreases MaxSequenceLength - i
  {
    if i >= |bytes| then None
    else if EndsSequence(bytes, i) then Some(i + 1)
    else SequenceLengthFrom(bytes, i + 1)
  }

  function SequenceLength(bytes: seq<u8>): Option<nat> {
    SequenceLengthFrom(bytes, 0)
  }

  /** `parseAnsiSequence` on the bytes after `ESC [`: the event and the number of
      bytes read, or the end-of-input error. */
  function ParseAnsi(bytes: seq<u8>): (r: Result<(InputEvent, nat), Error>)
    ensures r.Err? <==> SequenceLength(bytes).None?
    ensures r.Err? ==> r.error == ErrEOF
    ensures r.Ok? ==> 1 <= r.value.1 <= MaxSequenceLength && r.value.1 <= |bytes|
    ensures r.Ok? ==> r.value.0 == MouseClick || r.value.0 == KeyEvent(0)
  {
    match SequenceLength(bytes)
    case None => Err(ErrEOF)
    case Some(n) =>
      if 'M' as u8 in bytes[..n] then Ok((MouseClick, n)) else Ok((KeyEvent(0), n))
  }

  /** `ReadInput` on the bytes still unread: the event and the number of bytes read. */
  function ParseInput(bytes: seq<u8>): (r: Result<(InputEvent, nat), Error>)
    ensures r.Err? ==> r.error == ErrEOF
    ensures r.Ok? ==> 1 <= r.value.1 <= |bytes|
    ensures r.Ok? && r.value.0.Type == TypeKey ==> 0 <= r.value.0.Key < 256
  {
    if bytes == [] then Err(ErrEOF)
    else if bytes[0] == ESC then
      if |bytes| == 1 then Ok((KeyEvent(27), 1))
      else if bytes[1] == '[' as u8 then
        match ParseAnsi(bytes[2..])
        case Err(e) => Err(e)
        case Ok((event, n)) => Ok((event, n + 2))
      else Ok((KeyEvent(27), 2))
    else Ok((KeyEvent(bytes[0] as i32), 1))
  }

  /** `ReadKey` on the bytes still unread: the first key event's key and the
      number of bytes read up to it, skipping other events; an error stops it. */
  function ReadKeyFrom(bytes: seq<u8>): (r: Result<(i32, nat), Error>)
    ensures r.Err? ==> r.error == ErrEOF
    ensures r.Ok? ==> 0 <= r.value.0 < 256 && 1 <= r.value.1 <= |bytes|
  {
    ReadKeyWith(InputReader, bytes)
  }

  /** What `ReadInput` promises of one read: an error is the end of input; an
      event consumes at least one and at most all of the bytes, and a key event
      carries a byte value. */
  predicate IsEventRead(r: Result<(InputEvent, nat), Error>, bytes: seq<u8>) {
    match r
    case Err(e) => e == ErrEOF
    case Ok((event, n)) => 0 < n <= |bytes| && (event.Type == TypeKey ==> 0 <= event.Key < 256)
  }

  /** A reader of one event from the front of a byte sequence. */
  type EventParser = parse: seq<u8> -> Result<(InputEvent, nat), Error>
    | forall bytes :: IsEventRead(parse(bytes), bytes)
    witness (bytes: seq<u8>) => Err(ErrEOF)

  /** `ReadInput` as an event reader. */
  const InputReader: EventParser := ParseInput

  lemma ReaderIsParseInput(bytes: seq<u8>)
    ensures InputReader(bytes) == ParseInput(bytes)
  {
  }

  /** `ReadKey`'s loop over any event reader: the first key event's key and the
      number of bytes read up to it, skipping other events; an error stops it. */
  function ReadKeyWith(parse: EventParser, bytes: seq<u8>): (r: Result<(i32, nat), Error>)
    ensures r.Err? ==> r.error == ErrEOF
    ensures r.Ok? ==> 0 <= r.value.0 < 256 && 0 < r.value.1 <= |bytes|
    decreases |bytes|
  {
    match parse(bytes)
    case Err(e) => Err(e)
    case Ok((event, n)) =>
      if event.Type == TypeKey then Ok((event.Key, n))
      else
        match ReadKeyWith(parse, bytes[n..])
        case Err(e) => Err(e)
        case Ok((key, m)) => Ok((key, n + m))
  }

  /** The first `m` bytes are whole events as `parse` reads them, none of them
      a key event. */
  ghost predicate SkipsWith(parse: EventParser, bytes: seq<u8>, m: nat)
    decreases m
  {
    m == 0 ||
    match parse(bytes)
    case Err(_) => false
    case Ok((event, n)) => event.Type != TypeKey && n <= m && SkipsWith(parse, bytes[n..], m - n)
  }

  /** The first `m` bytes are whole events, none of them a key event. */
  ghost predicate SkipsNonKeys(bytes: seq<u8>, m: nat) {
    SkipsWith(InputReader, bytes, m)
  }

  /** For any reader: a successful read ends with a key event that follows
      whole non-key events. */
  lemma {:induction false} ReadKeyWithFindsFirstKey(parse: EventParser, bytes: seq<u8>)
    requires ReadKeyWith(parse, bytes).Ok?
    ensures var (key, n) := ReadKeyWith(parse, bytes).value;
            exists m: nat :: m < n && SkipsWith(parse, bytes, m) && parse(bytes[m..]).Ok?
              && parse(bytes[m..]).value.0.Type == TypeKey && parse(bytes[m..]).value.0.Key == key
              && parse(bytes[m..]).value.1 == n - m
    decreases |bytes|
  {
    var (event, k) := parse(bytes).value;
    if event.Type == TypeKey {
      assert bytes[0..] == bytes;
      assert SkipsWith(parse, bytes, 0);
    } else {
      var (key, n) := ReadKeyWith(parse, bytes).value;
      var rest := bytes[k..];
      ReadKeyWithFindsFirstKey(parse, rest);
      var m': nat :| m' < n - k && SkipsWith(parse, rest, m') && parse(rest[m'..]).Ok?
        && parse(rest[m'..]).value.0.Type == TypeKey && parse(rest[m'..]).value.0.Key == key
        && parse(rest[m'..]).value.1 == n - k - m';
      assert rest[m'..] == bytes[k + m'..];
      assert SkipsWith(parse, bytes, k + m');
    }
  }

  /** For any reader: a key event after whole non-key events is what the loop
      returns. */
  lemma {:induction false} ReadKeyWithAfterNonKeys(parse: EventParser, bytes: seq<u8>, m: nat)
    requires m <= |bytes| && SkipsWith(parse, bytes, m)
    requires parse(bytes[m..]).Ok? && parse(bytes[m..]).value.0.Type == TypeKey
    ensures ReadKeyWith(parse, bytes) == Ok((parse(bytes[m..]).value.0.Key, m + parse(bytes[m..]).value.1))
    decreases m
  {
    if m == 0 {
      assert bytes[0..] == bytes;
    } else {
      var n := parse(bytes).value.1;
      ReadKeyWithAfterNonKeys(parse, bytes[n..], m - n);
      assert bytes[n..][m - n..] == bytes[m..];
    }
  }

  /** For any reader: the loop fails exactly when, after whole non-key events,
      the reader fails, and with that error. */
  lemma {:induction false} ReadKeyWithErrorAfterNonKeys(parse: EventParser, bytes: seq<u8>)
    requires ReadKeyWith(parse, bytes).Err?
    ensures exists m: nat :: m <= |bytes| && SkipsWith(parse, bytes, m) && parse(bytes[m..]) == Err(ReadKeyWith(parse, bytes).error)
    decreases |bytes|
  {
    match parse(bytes)
    case Err(_) =>
      assert bytes[0..] == bytes;
      assert SkipsWith(parse, bytes, 0);
    case Ok((event, k)) =>
      var rest := bytes[k..];
      ReadKeyWithErrorAfterNonKeys(parse, rest);
      var m': nat :| m' <= |rest| && SkipsWith(parse, rest, m') && parse(rest[m'..]) == Err(ReadKeyWith(parse, rest).error);
      assert rest[m'..] == bytes[k + m'..];
      assert SkipsWith(parse, bytes, k + m');
  }

  /** For any reader: a reader error after whole non-key events is what the
      loop returns. */
  lemma {:induction false} ReadKeyWithFailsAfterNonKeys(parse: EventParser, bytes: seq<u8>, m: nat)
    requires m <= |bytes| && SkipsWith(parse, bytes, m) && parse(bytes[m..]).Err?
    ensures ReadKeyWith(parse, bytes) == Err(parse(bytes[m..]).error)
    decreases m
  {
    if m == 0 {
      assert bytes[0..] == bytes;
    } else {
      var n := parse(bytes).value.1;
      ReadKeyWithFailsAfterNonKeys(parse, bytes[n..], m - n);
      assert bytes[n..][m - n..] == bytes[m..];
    }
  }

  /** Every event `ParseInput` classifies as a key is a `KeyEvent`. */
  lemma KeyTypeIsKeyEvent(bytes: seq<u8>)
    requires ParseInput(bytes).Ok? && ParseInput(bytes).value.0.Type == TypeKey
    ensures ParseInput(bytes).value.0 == KeyEvent(ParseInput(bytes).value.0.Key)
  {
    if bytes[0] == ESC && |bytes| > 1 && bytes[1] == '[' as u8 {
    }
  }

  /** A byte other than ESC is read as that key at once. */
  lemma ReadKeyOfPlainByte(b: u8, rest: seq<u8>)
    requires b != ESC
    ensures ReadKeyFrom([b] + rest) == Ok((b as i32, 1))
  {
    PlainByteIsKey(b, rest);
  }

  /** `ReadKey` skips whole non-key events and returns the key of the event that
      follows them, having read exactly up to that event's end. */

  /** `ReadKey` skips whole non-key events and returns the key of the event that
      follows them, having read exactly up to that event's end. */
  lemma ReadKeyFindsFirstKey(bytes: seq<u8>)
    requires ReadKeyFrom(bytes).Ok?
    ensures var (key, n) := ReadKeyFrom(bytes).value;
            exists m: nat :: m < n && SkipsNonKeys(bytes, m) && ParseInput(bytes[m..]) == Ok((KeyEvent(key), n - m))
  {
    ReadKeyWithFindsFirstKey(InputReader, bytes);
    var (key, n) := ReadKeyFrom(bytes).value;
    var m: nat :| m < n && SkipsWith(InputReader, bytes, m) && InputReader(bytes[m..]).Ok?
      && InputReader(bytes[m..]).value.0.Type == TypeKey && InputReader(bytes[m..]).value.0.Key == key
      && InputReader(bytes[m..]).value.1 == n - m;
    ReaderIsParseInput(bytes[m..]);
    KeyTypeIsKeyEvent(bytes[m..]);
  }

  /** Conversely, a key event that follows only whole non-key events is what
      `ReadKey` returns, read up to that event's end. */
  lemma KeyAfterNonKeysIsRead(bytes: seq<u8>, m: nat, key: i32, len: nat)
    requires SkipsNonKeys(bytes, m) && m <= |bytes|
    requires ParseInput(bytes[m..]) == Ok((KeyEvent(key), len))
    ensures ReadKeyFrom(bytes) == Ok((key, m + len))
  {
    ReaderIsParseInput(bytes[m..]);
    ReadKeyWithAfterNonKeys(InputReader, bytes, m);
    KeyEventRead(ReadKeyFrom(bytes), InputReader(bytes[m..]), m, key, len);
  }

  /** The loop's result for a parsed `KeyEvent(key)` of `len` bytes after `m`
      skipped bytes. */
  lemma KeyEventRead(r: Result<(i32, nat), Error>, parsed: Result<(InputEvent, nat), Error>, m: nat, key: i32, len: nat)
    requires parsed == Ok((KeyEvent(key), len)) && r == Ok((parsed.value.0.Key, m + parsed.value.1))
    ensures r == Ok((key, m + len))
  {
  }

  /** `ReadKey` fails exactly when, after whole non-key events, no further
      event can be read. */
  lemma ReadKeyErrorAfterNonKeys(bytes: seq<u8>)
    ensures ReadKeyFrom(bytes).Err? <==>
            exists m: nat :: m <= |bytes| && SkipsNonKeys(bytes, m) && ParseInput(bytes[m..]).Err?
  {
    if ReadKeyFrom(bytes).Err? {
      ReadKeyWithErrorAfterNonKeys(InputReader, bytes);
      var m: nat :| m <= |bytes| && SkipsWith(InputReader, bytes, m) && InputReader(bytes[m..]) == Err(ReadKeyFrom(bytes).error);
      ReaderIsParseInput(bytes[m..]);
    }
    if exists m: nat :: m <= |bytes| && SkipsNonKeys(bytes, m) && ParseInput(bytes[m..]).Err? {
      var m: nat :| m <= |bytes| && SkipsNonKeys(bytes, m) && ParseInput(bytes[m..]).Err?;
      ReaderIsParseInput(bytes[m..]);
      ReadKeyWithFailsAfterNonKeys(InputReader, bytes, m);
    }
  }

  /** A byte other than ESC is a key event carrying that byte. */
  lemma PlainByteIsKey(b: u8, rest: seq<u8>)
    requires b != ESC
    ensures ParseInput([b] + rest) == Ok((KeyEvent(b as i32), 1))
  {
  }

  /** ESC at the end of input, or followed by anything but '[', is the ESC key;
      the byte after it, if any, is read and dropped. */
  lemma LoneEscapeIsKey(bytes: seq<u8>)
    requires bytes != [] && bytes[0] == ESC
    requires |bytes| == 1 || bytes[1] != '[' as u8
    ensures ParseInput(bytes) == Ok((KeyEvent(27), if |bytes| == 1 then 1 else 2))
  {
  }

  /** Only a sequence's last byte can stop the loop, so the sequence contains
      'M' exactly when it ends with 'M'; that is when it is a mouse click. */
  lemma MouseIffEndsWithM(bytes: seq<u8>)
    requires ParseAnsi(bytes).Ok?
    ensures var (event, n) := ParseAnsi(bytes).value;
            event == MouseClick <==> bytes[n - 1] == 'M' as u8
  {
    var n := SequenceLength(bytes).value;
    if bytes[n - 1] != 'M' as u8 {
      forall j | 0 <= j < n
        ensures bytes[..n][j] != 'M' as u8
      {
        if j < n - 1 {
          assert !EndsSequence(bytes, j);
        }
      }
    } else {
      assert bytes[..n][n - 1] == 'M' as u8;
    }
  }

  /** A sequence cut off by the end of input is the end-of-input error, and so
      is every unfinished `ESC [`. */
  lemma UnfinishedSequenceIsError(body: seq<u8>)
    requires |body| < MaxSequenceLength
    requires forall j :: 0 <= j < |body| ==> !IsLetter(body[j])
    ensures ParseInput([ESC, '[' as u8] + body) == Err(ErrEOF)
  {
    var bytes := [ESC, '[' as u8] + body;
    assert bytes[2..] == body;
    assert forall j :: 0 <= j < |body| ==> !EndsSequence(body, j);
  }

  /** None of the first `k` bytes ends the sequence. */
  predicate NoEndBefore(bytes: seq<u8>, k: nat) {
    forall j :: 0 <= j < k && j < |bytes| ==> !EndsSequence(bytes, j)
  }

  /** Once the loop has read `k` bytes without stopping, stopping at byte `k`
      fixes the sequence length at `k + 1`. */
  lemma SequenceEndsAt(bytes: seq<u8>, k: nat)
    requires k < MaxSequenceLength && k < |bytes| && EndsSequence(bytes, k)
    requires NoEndBefore(bytes, k)
    ensures SequenceLength(bytes) == Some(k + 1)
  {
  }

  /** A sequence of `n` bytes is classified by whether it holds an 'M'. */
  lemma AnsiComplete(bytes: seq<u8>, n: nat)
    requires SequenceLength(bytes) == Some(n)
    ensures ParseAnsi(bytes) == Ok((if 'M' as u8 in bytes[..n] then MouseClick else KeyEvent(0), n))
  {
  }

  /** Meeting the end of input before the loop stops is the end-of-input error. */
  lemma AnsiEndOfInput(bytes: seq<u8>, k: nat)
    requires k < MaxSequenceLength && k >= |bytes|
    requires NoEndBefore(bytes, k)
    ensures ParseAnsi(bytes) == Err(ErrEOF)
  {
  }

  /** `TerminalInput`: the unread input is `data[pos..]`. */
  class TerminalInput {
    const data: seq<u8>
    var pos: nat

    ghost predicate Valid()
      reads this
    {
      pos <= |data|
    }

    constructor (input: seq<u8>)
      ensures Valid() && data == input && pos == 0
    {
      data, pos := input, 0;
    }

    /** `bufio.Reader.ReadByte`: the next byte, or the end-of-input error. */
    method ReadByte() returns (r: Result<u8, Error>)
      requires Valid()
      modifies this`pos
      ensures Valid()
      ensures old(pos) < |data| ==> r == Ok(data[old(pos)]) && pos == old(pos) + 1
      ensures old(pos) == |data| ==> r == Err(ErrEOF) && pos == old(pos)
    {
      if pos == |data| {
        return Err(ErrEOF);
      }
      r := Ok(data[pos]);
      pos := pos + 1;
    }

    /** `ReadInput`: classifies the next bytes as one event. */
    method ReadInput() returns (r: Result<InputEvent, Error>)
      requires Valid()
      modifies this`pos
      ensures Valid()
      ensures match ParseInput(data[old(pos)..])
              case Ok((event, n)) => r == Ok(event) && pos == old(pos) + n
              case Err(e) => r == Err(e) && pos == |data|
    {
      ghost var start := pos;
      var b := ReadByte();
      if b.Err? {
        return Err(b.error);
      }
      if b.value == 27 {
        var next := ReadByte();
        if next.Err? {
          return Ok(KeyEvent(27));
        }
        if next.value == '[' as u8 {
          assert data[start..][2..] == data[start + 2..];
          r := ParseAnsiSequence();
          return;
        } else {
          return Ok(KeyEvent(27));
        }
      }
      return Ok(KeyEvent(b.value as i32));
    }

    /** `parseAnsiSequence`: reads bytes until one ends the sequence (a letter,
        or more than 20 bytes), then reports a mouse click if the sequence
        contains 'M' and key 0 otherwise. */
    method ParseAnsiSequence() returns (r: Result<InputEvent, Error>)
      requires Valid()
      modifies this`pos
      ensures Valid()
      ensures match ParseAnsi(data[old(pos)..])
              case Ok((event, n)) => r == Ok(event) && pos == old(pos) + n
              case Err(e) => r == Err(e) && pos == |data|
    {
      ghost var start := pos;
      ghost var rest := data[start..];
      var sequence: seq<u8> := [];
      while true
        invariant Valid() && pos == start + |sequence| && |sequence| < MaxSequenceLength
        invariant sequence == rest[..|sequence|]
        invariant NoEndBefore(rest, |sequence|)
        decreases |data| - pos
      {
        ghost var k := |sequence|;
        var b := ReadByte();
        if b.Err? {
          AnsiEndOfInput(rest, k);
          return Err(b.error);
        }
        assert rest[k] == b.value;
        assert rest[..k + 1] == rest[..k] + [b.value];
        sequence := sequence + [b.value];
        // a mouse terminator, any letter, or a 21st byte ends the sequence
        if b.value == 'M' as u8 || b.value == 'm' as u8 || IsLetter(b.value) || |sequence| > 20 {
          SequenceEndsAt(rest, k);
          break;
        }
      }
      AnsiComplete(rest, |sequence|);
      if 'M' as u8 in sequence {
        return Ok(MouseClick);
      }
      return Ok(KeyEvent(0));
    }
  }

  /** `KeyboardOnlyInput`. */
  class KeyboardOnlyInput {
    const input: TerminalInput

    constructor (terminal: TerminalInput)
      ensures input == terminal
    {
      input := terminal;
    }

    /** `ReadKey`: the key of the next key event, reading past other events;
        a read error is returned as it is. */
    method ReadKey() returns (r: Result<i32, Error>)
      requires input.Valid()
      modifies input`pos
      ensures input.Valid()
      ensures match ReadKeyFrom(input.data[old(input.pos)..])
              case Ok((key, n)) => r == Ok(key) && input.pos == old(input.pos) + n
              case Err(e) => r == Err(e) && input.pos == |input.data|
      decreases |input.data| - input.pos
    {
      ghost var start := input.pos;
      var event := input.ReadInput();
      if event.Err? {
        return Err(event.error);
      }
      if event.value.Type == TypeKey {
        return Ok(event.value.Key);
      }
      ghost var n := input.pos - start;
      assert input.data[start..][n..] == input.data[input.pos..];
      r := ReadKey();
    }
  }

  /** The size `GetTerminalSize` falls back to. */
  const DefaultColumns := 80
  const DefaultRows := 24

  /** `GetTerminalSize` given what `stty size` printed (`None` when the command
      failed): `(columns, rows)` from the two fields "rows columns", and (80, 24)
      on any failure. It never fails. */
  function TerminalSize(output: Option<string>): (size: (int, int))
    ensures output.None? ==> size == (DefaultColumns, DefaultRows)
    ensures output.Some? && |Fields(output.value)| != 2 ==> size == (DefaultColumns, DefaultRows)
    ensures output.Some? && |Fields(output.value)| == 2 ==>
              var parts := Fields(output.value);
              if Atoi(parts[0]).Some? && Atoi(parts[1]).Some? then size == (Atoi(parts[1]).value, Atoi(parts[0]).value)
              else size == (DefaultColumns, DefaultRows)
  {
    match output
    case None => (80, 24)
    case Some(out) =>
      var parts := Fields(TrimSpace(out));
      FieldsOfTrimSpace(out);
      if |parts| != 2 then (80, 24)
      else
        match (Atoi(parts[0]), Atoi(parts[1]))
        case (Some(rows), Some(cols)) => (cols, rows)
        case _ => (80, 24)
  }

  /** A leading space never changes the fields. */
  lemma FieldsOfLeadingSpace(c: char, s: string)
    requires IsSpace(c)
    ensures Fields([c] + s) == Fields(s)
  {
    assert ([c] + s)[1..] == s;
  }

  /** A word followed by one space character is one field. */
  lemma FieldsOfLastWord(w: string, end: char)
    requires w != [] && NoSpace(w) && IsSpace(end)
    ensures Fields(w + [end]) == [w]
  {
    assert Fields([end]) == [] by {
      FieldsOfLeadingSpace(end, []);
      assert [end] == [end] + [];
    }
    FieldsOfWord(w, [end]);
  }

  /** A space character, a word and a space character are one field. */
  lemma FieldsOfSpacedWord(sep: char, w: string, end: char)
    requires w != [] && NoSpace(w) && IsSpace(sep) && IsSpace(end)
    ensures Fields([sep] + (w + [end])) == [w]
  {
    FieldsOfLastWord(w, end);
    FieldsOfLeadingSpace(sep, w + [end]);
  }

  lemma RegroupTwoWords(first: string, second: string, sep: char, end: char)
    ensures first + [sep] + second + [end] == first + ([sep] + (second + [end]))
    ensures ([sep] + (second + [end]))[0] == sep
  {
  }

  /** Two words, each followed by one space character, are two fields. */
  lemma FieldsOfTwoWords(first: string, second: string, sep: char, end: char)
    requires first != [] && NoSpace(first) && second != [] && NoSpace(second)
    requires IsSpace(sep) && IsSpace(end)
    ensures Fields(first + [sep] + second + [end]) == [first, second]
  {
    var tail := [sep] + (second + [end]);
    RegroupTwoWords(first, second, sep, end);
    FieldsOfSpacedWord(sep, second, end);
    FieldsOfWord(first, tail);
  }

  /** What `stty size` prints, "rows columns\n", is read back as (columns, rows). */
  lemma SttySizeRoundTrip(rows: int, cols: int)
    requires InInt64(rows) && InInt64(cols)
    ensures TerminalSize(Some(Itoa(rows) + " " + Itoa(cols) + "\n")) == (cols, rows)
  {
    FieldsOfTwoWords(Itoa(rows), Itoa(cols), ' ', '\n');
    AtoiOfItoa(rows);
    AtoiOfItoa(cols);
  }

}
