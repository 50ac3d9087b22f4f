/** Go strings are UTF-8 byte sequences; the model's strings are sequences of
    Unicode scalar values. `[]byte(s)` and `len(s)` see the UTF-8 encoding. */
module Utf8 {
  import opened Ints
  import opened Wrappers

  /** How many bytes UTF-8 uses for `c`: 1 below U+0080, 2 below U+0800, 3 below
      U+10000, 4 above. */
  function RuneLen(c: char): (n: nat)
    ensures 1 <= n <= 4
    ensures n == 1 <==> (c as int) < 0x80
  {
    var u := c as int;
    if u < 0x80 then 1 else if u < 0x800 then 2 else if u < 0x1_0000 then 3 else 4
  }

  predicate IsContinuation(b: u8) {
    0x80 <= b < 0xC0
  }

  /** The UTF-8 encoding of one character. */
  function EncodeRune(c: char): (bytes: seq<u8>)
    ensures |bytes| == RuneLen(c)
    ensures (c as int) < 0x80 ==> bytes == [c as int]
    ensures forall i :: 1 <= i < |bytes| ==> IsContinuation(bytes[i])
  {
    var u := c as int;
    if u < 0x80 then [u]
    else if u < 0x800 then [0xC0 + u / 0x40, 0x80 + u % 0x40]
    else if u < 0x1_0000 then [0xE0 + u / 0x1000, 0x80 + (u / 0x40) % 0x40, 0x80 + u % 0x40]
    else [0xF0 + u / 0x4_0000, 0x80 + (u / 0x1000) % 0x40, 0x80 + (u / 0x40) % 0x40, 0x80 + u % 0x40]
  }

  /** `[]byte(s)`: the UTF-8 encoding of a string. */
  function Encode(s: string): (bytes: seq<u8>)
    ensures |bytes| >= |s|
    ensures |bytes| == |s| <==> forall i :: 0 <= i < |s| ==> (s[i] as int) < 0x80
  {
    if s == [] then [] else EncodeRune(s[0]) + Encode(s[1..])
  }

  /** `len(s)`: the number of bytes of the UTF-8 encoding. */
  function Len(s: string): (n: nat)
    ensures n == |Encode(s)|
  {
    if s == [] then 0 else RuneLen(s[0]) + Len(s[1..])
  }

  /** The scalar value `v` as a character, when it is one. */
  function ToChar(v: int): Option<char> {
    if 0 <= v < 0xD800 || 0xE000 <= v < 0x11_0000 then Some(v as char) else None
  }

  /** Reads one character and its length from the front of `bytes`. */
  function DecodeRune(bytes: seq<u8>): (r: Option<(char, nat)>)
    ensures r.Some? ==> 1 <= r.value.1 <= |bytes|
  {
    if bytes == [] then None
    else
      var b0 := bytes[0] as int;
      if b0 < 0x80 then
        match ToChar(b0) case None => None case Some(c) => Some((c, 1))
      else if 0xC0 <= b0 < 0xE0 && |bytes| >= 2 && IsContinuation(bytes[1]) then
        match ToChar((b0 - 0xC0) * 0x40 + (bytes[1] as int - 0x80))
        case None => None case Some(c) => Some((c, 2))
      else if 0xE0 <= b0 < 0xF0 && |bytes| >= 3 && IsContinuation(bytes[1]) && IsContinuation(bytes[2]) then
        match ToChar((b0 - 0xE0) * 0x1000 + (bytes[1] as int - 0x80) * 0x40 + (bytes[2] as int - 0x80))
        case None => None case Some(c) => Some((c, 3))
      else if 0xF0 <= b0 < 0xF8 && |bytes| >= 4 && IsContinuation(bytes[1]) && IsContinuation(bytes[2])
              && IsContinuation(bytes[3]) then
        match ToChar((b0 - 0xF0) * 0x4_0000 + (bytes[1] as int - 0x80) * 0x1000 + (bytes[2] as int - 0x80) * 0x40 + (bytes[3] as int - 0x80))
        case None => None case Some(c) => Some((c, 4))
      else None
  }

  /** Reads a whole byte sequence as characters; `None` when at some point no
      character can be read. Overlong forms are accepted. */
  function Decode(bytes: seq<u8>): Option<string>
    decreases |bytes|
  {
    if bytes == [] then Some([])
    else
      match DecodeRune(bytes)
      case None => None
      case Some((c, n)) =>
        match Decode(bytes[n..])
        case None => None
        case Some(s) => Some([c] + s)
  }

  /** The digits of `u` in base 64 put it back together. */
  lemma Base64Digits(u: nat)
    ensures u == (u / 0x40) * 0x40 + u % 0x40
    ensures u / 0x40 == (u / 0x1000) * 0x40 + (u / 0x40) % 0x40
    ensures u / 0x1000 == (u / 0x4_0000) * 0x40 + (u / 0x1000) % 0x40
  {
  }

  /** Decoding the encoding of a character reads that character and no further. */
  lemma DecodeEncodeRune(c: char, rest: seq<u8>)
    ensures DecodeRune(EncodeRune(c) + rest) == Some((c, RuneLen(c)))
  {
    var u := c as int;
    var bytes := EncodeRune(c) + rest;
    Base64Digits(u);
    if u < 0x80 {
    } else if u < 0x800 {
      assert (bytes[0] as int - 0xC0) * 0x40 + (bytes[1] as int - 0x80) == u;
    } else if u < 0x1_0000 {
      assert (bytes[0] as int - 0xE0) * 0x1000 + (bytes[1] as int - 0x80) * 0x40 + (bytes[2] as int - 0x80) == u;
    } else {
      assert (bytes[0] as int - 0xF0) * 0x4_0000 + (bytes[1] as int - 0x80) * 0x1000 + (bytes[2] as int - 0x80) * 0x40
             + (bytes[3] as int - 0x80) == u;
    }
  }

  /** Decoding the encoding of a string gives the string back. */
  lemma {:induction false} DecodeEncode(s: string)
    ensures Decode(Encode(s)) == Some(s)
  {
    if s != [] {
      var head := EncodeRune(s[0]);
      var bytes := Encode(s);
      DecodeEncodeRune(s[0], Encode(s[1..]));
      assert bytes[|head|..] == Encode(s[1..]);
      DecodeEncode(s[1..]);
      assert [s[0]] + s[1..] == s;
    }
  }

  /** The encoding of a concatenation is the concatenation of the encodings. */
  lemma {:induction false} EncodeAppend(s: string, t: string)
    ensures Encode(s + t) == Encode(s) + Encode(t)
  {
    if s != [] {
      assert (s + t)[1..] == s[1..] + t;
      EncodeAppend(s[1..], t);
    } else {
      assert s + t == t;
    }
  }

  /** A box-drawing character such as '─' (U+2500) takes three bytes. */
  lemma BoxDrawingIsThreeBytes()
    ensures Len("─") == 3
    ensures Encode("─") == [0xE2, 0x94, 0x80]
  {
  }
}
