/** The pieces of Go's standard library that the console example uses on text:
    `unicode.IsSpace`, `strings.TrimSpace`, `strings.Fields`, `strconv.Atoi`
    and the `%d` verb of `fmt`. */
module GoStrings {
  import opened Ints
  import opened Wrappers

  /** `unicode.IsSpace`: the Latin-1 spaces plus Unicode's White_Space property. */
  predicate IsSpace(c: char) {
    var u := c as int;
    (0x09 <= u <= 0x0D) || u == 0x20 || u == 0x85 || u == 0xA0
    || u == 0x1680 || (0x2000 <= u <= 0x200A) || u == 0x2028 || u == 0x2029
    || u == 0x202F || u == 0x205F || u == 0x3000
  }

  /** Among ASCII characters exactly space, tab, newline, carriage return,
      vertical tab and form feed are spaces; digits and letters never are. */
  lemma AsciiSpaces(c: char)
    ensures (c as int) < 0x80 ==> (IsSpace(c) <==> c in " \t\n\r" || c == '\U{0B}' || c == '\U{0C}')
    ensures IsDigit(c) || 'A' <= c <= 'Z' || 'a' <= c <= 'z' ==> !IsSpace(c)
  {
  }

  predicate NoSpace(s: string) {
    forall i :: 0 <= i < |s| ==> !IsSpace(s[i])
  }

  predicate IsDigit(c: char) {
    '0' <= c <= '9'
  }

  predicate AllDigits(s: string) {
    forall i :: 0 <= i < |s| ==> IsDigit(s[i])
  }

  /** Index of the first non-space character of `s`, or `|s|` when there is none. */
  function LeadingSpaces(s: string): (n: nat)
    ensures n <= |s| && AllSpace(s[..n])
    ensures n < |s| ==> !IsSpace(s[n])
  {
    if s == [] || !IsSpace(s[0]) then 0
    else
      var n := 1 + LeadingSpaces(s[1..]);
      assert s[..n] == [s[0]] + s[1..][..n - 1];
      n
  }

  /** Index just past the last non-space character of `s`, or 0 when there is none. */
  function TrailingStart(s: string): (n: nat)
    ensures n <= |s| && AllSpace(s[n..])
    ensures n > 0 ==> !IsSpace(s[n - 1])
  {
    if s == [] || !IsSpace(s[|s| - 1]) then |s|
    else
      var n := TrailingStart(s[..|s| - 1]);
      assert s[n..] == s[..|s| - 1][n..] + [s[|s| - 1]];
      n
  }

  /** `strings.TrimLeftFunc(s, unicode.IsSpace)`. */
  function TrimLeft(s: string): (r: string)
    ensures |r| <= |s| && r == s[|s| - |r|..]
    ensures AllSpace(s[..|s| - |r|])
    ensures r != [] ==> !IsSpace(r[0])
  {
    s[LeadingSpaces(s)..]
  }

  /** `strings.TrimRightFunc(s, unicode.IsSpace)`. */
  function TrimRight(s: string): (r: string)
    ensures |r| <= |s| && r == s[..|r|]
    ensures AllSpace(s[|r|..])
    ensures r != [] ==> !IsSpace(r[|r| - 1])
  {
    s[..TrailingStart(s)]
  }

  /** `strings.TrimSpace`. */
  function TrimSpace(s: string): string {
    TrimRight(TrimLeft(s))
  }

  /** Trimming leaves the middle slice of the input, between a run of spaces on
      each side, and that slice neither starts nor ends with a space. */
  lemma TrimSpaceIsMiddle(s: string)
    ensures var r := TrimSpace(s);
      exists i :: 0 <= i <= |s| - |r| && r == s[i..i + |r|] && AllSpace(s[..i]) && AllSpace(s[i + |r|..])
    ensures var r := TrimSpace(s); r != [] ==> !IsSpace(r[0]) && !IsSpace(r[|r| - 1])
  {
    var left := TrimLeft(s);
    var r := TrimRight(left);
    var i := |s| - |left|;
    assert r == s[i..i + |r|];
    assert s[i + |r|..] == left[|r|..];
  }

  predicate AllSpace(s: string) {
    forall i :: 0 <= i < |s| ==> IsSpace(s[i])
  }

  /** Length of the run of non-space characters that starts `s`. */
  function WordLength(s: string): (n: nat)
    requires s != [] && !IsSpace(s[0])
    ensures 1 <= n <= |s|
    ensures n < |s| ==> IsSpace(s[n])
    ensures NoSpace(s[..n])
  {
    if |s| == 1 || IsSpace(s[1]) then 1 else 1 + WordLength(s[1..])
  }

  /** `strings.Fields`: the maximal runs of non-space characters, in order. */
  function Fields(s: string): (r: seq<string>)
    ensures forall i :: 0 <= i < |r| ==> r[i] != [] && NoSpace(r[i])
  {
    if s == [] then []
    else if IsSpace(s[0]) then Fields(s[1..])
    else
      var n := WordLength(s);
      [s[..n]] + Fields(s[n..])
  }

  /** The value of a non-empty run of decimal digits, most significant first. */
  function DigitsValue(s: string): (v: nat)
    requires AllDigits(s)
  {
    if s == [] then 0 else DigitsValue(s[..|s| - 1]) * 10 + (s[|s| - 1] as int - '0' as int)
  }

  /** `strconv.Atoi` on a 64-bit platform: an optional sign followed by at least
      one decimal digit, whose value must fit in `int`; anything else is an error. */
  function Atoi(s: string): (r: Option<int>)
    ensures r.Some? ==> InInt64(r.value)
    ensures r.Some? ==> s != [] && (IsDigit(s[0]) || s[0] == '+' || s[0] == '-')
  {
    if s == [] then None
    else
      var neg := s[0] == '-';
      var digits := if s[0] == '-' || s[0] == '+' then s[1..] else s;
      if digits == [] || !AllDigits(digits) then None
      else
        var magnitude: int := DigitsValue(digits);
        var v := if neg then -magnitude else magnitude;
        if InInt64(v) then Some(v) else None
  }

  function DigitChar(d: nat): (c: char)
    requires d < 10
    ensures IsDigit(c) && c as int - '0' as int == d
  {
    ('0' as int + d) as char
  }

  /** The decimal digits of `n`, without leading zeros. */
  function NatToString(n: nat): (s: string)
    ensures s != [] && AllDigits(s)
  {
    if n < 10 then [DigitChar(n)] else NatToString(n / 10) + [DigitChar(n % 10)]
  }

  /** What `fmt` prints for an integer under `%d`. */
  function Itoa(n: int): (s: string)
    ensures s != [] && NoSpace(s)
  {
    if n < 0 then "-" + NatToString(-n) else NatToString(n)
  }

  lemma {:induction false} DigitsValueOfNatToString(n: nat)
    ensures DigitsValue(NatToString(n)) == n
  {
    if n >= 10 {
      var s := NatToString(n);
      assert s[..|s| - 1] == NatToString(n / 10);
      DigitsValueOfNatToString(n / 10);
    }
  }

  /** Parsing what `%d` prints gives the number back, for every `int`. */
  lemma AtoiOfItoa(n: int)
    requires InInt64(n)
    ensures Atoi(Itoa(n)) == Some(n)
  {
    var m: nat := if n < 0 then -n else n;
    var digits := NatToString(m);
    DigitsValueOfNatToString(m);
    assert IsDigit(digits[0]);
    if n < 0 {
      var s := Itoa(n);
      assert s == "-" + digits;
      assert s[0] == '-' && s[1..] == digits;
    }
  }

  /** A word followed by a space (or by nothing) is the first field. */
  lemma {:induction false} FieldsOfWord(w: string, rest: string)
    requires w != [] && NoSpace(w)
    requires rest == [] || IsSpace(rest[0])
    ensures Fields(w + rest) == [w] + Fields(rest)
  {
    var s := w + rest;
    WordLengthOfWord(w, rest);
    assert s[..|w|] == w && s[|w|..] == rest;
  }

  lemma {:induction false} WordLengthOfWord(w: string, rest: string)
    requires w != [] && NoSpace(w)
    requires rest == [] || IsSpace(rest[0])
    ensures WordLength(w + rest) == |w|
  {
    if |w| > 1 {
      assert (w + rest)[1..] == w[1..] + rest;
      WordLengthOfWord(w[1..], rest);
    }
  }

  /** Leading spaces never change the fields. */
  lemma {:induction false} FieldsOfTrimLeft(s: string)
    ensures Fields(TrimLeft(s)) == Fields(s)
  {
    if s != [] && IsSpace(s[0]) {
      FieldsOfTrimLeft(s[1..]);
      var n := LeadingSpaces(s[1..]);
      assert LeadingSpaces(s) == 1 + n;
      assert s[1 + n..] == s[1..][n..];
    } else {
      assert s[0..] == s;
    }
  }

  /** One trailing space never changes the fields. */
  lemma {:induction false} FieldsOfTrailingSpace(s: string, c: char)
    requires IsSpace(c)
    ensures Fields(s + [c]) == Fields(s)
    decreases |s|
  {
    var t := s + [c];
    if s == [] {
      assert Fields(t) == Fields(t[1..]);
      assert t[1..] == [];
    } else if IsSpace(s[0]) {
      assert t[1..] == s[1..] + [c];
      FieldsOfTrailingSpace(s[1..], c);
    } else {
      var n := WordLength(s);
      if n < |s| {
        WordLengthOfWord(s[..n], s[n..]);
        assert s[..n] + s[n..] == s;
        assert t == s[..n] + (s[n..] + [c]);
        WordLengthOfWord(s[..n], s[n..] + [c]);
      } else {
        assert s[..n] == s;
        WordLengthOfWord(s, [c]);
      }
      assert t[..n] == s[..n];
      assert t[n..] == s[n..] + [c];
      FieldsOfTrailingSpace(s[n..], c);
    }
  }

  lemma {:induction false} FieldsOfTrimRight(s: string)
    ensures Fields(TrimRight(s)) == Fields(s)
    decreases |s|
  {
    if s != [] && IsSpace(s[|s| - 1]) {
      var p := s[..|s| - 1];
      FieldsOfTrimRight(p);
      var n := TrailingStart(p);
      assert TrailingStart(s) == n;
      assert s[..n] == p[..n];
      assert p + [s[|s| - 1]] == s;
      FieldsOfTrailingSpace(p, s[|s| - 1]);
    } else {
      assert s[..|s|] == s;
    }
  }

  /** Trimming first, as the console example does, never changes the fields. */
  lemma FieldsOfTrimSpace(s: string)
    ensures Fields(TrimSpace(s)) == Fields(s)
  {
    FieldsOfTrimRight(TrimLeft(s));
    FieldsOfTrimLeft(s);
  }
}
