/** The string operations of Rust's standard library that the theme generator relies on,
    with their byte-level behaviour: a Rust `&str` is UTF-8, so `len()` counts bytes and
    slicing or `split_at` at an offset that is not a char boundary panics. */
module Text {
  import opened Outcomes

  /** Number of bytes of `c` in UTF-8. */
  function Utf8Width(c: char): (w: nat)
    ensures 1 <= w <= 4
  {
    if c as int < 0x80 then 1
    else if c as int < 0x800 then 2
    else if c as int < 0x10000 then 3
    else 4
  }

  /** `str::len`: the length of `s` in bytes. */
  function ByteLen(s: string): nat
  {
    if s == [] then 0 else Utf8Width(s[0]) + ByteLen(s[1..])
  }

  /** The byte length of a concatenation is the sum of the byte lengths. */
  lemma {:induction false} ByteLenConcat(a: string, b: string)
    ensures ByteLen(a + b) == ByteLen(a) + ByteLen(b)
  {
    if a != [] {
      assert (a + b)[1..] == a[1..] + b;
      ByteLenConcat(a[1..], b);
    } else {
      assert a + b == b;
    }
  }

  predicate IsAscii(s: string)
  {
    forall i :: 0 <= i < |s| ==> s[i] as int < 0x80
  }

  /** `str::split_at(n)`: the chars before and after byte offset `n`, or `None` where
      Rust panics (`n` beyond the end, or inside a char). */
  function SplitAtByte(s: string, n: nat): (r: Option<(string, string)>)
    ensures r.Some? ==> r.value.0 + r.value.1 == s && ByteLen(r.value.0) == n
  {
    if n == 0 then Some(([], s))
    else if s == [] || Utf8Width(s[0]) > n then None
    else
      match SplitAtByte(s[1..], n - Utf8Width(s[0]))
      case None => None
      case Some(parts) =>
        assert [s[0]] + (parts.0 + parts.1) == s;
        Some(([s[0]] + parts.0, parts.1))
  }

  /** `&s[i..j]` for byte offsets `i <= j`, or `None` where Rust panics. */
  function ByteSlice(s: string, i: nat, j: nat): (r: Option<string>)
    requires i <= j
    ensures r.Some? ==> ByteLen(r.value) == j - i
  {
    match SplitAtByte(s, i)
    case None => None
    case Some(front) =>
      match SplitAtByte(front.1, j - i)
      case None => None
      case Some(middle) => Some(middle.0)
  }

  lemma {:induction false} AsciiByteLen(s: string)
    requires IsAscii(s)
    ensures ByteLen(s) == |s|
  {
    if s != [] {
      assert IsAscii(s[1..]);
      AsciiByteLen(s[1..]);
    }
  }

  /** On ASCII text, byte offsets are char offsets. */
  lemma {:induction false} AsciiSplit(s: string, n: nat)
    requires IsAscii(s) && n <= |s|
    ensures SplitAtByte(s, n) == Some((s[..n], s[n..]))
  {
    if n > 0 {
      assert IsAscii(s[1..]);
      AsciiSplit(s[1..], n - 1);
      assert [s[0]] + s[1..][..n - 1] == s[..n];
      assert s[1..][n - 1..] == s[n..];
    }
  }

  lemma AsciiSlice(s: string, i: nat, j: nat)
    requires IsAscii(s) && i <= j <= |s|
    ensures ByteSlice(s, i, j) == Some(s[i..j])
  {
    AsciiSplit(s, i);
    assert IsAscii(s[i..]);
    AsciiSplit(s[i..], j - i);
    assert s[i..][..j - i] == s[i..j];
  }

  /** `str::trim_start_matches(c)`: `s` without its leading run of `c`. */
  function TrimStart(s: string, c: char): (r: string)
    ensures |r| <= |s| && r == s[|s| - |r|..]
    ensures r == [] || r[0] != c
    ensures forall i :: 0 <= i < |s| - |r| ==> s[i] == c
  {
    if s != [] && s[0] == c then TrimStart(s[1..], c) else s
  }

  /** `char::to_digit` for radix up to 36: the value of an ASCII letter or digit, 36 for
      any other char (so it is a digit of no radix). */
  function DigitValue(c: char): (v: nat)
    ensures v <= 36
  {
    if '0' <= c <= '9' then c as int - '0' as int
    else if 'a' <= c <= 'z' then c as int - 'a' as int + 10
    else if 'A' <= c <= 'Z' then c as int - 'A' as int + 10
    else 36
  }

  predicate AllDigits(s: string, radix: nat)
  {
    forall i :: 0 <= i < |s| ==> DigitValue(s[i]) < radix
  }

  /** A digit of some radix up to 36 is an ASCII char. */
  lemma DigitsAscii(s: string, radix: nat)
    requires radix <= 36 && AllDigits(s, radix)
    ensures IsAscii(s) && ByteLen(s) == |s|
  {
    AsciiByteLen(s);
  }

  /** The value of the digit string `d`, most significant digit first. */
  function DigitsValue(d: string, radix: nat): nat
  {
    if d == [] then 0 else DigitsValue(d[..|d| - 1], radix) * radix + DigitValue(d[|d| - 1])
  }

  /** `from_str_radix` (and `str::parse`) of an unsigned integer type whose largest value is
      `max`: an optional `+`, then at least one digit; overflow is an error. */
  function ParseUnsigned(s: string, radix: nat, max: nat): (r: Option<nat>)
    ensures r.Some? ==> r.value <= max
    ensures r.Some? ==> s != [] && (s[0] == '+' || DigitValue(s[0]) < radix)
  {
    if s == [] || s == "+" then None
    else
      var digits := if s[0] == '+' then s[1..] else s;
      if AllDigits(digits, radix) && DigitsValue(digits, radix) <= max
      then Some(DigitsValue(digits, radix))
      else None
  }

  const U32Max: nat := 0xFFFF_FFFF
  const UsizeMax: nat := 0xFFFF_FFFF_FFFF_FFFF

  /** The decimal digit for `d < 10`. */
  function DecimalDigit(d: nat): (c: char)
    requires d < 10
    ensures DigitValue(c) == d
  {
    ('0' as int + d) as char
  }

  /** `format!("{}", n)` for an unsigned integer: decimal without leading zeros. */
  function NatToString(n: nat): string
  {
    if n < 10 then [DecimalDigit(n)] else NatToString(n / 10) + [DecimalDigit(n % 10)]
  }

  lemma {:induction false} NatToStringValue(n: nat)
    ensures DigitsValue(NatToString(n), 10) == n
  {
    var s := NatToString(n);
    if n >= 10 {
      NatToStringValue(n / 10);
      assert s[..|s| - 1] == NatToString(n / 10);
    }
  }

  /** Parsing what `format!` printed gives the number back. */
  lemma {:induction false} NatToStringDigits(n: nat)
    ensures NatToString(n) != [] && AllDigits(NatToString(n), 10)
  {
    if n >= 10 {
      NatToStringDigits(n / 10);
    }
  }

  lemma ParsePrinted(n: nat, max: nat)
    requires n <= max
    ensures ParseUnsigned(NatToString(n), 10, max) == Some(n)
  {
    NatToStringDigits(n);
    NatToStringValue(n);
  }

  lemma NatToStringInjective(a: nat, b: nat)
    requires NatToString(a) == NatToString(b)
    ensures a == b
  {
    NatToStringValue(a);
    NatToStringValue(b);
  }

  /** The lowercase hex digit for `d < 16`. */
  function HexDigit(d: nat): (c: char)
    requires d < 16
    ensures DigitValue(c) == d && !('A' <= c <= 'Z')
  {
    if d < 10 then DecimalDigit(d) else ('a' as int + d - 10) as char
  }

  /** `format!("{:02x}", v)` for a byte `v`. */
  function Hex2(v: nat): (s: string)
    requires v < 256
    ensures |s| == 2 && AllDigits(s, 16) && DigitsValue(s, 16) == v
  {
    var s := [HexDigit(v / 16), HexDigit(v % 16)];
    assert s[..1] == [s[0]] && [s[0]][..0] == [];
    assert DigitsValue(s[..1], 16) == v / 16;
    s
  }

  /** ASCII lower-casing of one char. */
  function LowerChar(c: char): char
  {
    if 'A' <= c <= 'Z' then (c as int - 'A' as int + 'a' as int) as char else c
  }

  function Lower(s: string): (r: string)
    ensures |r| == |s| && forall i :: 0 <= i < |s| ==> r[i] == LowerChar(s[i])
  {
    seq(|s|, i requires 0 <= i < |s| => LowerChar(s[i]))
  }

  /** The offset of the first `c` in `s`, or `|s|` when there is none. */
  function Find(s: string, c: char): (n: nat)
    ensures n <= |s| && c !in s[..n] && (n < |s| ==> s[n] == c)
  {
    if s == [] then 0
    else if s[0] == c then 0
    else
      var n := 1 + Find(s[1..], c);
      assert s[..n] == [s[0]] + s[1..][..n - 1];
      n
  }

  /** `str::lines`: the pieces of `s` between `\n`s, each without the `\r` of a `\r\n`;
      an empty `s` has no lines and a final `\n` does not start one. */
  function Lines(s: string): (ls: seq<string>)
    ensures forall i :: 0 <= i < |ls| ==> '\n' !in ls[i]
    ensures s == [] <==> ls == []
    decreases |s|
  {
    if s == [] then []
    else
      var n := Find(s, '\n');
      if n == |s| then [s]
      else
        var line := s[..n];
        var line := if line != [] && line[|line| - 1] == '\r' then line[..|line| - 1] else line;
        assert '\n' !in line;
        [line] + Lines(s[n + 1..])
  }
}
