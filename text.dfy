/** The string operations the API relies on: `split(' ')`, ASCII case
    mapping for `toUpperCase` and `ILIKE`, `padStart`, `String(n)` and
    `parseInt`. */
module Text {
  import opened Common

  // ---------------------------------------------------------------------
  // split / join

  /** `s.split(sep)` for a one-character separator: every occurrence cuts,
      so neighbouring separators give empty parts. */
  function Split(s: string, sep: char): (parts: seq<string>)
    ensures |parts| >= 1
    ensures forall i :: 0 <= i < |parts| ==> sep !in parts[i]
    decreases |s|
  {
    if s == [] then [""]
    else
      var rest := Split(s[1..], sep);
      if s[0] == sep then [""] + rest
      else [[s[0]] + rest[0]] + rest[1..]
  }

  /** `parts.join(sep)`. */
  function Join(parts: seq<string>, sep: char): string
  {
    if |parts| == 0 then ""
    else if |parts| == 1 then parts[0]
    else parts[0] + [sep] + Join(parts[1..], sep)
  }

  /** Joining the parts again gives back the split string. */
  lemma {:induction false} JoinSplit(s: string, sep: char)
    ensures Join(Split(s, sep), sep) == s
    decreases |s|
  {
    if s != [] {
      var rest := Split(s[1..], sep);
      JoinSplit(s[1..], sep);
      if s[0] == sep {
        assert Split(s, sep) == [""] + rest;
        assert ([""] + rest)[1..] == rest;
      } else {
        var parts := [[s[0]] + rest[0]] + rest[1..];
        assert Split(s, sep) == parts;
        if |rest| == 1 {
          assert Join(parts, sep) == [s[0]] + rest[0];
        } else {
          assert parts[1..] == rest[1..];
          assert Join(rest, sep) == rest[0] + [sep] + Join(rest[1..], sep);
          assert Join(parts, sep) == [s[0]] + rest[0] + [sep] + Join(rest[1..], sep);
        }
        assert [s[0]] + s[1..] == s;
      }
    }
  }

  /** A word without separator glues onto the first part of whatever follows it. */
  lemma {:induction false} SplitWord(w: string, tail: string, sep: char)
    requires sep !in w
    ensures Split(w + tail, sep) == [w + Split(tail, sep)[0]] + Split(tail, sep)[1..]
    decreases |w|
  {
    if w != [] {
      assert (w + tail)[1..] == w[1..] + tail;
      assert (w + tail)[0] == w[0];
      SplitWord(w[1..], tail, sep);
      assert [w[0]] + (w[1..] + Split(tail, sep)[0]) == w + Split(tail, sep)[0];
    } else {
      var st := Split(tail, sep);
      assert w + tail == tail;
      assert w + st[0] == st[0];
      assert [st[0]] + st[1..] == st;
    }
  }

  /** Splitting separator-free words joined by the separator gives the words back. */
  lemma {:induction false} SplitJoin(parts: seq<string>, sep: char)
    requires |parts| >= 1
    requires forall i :: 0 <= i < |parts| ==> sep !in parts[i]
    ensures Split(Join(parts, sep), sep) == parts
    decreases |parts|
  {
    if |parts| == 1 {
      SplitWord(parts[0], "", sep);
      assert parts[0] + "" == parts[0];
    } else {
      var tail := [sep] + Join(parts[1..], sep);
      assert Join(parts, sep) == parts[0] + tail;
      SplitWord(parts[0], tail, sep);
      SplitJoin(parts[1..], sep);
      assert tail[1..] == Join(parts[1..], sep);
      assert tail != [] && tail[0] == sep;
      assert Split(tail, sep) == [""] + Split(tail[1..], sep);
      assert Split(tail, sep) == [""] + parts[1..];
      assert parts[0] + "" == parts[0];
      assert parts == [parts[0]] + parts[1..];
    }
  }

  // ---------------------------------------------------------------------
  // ASCII case mapping

  function LowerChar(c: char): (d: char)
    ensures !('A' <= d <= 'Z')
  {
    if 'A' <= c <= 'Z' then (c as int + 32) as char else c
  }

  function UpperChar(c: char): (d: char)
    ensures !('a' <= d <= 'z')
  {
    if 'a' <= c <= 'z' then (c as int - 32) as char else c
  }

  function Lower(s: string): (r: string)
    ensures |r| == |s|
    ensures forall i :: 0 <= i < |s| ==> r[i] == LowerChar(s[i])
  {
    seq(|s|, i requires 0 <= i < |s| => LowerChar(s[i]))
  }

  /** `s.toUpperCase()` on ASCII letters. */
  function Upper(s: string): (r: string)
    ensures |r| == |s|
    ensures forall i :: 0 <= i < |s| ==> r[i] == UpperChar(s[i])
  {
    seq(|s|, i requires 0 <= i < |s| => UpperChar(s[i]))
  }

  predicate InfixAt(needle: string, hay: string, i: int)
  {
    0 <= i <= |hay| - |needle| && hay[i..i + |needle|] == needle
  }

  predicate IsInfix(needle: string, hay: string)
  {
    exists i | 0 <= i <= |hay| - |needle| :: InfixAt(needle, hay, i)
  }

  /** `column ILIKE '%needle%'`: a case-insensitive substring test. */
  predicate ContainsIgnoringCase(hay: string, needle: string)
  {
    IsInfix(Lower(needle), Lower(hay))
  }

  // ---------------------------------------------------------------------
  // decimal digits

  predicate IsDigit(c: char)
  {
    '0' <= c <= '9'
  }

  predicate AllDigits(s: string)
  {
    forall i :: 0 <= i < |s| ==> IsDigit(s[i])
  }

  function DigitChar(d: nat): (c: char)
    requires d < 10
    ensures IsDigit(c) && c as int - '0' as int == d
  {
    ('0' as int + d) as char
  }

  /** `String(n)` for a natural number. */
  function NatToDecimal(n: nat): (s: string)
    ensures 1 <= |s|
    ensures AllDigits(s)
    ensures n > 0 ==> s[0] != '0'
    decreases n
  {
    if n < 10 then [DigitChar(n)] else NatToDecimal(n / 10) + [DigitChar(n % 10)]
  }

  /** The value of a digit string, read left to right; leading zeros count for nothing. */
  function DecimalValue(s: string): nat
    requires AllDigits(s)
  {
    if s == [] then 0 else 10 * DecimalValue(s[..|s| - 1]) + (s[|s| - 1] as int - '0' as int)
  }

  lemma {:induction false} DecimalValueOfNat(n: nat)
    ensures DecimalValue(NatToDecimal(n)) == n
    decreases n
  {
    if n >= 10 {
      var s := NatToDecimal(n);
      assert s[..|s| - 1] == NatToDecimal(n / 10);
      DecimalValueOfNat(n / 10);
    }
  }

  /** Numbers of five or more digits need at least five characters. */
  lemma {:induction false} DecimalLength(n: nat, k: nat)
    requires n >= Pow10(k)
    ensures |NatToDecimal(n)| > k
    decreases k
  {
    if k > 0 {
      DecimalLength(n / 10, k - 1);
    }
  }

  /** Numbers below `10^k` take at most `k` characters. */
  lemma {:induction false} DecimalLengthAtMost(n: nat, k: nat)
    requires 1 <= k && n < Pow10(k)
    ensures |NatToDecimal(n)| <= k
    decreases k
  {
    if n >= 10 {
      assert n / 10 < Pow10(k - 1);
      DecimalLengthAtMost(n / 10, k - 1);
    }
  }

  function Pow10(k: nat): (p: nat)
    ensures p >= 1
  {
    if k == 0 then 1 else 10 * Pow10(k - 1)
  }

  function Repeat(c: char, k: nat): (r: string)
    ensures |r| == k
    ensures forall i :: 0 <= i < k ==> r[i] == c
  {
    seq(k, _ => c)
  }

  /** `s.padStart(width, fill)` with a one-character fill: never truncates. */
  function PadStart(s: string, width: nat, fill: char): (r: string)
    ensures |r| == if |s| >= width then |s| else width
    ensures r[|r| - |s|..] == s
    ensures forall i :: 0 <= i < |r| - |s| ==> r[i] == fill
  {
    if |s| >= width then s else Repeat(fill, width - |s|) + s
  }

  lemma {:induction false} LeadingZeros(z: string, s: string)
    requires AllDigits(s)
    requires forall i :: 0 <= i < |z| ==> z[i] == '0'
    ensures AllDigits(z + s)
    ensures DecimalValue(z + s) == DecimalValue(s)
    decreases |s|
  {
    if s == [] {
      assert z + s == z;
      ZerosValue(z);
    } else {
      assert (z + s)[..|z + s| - 1] == z + s[..|s| - 1];
      LeadingZeros(z, s[..|s| - 1]);
    }
  }

  lemma {:induction false} ZerosValue(z: string)
    requires forall i :: 0 <= i < |z| ==> z[i] == '0'
    ensures AllDigits(z) && DecimalValue(z) == 0
    decreases |z|
  {
    if z != [] {
      ZerosValue(z[..|z| - 1]);
    }
  }

  // ---------------------------------------------------------------------
  // parseInt

  /** The characters `parseInt` skips before the number (the white space
      and line terminators of ECMAScript). */
  predicate IsJsSpace(c: char)
  {
    var n := c as int;
    n == 0x09 || n == 0x0A || n == 0x0B || n == 0x0C || n == 0x0D || n == 0x20
    || n == 0xA0 || n == 0x1680 || (0x2000 <= n <= 0x200A) || n == 0x2028 || n == 0x2029
    || n == 0x202F || n == 0x205F || n == 0x3000 || n == 0xFEFF
  }

  function TrimStart(s: string): (r: string)
    ensures |r| <= |s| && r == s[|s| - |r|..]
    ensures r != [] ==> !IsJsSpace(r[0])
  {
    if s != [] && IsJsSpace(s[0]) then TrimStart(s[1..]) else s
  }

  /** The value of `c` as a digit of radix up to 36, or 36 when it is none. */
  function DigitValue(c: char): (v: nat)
    ensures v <= 36
    ensures IsDigit(c) ==> v == c as int - '0' as int
  {
    if '0' <= c <= '9' then c as int - '0' as int
    else if 'a' <= c <= 'z' then c as int - 'a' as int + 10
    else if 'A' <= c <= 'Z' then c as int - 'A' as int + 10
    else 36
  }

  /** The longest prefix of `s` made of digits of the given radix. */
  function LeadingDigits(s: string, radix: nat): (r: string)
    ensures |r| <= |s| && r == s[..|r|]
    ensures forall i :: 0 <= i < |r| ==> DigitValue(r[i]) < radix
    ensures |r| < |s| ==> DigitValue(s[|r|]) >= radix
  {
    if s != [] && DigitValue(s[0]) < radix then [s[0]] + LeadingDigits(s[1..], radix) else []
  }

  function DigitsValue(s: string, radix: nat): nat
  {
    if s == [] then 0 else radix * DigitsValue(s[..|s| - 1], radix) + (DigitValue(s[|s| - 1]) % 36)
  }

  /** `parseInt(s)` with no radix: skips leading white space, reads an
      optional sign, a `0x` prefix switches to radix 16, and then reads the
      longest run of digits; no digit at all is NaN, here None. */
  function ParseInt(s: string): (r: Option<int>)
  {
    var t := TrimStart(s);
    var negative := t != [] && t[0] == '-';
    var u := if t != [] && (t[0] == '-' || t[0] == '+') then t[1..] else t;
    var hex := |u| >= 2 && u[0] == '0' && (u[1] == 'x' || u[1] == 'X');
    var radix := if hex then 16 else 10;
    var body := if hex then u[2..] else u;
    var digits := LeadingDigits(body, radix);
    if digits == [] then None
    else
      var magnitude: int := DigitsValue(digits, radix);
      Some(if negative then -magnitude else magnitude)
  }

  lemma {:induction false} DigitsValueDecimal(s: string)
    requires AllDigits(s)
    ensures DigitsValue(s, 10) == DecimalValue(s)
    decreases |s|
  {
    if s != [] {
      DigitsValueDecimal(s[..|s| - 1]);
    }
  }

  lemma {:induction false} LeadingDigitsAll(s: string)
    requires AllDigits(s)
    ensures LeadingDigits(s, 10) == s
    decreases |s|
  {
    if s != [] {
      LeadingDigitsAll(s[1..]);
      assert [s[0]] + s[1..] == s;
    }
  }

  /** `parseInt` of a string that starts with a digit and has no `0x`
      prefix reads its leading decimal digits. */
  lemma {:induction false} ParseIntUnsigned(s: string)
    requires s != [] && IsDigit(s[0])
    requires !(|s| >= 2 && s[0] == '0' && (s[1] == 'x' || s[1] == 'X'))
    ensures LeadingDigits(s, 10) != []
    ensures ParseInt(s) == Some(DigitsValue(LeadingDigits(s, 10), 10))
  {
    assert !IsJsSpace(s[0]);
    assert TrimStart(s) == s;
  }

  /** `parseInt` of a non-empty digit string is its decimal value. */
  lemma {:induction false} ParseIntOfDigits(s: string)
    requires s != [] && AllDigits(s)
    ensures ParseInt(s) == Some(DecimalValue(s))
  {
    assert IsDigit(s[0]);
    assert |s| >= 2 ==> IsDigit(s[1]);
    ParseIntUnsigned(s);
    LeadingDigitsAll(s);
    DigitsValueDecimal(s);
  }

  /** `parseInt(String(n)) == n`. */
  lemma {:induction false} ParseIntOfDecimal(n: nat)
    ensures ParseInt(NatToDecimal(n)) == Some(n)
  {
    ParseIntOfDigits(NatToDecimal(n));
    DecimalValueOfNat(n);
  }

  /** `parseInt(value) || fallback`: NaN and 0 fall back. */
  function IntOr(value: Option<string>, fallback: int): (n: int)
    ensures fallback != 0 ==> n != 0
    ensures value.None? ==> n == fallback
  {
    var parsed := if value.Some? then ParseInt(value.value) else None;
    if parsed.None? || parsed.value == 0 then fallback else parsed.value
  }

  /** A positive number written in decimal is taken as it is; "0" falls back. */
  lemma IntOrOfDecimal(k: nat, fallback: int)
    ensures k >= 1 ==> IntOr(Some(NatToDecimal(k)), fallback) == k
    ensures IntOr(Some("0"), fallback) == fallback
  {
    ParseIntOfDecimal(k);
    ParseIntOfDecimal(0);
    assert NatToDecimal(0) == "0";
  }
}
