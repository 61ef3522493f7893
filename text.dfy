/**
 * The JavaScript string primitives the storefront relies on, over `seq<char>`:
 * `toLowerCase` (ASCII only), `includes`, `split` on one character,
 * `Number(...)` on decimal text and the template form `${n}` of a
 * non-negative integer.
 */
module Text {

  /** ASCII lower-casing of one character. */
  function LowerChar(c: char): char {
    if 'A' <= c <= 'Z' then (c as int - 'A' as int + 'a' as int) as char else c
  }

  /** `s.toLowerCase()`, restricted to the ASCII letters. */
  function ToLower(s: string): (r: string)
    ensures |r| == |s|
    ensures forall i :: 0 <= i < |s| ==> r[i] == LowerChar(s[i])
    ensures forall i :: 0 <= i < |r| ==> !('A' <= r[i] <= 'Z')
  {
    if s == [] then [] else [LowerChar(s[0])] + ToLower(s[1..])
  }

  /** `needle` occurs in `hay` starting at index `i`. */
  ghost predicate OccursAt(hay: string, needle: string, i: int) {
    0 <= i && i + |needle| <= |hay| && hay[i..i + |needle|] == needle
  }

  lemma OccursAtShift(hay: string, needle: string)
    requires hay != []
    ensures forall j :: 0 <= j ==> (OccursAt(hay[1..], needle, j) <==> OccursAt(hay, needle, j + 1))
  {
    forall j | 0 <= j
      ensures OccursAt(hay[1..], needle, j) <==> OccursAt(hay, needle, j + 1)
    {
      if 0 <= j && j + 1 + |needle| <= |hay| {
        assert hay[1..][j..j + |needle|] == hay[j + 1..j + 1 + |needle|];
      }
    }
  }

  /** `hay.includes(needle)`: plain substring containment. */
  function Includes(hay: string, needle: string): (b: bool)
    ensures b <==> exists i :: OccursAt(hay, needle, i)
    decreases |hay|
  {
    if |needle| > |hay| then false
    else if hay[..|needle|] == needle then
      assert OccursAt(hay, needle, 0);
      true
    else
      assert !OccursAt(hay, needle, 0);
      OccursAtShift(hay, needle);
      assert forall i :: OccursAt(hay, needle, i) ==> OccursAt(hay[1..], needle, i - 1);
      Includes(hay[1..], needle)
  }

  lemma OccurrenceIsIncluded(hay: string, needle: string, i: int)
    requires OccursAt(hay, needle, i)
    ensures Includes(hay, needle)
  {
  }

  /** Lower-casing leaves text without upper-case letters as it is. */
  lemma {:induction false} ToLowerOfLowerCase(s: string)
    requires forall i :: 0 <= i < |s| ==> !('A' <= s[i] <= 'Z')
    ensures ToLower(s) == s
    decreases |s|
  {
    if s != [] {
      ToLowerOfLowerCase(s[1..]);
    }
  }

  /** A text lacking one of the needle's characters does not contain the needle. */
  lemma MissingCharacterExcludes(hay: string, needle: string, c: char)
    requires c in needle && c !in hay
    ensures !Includes(hay, needle)
  {
  }

  predicate IsDigit(c: char) {
    '0' <= c <= '9'
  }

  predicate AllDigits(s: string) {
    forall i :: 0 <= i < |s| ==> IsDigit(s[i])
  }

  function DigitChar(d: nat): (c: char)
    requires d < 10
    ensures IsDigit(c)
  {
    ('0' as int + d) as char
  }

  function DigitValue(c: char): (d: nat)
    requires IsDigit(c)
    ensures d < 10 && DigitChar(d) == c
  {
    c as int - '0' as int
  }

  /** `${n}` for a non-negative integer: its shortest decimal form. */
  function FormatNat(n: nat): (s: string)
    ensures |s| >= 1 && AllDigits(s)
    ensures |s| > 1 ==> s[0] != '0'
    decreases n
  {
    if n < 10 then [DigitChar(n)] else FormatNat(n / 10) + [DigitChar(n % 10)]
  }

  /** The value of a string of decimal digits; leading zeros are allowed. */
  function DecimalValue(s: string): nat
    requires AllDigits(s)
    decreases |s|
  {
    if s == [] then 0 else DecimalValue(s[..|s| - 1]) * 10 + DigitValue(s[|s| - 1])
  }

  /** A JavaScript number as far as the storefront uses one: an integer or NaN. */
  datatype Number = Finite(value: int) | NaN

  /**
   * `Number(s)`. The empty string and strings of decimal digits give their
   * value (the empty string gives 0, as in JavaScript); every other string
   * is taken as NaN.
   */
  function ToNumber(s: string): (n: Number)
    ensures AllDigits(s) <==> n.Finite?
    ensures n.Finite? ==> n.value >= 0
    ensures s == "" ==> n == Finite(0)
  {
    if AllDigits(s) then Finite(DecimalValue(s)) else NaN
  }

  /** Reading back the decimal form of `n` gives `n`. */
  lemma {:induction false} FormatNatRoundTrip(n: nat)
    ensures ToNumber(FormatNat(n)) == Finite(n)
  {
    if n >= 10 {
      var s := FormatNat(n);
      var prefix := FormatNat(n / 10);
      assert s[..|s| - 1] == prefix;
      FormatNatRoundTrip(n / 10);
      assert DecimalValue(prefix) == n / 10;
      assert DigitValue(s[|s| - 1]) == n % 10;
      assert DecimalValue(s) == (n / 10) * 10 + n % 10;
    }
  }

  /** A digit string whose first digit is not zero has a positive value. */
  lemma {:induction false} LeadingDigitPositive(s: string)
    requires AllDigits(s) && s != "" && s[0] != '0'
    ensures DecimalValue(s) >= 1
    decreases |s|
  {
    if |s| > 1 {
      LeadingDigitPositive(s[..|s| - 1]);
    } else {
      assert DigitChar(0) == '0';
    }
  }

  /**
   * The other direction of the round trip: a canonical decimal (no leading
   * zero unless it is "0" itself) is the decimal form of its own value.
   */
  lemma {:induction false} CanonicalDecimalRoundTrip(s: string)
    requires AllDigits(s) && s != ""
    requires |s| > 1 ==> s[0] != '0'
    ensures ToNumber(s).Finite?
    ensures FormatNat(ToNumber(s).value) == s
    decreases |s|
  {
    var d := DigitValue(s[|s| - 1]);
    var prefix := s[..|s| - 1];
    if |s| == 1 {
      assert DecimalValue(s) == d;
      assert FormatNat(d) == [DigitChar(d)];
    } else {
      assert prefix[0] == s[0];
      CanonicalDecimalRoundTrip(prefix);
      LeadingDigitPositive(prefix);
      var v := DecimalValue(prefix);
      var n := v * 10 + d;
      assert DecimalValue(s) == n;
      assert n >= 10 && n / 10 == v && n % 10 == d;
      assert FormatNat(n) == FormatNat(v) + [DigitChar(d)];
      assert s == prefix + [s[|s| - 1]];
    }
  }

  /** `s.split(sep)` for a one-character separator. */
  function Split(s: string, sep: char): (parts: seq<string>)
    ensures |parts| >= 1
    ensures forall k :: 0 <= k < |parts| ==> sep !in parts[k]
    decreases |s|
  {
    if s == [] then [""]
    else
      var rest := Split(s[1..], sep);
      if s[0] == sep then [""] + rest else [[s[0]] + rest[0]] + rest[1..]
  }

  /** `parts.join(sep)`. */
  function Join(parts: seq<string>, sep: char): string
    decreases |parts|
  {
    if parts == [] then ""
    else if |parts| == 1 then parts[0]
    else parts[0] + [sep] + Join(parts[1..], sep)
  }

  /** `split` loses nothing: joining the parts restores the string. */
  lemma {:induction false} SplitJoin(s: string, sep: char)
    ensures Join(Split(s, sep), sep) == s
    decreases |s|
  {
    if s != [] {
      var rest := Split(s[1..], sep);
      SplitJoin(s[1..], sep);
      if s[0] == sep {
        assert Split(s, sep)[1..] == rest;
      } else if |rest| == 1 {
        assert Join(Split(s, sep), sep) == [s[0]] + rest[0];
      } else {
        var parts := Split(s, sep);
        assert parts[1..] == rest[1..];
        assert Join(parts, sep) == [s[0]] + rest[0] + [sep] + Join(rest[1..], sep);
      }
    }
  }

  /** A string without the separator splits into itself alone. */
  lemma {:induction false} SplitWithoutSeparator(a: string, sep: char)
    requires sep !in a
    ensures Split(a, sep) == [a]
    decreases |a|
  {
    if a != [] {
      SplitWithoutSeparator(a[1..], sep);
      assert a == [a[0]] + a[1..];
    }
  }

  /** The text before the first separator is the first part. */
  lemma {:induction false} SplitAtSeparator(a: string, b: string, sep: char)
    requires sep !in a
    ensures Split(a + [sep] + b, sep) == [a] + Split(b, sep)
    decreases |a|
  {
    var s := a + [sep] + b;
    if a == [] {
      assert s[1..] == b;
    } else {
      assert s[1..] == a[1..] + [sep] + b;
      SplitAtSeparator(a[1..], b, sep);
      assert a == [a[0]] + a[1..];
    }
  }
}
