/**
 * The pieces of Go's standard library the core leans on, over `string` = `seq<char>`:
 * case folding (strings.ToLower / strings.ToUpper, ASCII letters only), substring search
 * (strings.Contains, strings.LastIndex for a one-character separator) and decimal numbers
 * (fmt's `%d` verb, strconv.Itoa and strconv.Atoi on a 64-bit `int`).
 */
module Text {
  import opened Wrappers

  // ---------------------------------------------------------------------------
  // Case folding

  function ToLowerChar(c: char): char {
    if 'A' <= c <= 'Z' then (c as int + 32) as char else c
  }

  function ToUpperChar(c: char): char {
    if 'a' <= c <= 'z' then (c as int - 32) as char else c
  }

  function ToLower(s: string): string {
    seq(|s|, i requires 0 <= i < |s| => ToLowerChar(s[i]))
  }

  function ToUpper(s: string): string {
    seq(|s|, i requires 0 <= i < |s| => ToUpperChar(s[i]))
  }

  // ---------------------------------------------------------------------------
  // Searching

  /** `sub` occurs in `s` starting at offset `i`. */
  predicate OccursAt(s: string, sub: string, i: int) {
    0 <= i <= |s| - |sub| && s[i..i + |sub|] == sub
  }

  /** strings.Contains(s, sub). */
  predicate Contains(s: string, sub: string) {
    exists i :: 0 <= i <= |s| - |sub| && OccursAt(s, sub, i)
  }

  /** A cheap way to show that `sub` does not occur: `s` does not start with it and its
      first character appears nowhere after position 0. */
  lemma NotContains(s: string, sub: string)
    requires sub != [] && !OccursAt(s, sub, 0)
    requires |s| > 0 ==> sub[0] !in s[1..]
    ensures !Contains(s, sub)
  {
  }

  /** strings.LastIndex(s, string(c)): the index of the last `c` in `s`, or -1. */
  function LastIndexOf(s: string, c: char): (r: int)
    ensures -1 <= r < |s|
    ensures r >= 0 ==> s[r] == c
    ensures forall j :: r < j < |s| ==> s[j] != c
  {
    if |s| == 0 then -1
    else if s[|s| - 1] == c then |s| - 1
    else LastIndexOf(s[..|s| - 1], c)
  }

  // ---------------------------------------------------------------------------
  // Decimal numbers

  predicate IsDigit(c: char) {
    '0' <= c <= '9'
  }

  predicate AllDigits(s: string) {
    forall i :: 0 <= i < |s| ==> IsDigit(s[i])
  }

  function DigitChar(d: nat): (c: char)
    requires d < 10
    ensures IsDigit(c)
  {
    ('0' as int + d) as char
  }

  function DigitValue(c: char): (d: nat)
    requires IsDigit(c)
    ensures d < 10 && DigitChar(d) == c
  {
    c as int - '0' as int
  }

  function Pow10(n: nat): (p: nat)
    ensures p >= 1
  {
    if n == 0 then 1 else 10 * Pow10(n - 1)
  }

  /** The value of a string of decimal digits (leading zeros allowed). */
  function DigitsValue(s: string): nat
    requires AllDigits(s)
  {
    if s == [] then 0 else DigitsValue(s[..|s| - 1]) * 10 + DigitValue(s[|s| - 1])
  }

  /** fmt.Sprintf("%d", n) for n >= 0: the shortest decimal rendering. */
  function NatToString(n: nat): (s: string)
    ensures |s| > 0 && AllDigits(s)
    ensures |s| > 1 ==> s[0] != '0'
  {
    if n < 10 then [DigitChar(n)] else NatToString(n / 10) + [DigitChar(n % 10)]
  }

  /** The last `width` decimal digits of `n`, zero-padded: how Go's time layouts render
      "2006", "01" and "02". */
  function FixedDigits(n: nat, width: nat): (s: string)
    ensures |s| == width && AllDigits(s)
  {
    if width == 0 then [] else FixedDigits(n / 10, width - 1) + [DigitChar(n % 10)]
  }

  lemma DigitsValueAppend(s: string, c: char)
    requires AllDigits(s) && IsDigit(c)
    ensures AllDigits(s + [c]) && DigitsValue(s + [c]) == DigitsValue(s) * 10 + DigitValue(c)
  {
    assert (s + [c])[..|s|] == s;
  }

  /** Reading back what %d wrote gives the number again. */
  lemma {:induction false} DigitsValueOfNatToString(n: nat)
    ensures DigitsValue(NatToString(n)) == n
  {
    if n >= 10 {
      DigitsValueOfNatToString(n / 10);
      DigitsValueAppend(NatToString(n / 10), DigitChar(n % 10));
    }
  }

  /** Distinct counters render to distinct strings. */
  lemma NatToStringInjective(a: nat, b: nat)
    ensures NatToString(a) == NatToString(b) ==> a == b
  {
    DigitsValueOfNatToString(a);
    DigitsValueOfNatToString(b);
  }

  /** A string of digits is the zero-padded rendering of its own value. */
  lemma {:induction false} FixedDigitsOfDigitsValue(s: string)
    requires AllDigits(s)
    ensures FixedDigits(DigitsValue(s), |s|) == s
  {
    if s != [] {
      var p, c := s[..|s| - 1], s[|s| - 1];
      assert s == p + [c];
      FixedDigitsOfDigitsValue(p);
      DigitsValueAppend(p, c);
    }
  }

  /** A zero-padded rendering reads back as the number when the number fits the width. */
  lemma {:induction false} DigitsValueOfFixedDigits(n: nat, width: nat)
    requires n < Pow10(width)
    ensures DigitsValue(FixedDigits(n, width)) == n
  {
    if width > 0 {
      DigitsValueOfFixedDigits(n / 10, width - 1);
      DigitsValueAppend(FixedDigits(n / 10, width - 1), DigitChar(n % 10));
    }
  }

  const MinInt64: int := -0x8000_0000_0000_0000
  const MaxInt64: int := 0x7FFF_FFFF_FFFF_FFFF

  /** strconv.Atoi on a 64-bit platform: an optional sign, then at least one decimal digit,
      and the value must fit an int64; anything else is an error (None). */
  function Atoi(s: string): (r: Option<int>)
    ensures r.Some? ==> MinInt64 <= r.value <= MaxInt64
    ensures r.Some? <==>
      var digits := Unsigned(s);
      |digits| > 0 && AllDigits(digits) && MinInt64 <= Signed(s, DigitsValue(digits)) <= MaxInt64
    ensures r.Some? ==> r.value == Signed(s, DigitsValue(Unsigned(s)))
  {
    var digits := Unsigned(s);
    if |digits| == 0 || !AllDigits(digits) then None
    else
      var v := Signed(s, DigitsValue(digits));
      if MinInt64 <= v <= MaxInt64 then Some(v) else None
  }

  /** The text after an optional leading sign. */
  function Unsigned(s: string): (digits: string)
    ensures |digits| <= |s| && s == s[..|s| - |digits|] + digits
  {
    if |s| > 0 && (s[0] == '+' || s[0] == '-') then s[1..] else s
  }

  /** `n` negated after a leading "-". */
  function Signed(s: string, n: nat): int {
    if |s| > 0 && s[0] == '-' then -(n as int) else n
  }

  /** strconv.Itoa. */
  function Itoa(i: int): string {
    if i < 0 then "-" + NatToString(-i) else NatToString(i)
  }

  /** Atoi reads back every int64 that Itoa writes. */
  lemma AtoiOfItoa(i: int)
    requires MinInt64 <= i <= MaxInt64
    ensures Atoi(Itoa(i)) == Some(i)
  {
    var n: nat := if i < 0 then -i else i;
    ItoaParts(i, n);
    DigitsValueOfNatToString(n);
  }

  /** Itoa writes the magnitude's digits after an optional "-". */
  lemma ItoaParts(i: int, n: nat)
    requires n == if i < 0 then -i else i
    ensures Unsigned(Itoa(i)) == NatToString(n) && Signed(Itoa(i), n) == i
  {
    var digits := NatToString(n);
    assert IsDigit(digits[0]);
    if i < 0 {
      assert Itoa(i)[1..] == digits;
    }
  }
}
