/** Decimal text: what `sprintf("%lld")`, `sprintf("%*lld")` print and what `atol` reads back. */
module Decimal {

  predicate IsDigit(c: char) {
    '0' <= c <= '9'
  }

  predicate AllDigits(s: string) {
    forall k :: 0 <= k < |s| ==> IsDigit(s[k])
  }

  /** C's `isspace` in the default locale. */
  predicate IsSpace(c: char) {
    c == ' ' || c == '\t' || c == '\n' || c == '\r' || c == 11 as char || c == 12 as char
  }

  function Digit(d: nat): (c: char)
    requires d < 10
    ensures IsDigit(c) && c as int - '0' as int == d
  {
    ('0' as int + d) as char
  }

  /** The decimal numeral of `n`, as `%lld` prints it. */
  function Dec(n: nat): (s: string)
    ensures |s| >= 1 && AllDigits(s)
  {
    if n < 10 then [Digit(n)] else Dec(n / 10) + [Digit(n % 10)]
  }

  /** The number a string of digits stands for, in the given base. */
  function Val(s: string): nat
    requires AllDigits(s)
  {
    if s == [] then 0 else 10 * Val(s[..|s| - 1]) + (s[|s| - 1] as int - '0' as int)
  }

  function Pow10(k: nat): (p: nat)
    ensures p >= 1
  {
    if k == 0 then 1 else 10 * Pow10(k - 1)
  }

  function Spaces(k: nat): (s: string)
    ensures |s| == k && forall j :: 0 <= j < k ==> s[j] == ' '
  {
    seq(k, _ => ' ')
  }

  /** `%*lld` with the given width: blanks on the left, never truncated. */
  function Pad(width: nat, n: nat): string {
    Spaces(if |Dec(n)| < width then width - |Dec(n)| else 0) + Dec(n)
  }

  function SkipSpace(s: string): string {
    if s != [] && IsSpace(s[0]) then SkipSpace(s[1..]) else s
  }

  /** The longest prefix of `s` made of digits. */
  function LeadingDigits(s: string): (p: string)
    ensures AllDigits(p) && p <= s
    ensures |p| < |s| ==> !IsDigit(s[|p|])
  {
    if s != [] && IsDigit(s[0]) then [s[0]] + LeadingDigits(s[1..]) else ""
  }

  /** `atol`: white space, an optional sign, digits, then whatever follows is ignored. */
  function Atol(s: string): int {
    var t := SkipSpace(s);
    if t == [] then 0
    else if t[0] == '-' then 0 - Val(LeadingDigits(t[1..]))
    else if t[0] == '+' then Val(LeadingDigits(t[1..]))
    else Val(LeadingDigits(t))
  }

  lemma {:induction false} ValOfDec(n: nat)
    ensures Val(Dec(n)) == n
  {
    if n >= 10 {
      ValOfDec(n / 10);
      assert Dec(n)[..|Dec(n)| - 1] == Dec(n / 10);
    }
  }

  lemma {:induction false} DecWidth(n: nat, k: nat)
    requires k >= 1 && n < Pow10(k)
    ensures |Dec(n)| <= k
  {
    if n >= 10 {
      assert Pow10(1) == 10 * Pow10(0);
      assert Pow10(k) == 10 * Pow10(k - 1);
      DecWidth(n / 10, k - 1);
    }
  }

  lemma {:induction false} LeadingDigitsAll(s: string)
    requires AllDigits(s)
    ensures LeadingDigits(s) == s
  {
    if s != [] {
      LeadingDigitsAll(s[1..]);
    }
  }

  lemma {:induction false} SkipBlanks(k: nat, s: string)
    requires s == [] || !IsSpace(s[0])
    ensures SkipSpace(Spaces(k) + s) == s
  {
    var t := Spaces(k) + s;
    if k == 0 {
      assert t == s;
    } else {
      assert t[1..] == Spaces(k - 1) + s;
      SkipBlanks(k - 1, s);
    }
  }

  /** `atol` undoes the padded print, whatever the width. */
  lemma AtolOfPad(width: nat, n: nat)
    ensures Atol(Pad(width, n)) == n
  {
    var d := Dec(n);
    assert IsDigit(d[0]);
    SkipBlanks(if |d| < width then width - |d| else 0, d);
    LeadingDigitsAll(d);
    ValOfDec(n);
  }

  lemma AtolOfDec(n: nat)
    ensures Atol(Dec(n)) == n
  {
    AtolOfPad(0, n);
    assert Pad(0, n) == Dec(n);
  }

  /** A field wide enough for the number has exactly the declared width. */
  lemma PadWidth(width: nat, n: nat)
    requires width >= 1 && n < Pow10(width)
    ensures |Pad(width, n)| == width
  {
    DecWidth(n, width);
  }
}
