/** The numbers in a tar header: octal numerals, which the program reads as decimal ones and converts. */
module TarNumbers {
  import opened Decimal

  const UINT_MAX: nat := 4294967295

  /** What `>>` reads: an optional sign and digits; too large a number reads as the largest one. */
  function ReadUint(s: string): (n: nat)
    ensures n <= UINT_MAX
  {
    var t := SkipSpace(s);
    var signed := t != [] && (t[0] == '-' || t[0] == '+');
    var n := Val(LeadingDigits(if signed then t[1..] else t));
    if n > UINT_MAX then UINT_MAX
    else if signed && t[0] == '-' && n > 0 then UINT_MAX + 1 - n else n
  }

  // ---------- ascii2uint ----------

  /** Leading zeros turned into spaces. */
  function BlankZeros(s: string): (r: string)
    ensures |r| == |s|
  {
    if s == [] || s[0] != '0' then s else [' '] + BlankZeros(s[1..])
  }

  function NoSpaces(s: string): string {
    if s == [] then [] else if s[0] == ' ' then NoSpaces(s[1..]) else [s[0]] + NoSpaces(s[1..])
  }

  function Ascii(s: string): (n: nat)
    ensures n <= UINT_MAX
  {
    ReadUint(NoSpaces(BlankZeros(s)))
  }

  lemma {:induction false} NoSpacesErased(a: string, b: string)
    ensures NoSpaces(a + " " + b) == NoSpaces(a + b)
  {
    if a == [] {
      assert a + " " + b == " " + b && a + b == b;
      assert (" " + b)[1..] == b;
    } else {
      NoSpacesErased(a[1..], b);
      assert (a + " " + b)[1..] == a[1..] + " " + b && (a + b)[1..] == a[1..] + b;
    }
  }

  lemma {:induction false} NoneToErase(s: string)
    requires ' ' !in s
    ensures NoSpaces(s) == s
  {
    if s != [] {
      assert s[0] in s && s == [s[0]] + s[1..];
      NoneToErase(s[1..]);
    }
  }

  lemma {:induction false} ZerosBlanked(s: string, n: nat)
    requires n <= |s| && (forall i :: 0 <= i < n ==> s[i] == '0') && (n < |s| ==> s[n] != '0')
    ensures BlankZeros(s) == Spaces(n) + s[n..]
  {
    if n > 0 {
      ZerosBlanked(s[1..], n - 1);
      assert s[1..][n - 1..] == s[n..];
    }
  }

  method Ascii2Uint(number: string) returns (n: nat)
    ensures n == Ascii(number)
  {
    var text := number;
    var i := 0;
    while i < |text| && text[i] == '0'
      invariant 0 <= i <= |text| == |number| && text == Spaces(i) + number[i..]
      invariant forall j :: 0 <= j < i ==> number[j] == '0'
    {
      assert text[i] == number[i];
      text := text[i := ' '];
      i := i + 1;
      assert text == Spaces(i) + number[i..];
    }
    assert i < |number| ==> text[i] == number[i];
    ZerosBlanked(number, i);
    var pos: nat := FindSpace(text);
    while pos < |text|
      invariant pos <= |text| && NoSpaces(text) == NoSpaces(BlankZeros(number))
      invariant pos < |text| ==> text[pos] == ' '
      invariant pos == |text| ==> ' ' !in text
      decreases |text|
    {
      NoSpacesErased(text[..pos], text[pos + 1..]);
      assert text == text[..pos] + " " + text[pos + 1..];
      text := text[..pos] + text[pos + 1..];
      pos := FindSpace(text);
    }
    NoneToErase(text);
    n := ReadUint(text);
  }

  method FindSpace(s: string) returns (pos: nat)
    ensures pos <= |s| && (pos < |s| ==> s[pos] == ' ') && (pos == |s| ==> ' ' !in s)
  {
    pos := 0;
    while pos < |s| && s[pos] != ' '
      invariant pos <= |s| && forall i :: 0 <= i < pos ==> s[i] != ' '
    {
      pos := pos + 1;
    }
  }

  // ---------- base8to10 ----------

  function Pow8(n: nat): nat {
    if n == 0 then 1 else 8 * Pow8(n - 1)
  }

  /** The number whose octal digits are the decimal digits of `num`. */
  function Base8(num: nat): (r: nat)
    ensures r <= num
  {
    if num == 0 then 0 else num % 10 + 8 * Base8(num / 10)
  }

  /** The running sum stays in range, so the unsigned arithmetic is exact. */
  method Base8To10(number: nat) returns (r: nat)
    requires number <= UINT_MAX
    ensures r == Base8(number) <= UINT_MAX
  {
    hide Base8, Pow8;
    var num: nat, level: nat := number, 0;
    r := 0;
    Base8Step(0, 0);
    while num != 0
      invariant r + Pow8(level) * Base8(num) == Base8(number)
    {
      Base8Step(num, level);
      Distribute(Pow8(level), num % 10, Base8(num / 10));
      r := r + (num % 10) * Pow8(level);
      level := level + 1;
      num := num / 10;
    }
  }

  lemma Base8Step(num: nat, level: nat)
    ensures Base8(num) == if num == 0 then 0 else num % 10 + 8 * Base8(num / 10)
    ensures Pow8(0) == 1 && Pow8(level + 1) == 8 * Pow8(level)
  {
  }

  lemma Distribute(p: nat, d: nat, rest: nat)
    ensures p * (d + 8 * rest) == d * p + (8 * p) * rest
  {
  }

  // ---------- when a size is read exactly ----------

  /** The octal numeral of `n`, without leading zeros. */
  function Octal(n: nat): (s: string)
    ensures AllDigits(s)
    ensures n == 0 <==> s == []
    ensures s != [] ==> s[0] != '0'
  {
    if n == 0 then [] else Octal(n / 8) + [Digit(n % 8)]
  }

  /** The octal numeral of `n`, read as a decimal one. */
  function AsDecimal(n: nat): nat {
    if n == 0 then 0 else n % 8 + 10 * AsDecimal(n / 8)
  }

  lemma {:induction false} OctalReads(n: nat)
    ensures Val(Octal(n)) == AsDecimal(n)
  {
    if n > 0 {
      OctalReads(n / 8);
      assert Octal(n)[..|Octal(n)| - 1] == Octal(n / 8);
    }
  }

  lemma {:induction false} Base8Undoes(n: nat)
    ensures Base8(AsDecimal(n)) == n
  {
    if n > 0 {
      Base8Undoes(n / 8);
      assert AsDecimal(n) % 10 == n % 8 && AsDecimal(n) / 10 == AsDecimal(n / 8);
    }
  }

  lemma {:induction false} AsDecimalGrows(m: nat, n: nat)
    requires m < n
    ensures AsDecimal(m) < AsDecimal(n)
  {
    if m / 8 < n / 8 {
      AsDecimalGrows(m / 8, n / 8);
    }
    if m == 0 { Positive(n); }
  }

  lemma {:induction false} Positive(n: nat)
    requires n > 0
    ensures AsDecimal(n) > 0
  {
    if n >= 8 { Positive(n / 8); }
  }

  /** A header field that holds `n`: zeros and spaces, the octal numeral, then spaces and NULs. */
  ghost predicate NumberField(s: string, n: nat) {
    exists a: nat, b: nat :: a + b <= |s| && Holds(s, n, a, b)
  }

  predicate Holds(s: string, n: nat, a: nat, b: nat)
    requires a + b <= |s|
  {
    && (forall i :: 0 <= i < a ==> s[i] == '0' || s[i] == ' ')
    && s[a..a + b] == Octal(n)
    && (forall i :: a + b <= i < |s| ==> s[i] == ' ' || s[i] == '\0')
  }

  lemma {:induction false} NoSpacesJoins(a: string, b: string)
    ensures NoSpaces(a + b) == NoSpaces(a) + NoSpaces(b)
  {
    if a == [] {
      assert a + b == b;
    } else {
      NoSpacesJoins(a[1..], b);
      assert (a + b)[1..] == a[1..] + b;
    }
  }

  lemma PartOf(s: string, i: nat, j: nat)
    requires i <= j <= |s|
    ensures forall c :: c in s[i..j] ==> c in s
  {
    forall c | c in s[i..j] ensures c in s {
      var k :| 0 <= k < j - i && s[i..j][k] == c;
      assert s[i + k] == c;
    }
  }

  predicate Zeros(s: string) {
    forall c :: c in s ==> c == '0'
  }

  lemma {:induction false} LeadIsZeros(s: string)
    requires forall c :: c in s ==> c == '0' || c == ' '
    ensures Zeros(NoSpaces(s))
  {
    if s != [] {
      assert s[0] in s;
      PartOf(s, 1, |s|);
      assert s[1..|s|] == s[1..];
      LeadIsZeros(s[1..]);
    }
  }

  lemma {:induction false} TailIsNuls(s: string)
    requires forall c :: c in s ==> c == ' ' || c == '\0'
    ensures forall c :: c in NoSpaces(s) ==> c == '\0'
  {
    if s != [] {
      assert s[0] in s;
      PartOf(s, 1, |s|);
      assert s[1..|s|] == s[1..];
      TailIsNuls(s[1..]);
    }
  }

  lemma {:induction false} BlankZerosKeeps(s: string)
    requires forall c :: c in s ==> c == '0' || c == ' '
    ensures forall c :: c in BlankZeros(s) ==> c == '0' || c == ' '
  {
    if s != [] {
      assert s[0] in s;
      PartOf(s, 1, |s|);
      assert s[1..|s|] == s[1..];
      BlankZerosKeeps(s[1..]);
    }
  }

  /** Blanking zeros stops before the numeral, which does not start with one. */
  lemma {:induction false} BlankZerosJoins(a: string, b: string)
    requires (b == [] || b[0] != '0')
    ensures BlankZeros(a + b) == BlankZeros(a) + b
  {
    if a == [] {
      assert a + b == b;
    } else {
      BlankZerosJoins(a[1..], b);
      assert (a + b)[1..] == a[1..] + b;
    }
  }

  lemma {:induction false} DigitsOf(d: string, tail: string)
    requires AllDigits(d) && forall c :: c in tail ==> c == '\0'
    ensures LeadingDigits(d + tail) == d
  {
    if d == [] {
      assert d + tail == tail;
      if tail != [] { assert tail[0] in tail; }
    } else {
      assert d[0] in d;
      DigitsOf(d[1..], tail);
      assert (d + tail)[1..] == d[1..] + tail && d == [d[0]] + d[1..];
    }
  }

  lemma {:induction false} DecimalOfZeros(z: string, d: string)
    requires Zeros(z) && AllDigits(d)
    ensures AllDigits(z + d) && Val(z + d) == Val(d)
  {
    if d == [] {
      assert z + d == z;
      if z != [] {
        assert z[|z| - 1] in z;
        PartOf(z, 0, |z| - 1);
        assert z[0..|z| - 1] == z[..|z| - 1];
        DecimalOfZeros(z[..|z| - 1], []);
        assert z[..|z| - 1] + [] == z[..|z| - 1];
      }
    } else {
      DecimalOfZeros(z, d[..|d| - 1]);
      assert (z + d)[..|z + d| - 1] == z + d[..|d| - 1];
    }
  }

  /** Reading a number field gives its octal numeral as a decimal one, cut off at the largest unsigned
      int. */
  lemma FieldReads(s: string, n: nat)
    requires NumberField(s, n)
    ensures Ascii(s) == if AsDecimal(n) > UINT_MAX then UINT_MAX else AsDecimal(n)
  {
    var a: nat, b: nat :| a + b <= |s| && Holds(s, n, a, b);
    var lead, d, tail := s[..a], s[a..a + b], s[a + b..];
    assert s == lead + (d + tail);
    forall c | c in tail ensures c == ' ' || c == '\0' {
    }
    BlankZerosJoins(lead, d + tail);
    BlankZerosKeeps(lead);
    LeadIsZeros(BlankZeros(lead));
    TailIsNuls(tail);
    DigitsKept(d);
    NoSpacesJoins(BlankZeros(lead), d + tail);
    NoSpacesJoins(d, tail);
    FieldValue(NoSpaces(BlankZeros(lead)), d, NoSpaces(tail));
    OctalReads(n);
  }

  lemma DigitsKept(d: string)
    requires AllDigits(d)
    ensures NoSpaces(d) == d
  {
    NoneToErase(d);
  }

  lemma PlainRead(t: string)
    requires t == [] || IsDigit(t[0]) || t[0] == '\0'
    ensures ReadUint(t) == if Val(LeadingDigits(t)) > UINT_MAX then UINT_MAX else Val(LeadingDigits(t))
  {
    hide Val, LeadingDigits;
  }

  lemma FieldValue(z: string, d: string, tail: string)
    requires Zeros(z) && AllDigits(d) && forall c :: c in tail ==> c == '\0'
    ensures ReadUint(z + (d + tail)) == if Val(d) > UINT_MAX then UINT_MAX else Val(d)
  {
    hide Val, LeadingDigits, ReadUint;
    DecimalOfZeros(z, d);
    DigitsOf(z + d, tail);
    var t := z + (d + tail);
    assert t == (z + d) + tail;
    if z + d != [] {
      assert t[0] == (z + d)[0];
    } else if tail != [] {
      assert t[0] == tail[0] && tail[0] in tail;
    }
    PlainRead(t);
  }

  /** A sign before the digits: a negative number wraps around. */
  lemma SignRead(d: string)
    requires AllDigits(d)
    ensures ReadUint("+" + d) == if Val(d) > 4294967295 then 4294967295 else Val(d)
    ensures ReadUint("-" + d) == if Val(d) > 4294967295 then 4294967295 else (4294967296 - Val(d)) % 4294967296
  {
    hide Val, ReadUint, LeadingDigits;
    DigitsOf(d, "");
    assert d + "" == d;
    SignedRead('+', d);
    SignedRead('-', d);
  }

  lemma SignedRead(sign: char, d: string)
    requires sign == '+' || sign == '-'
    ensures var n := Val(LeadingDigits(d));
            ReadUint([sign] + d) == if n > UINT_MAX then UINT_MAX else if sign == '-' && n > 0 then UINT_MAX + 1 - n else n
  {
    hide Val, LeadingDigits;
    assert ([sign] + d)[1..] == d;
  }

  /** The size the program reads from a field is exact if and only if it is less than 587202560 bytes,
      which is octal 4300000000, or happens to be what the largest unsigned int converts to. */
  lemma SizeIsExact(s: string, n: nat)
    requires NumberField(s, n)
    ensures Base8(Ascii(s)) == n <==> n < 587202560 || n == 590671565
  {
    hide Ascii, Base8, AsDecimal;
    FieldReads(s, n);
    Base8Undoes(n);
    Limits();
    if n < 587202560 { AsDecimalGrows(n, 587202560); }
    if n > 587202560 { AsDecimalGrows(587202560, n); }
    if n < 587202559 { AsDecimalGrows(n, 587202559); }
  }

  /** The time of a member is read as a decimal number and not converted, so it is exact if and only if
      it is one octal digit, or happens to be the largest unsigned int. */
  lemma TimeIsExact(s: string, n: nat)
    requires NumberField(s, n)
    ensures Ascii(s) == n <==> n < 8 || n == UINT_MAX
  {
    hide Ascii;
    FieldReads(s, n);
    if n < 8 {
      assert AsDecimal(n) == n;
    } else {
      DecimalIsMore(n);
      if n >= UINT_MAX {
        DecimalIsMore(UINT_MAX);
        if n > UINT_MAX { AsDecimalGrows(UINT_MAX, n); }
      }
    }
  }

  lemma {:induction false} DecimalIsMore(n: nat)
    ensures AsDecimal(n) >= n && (n >= 8 ==> AsDecimal(n) > n)
  {
    if n >= 8 { DecimalIsMore(n / 8); }
  }

  lemma Limits()
    ensures AsDecimal(587202559) == 4277777777 && AsDecimal(587202560) == 4300000000
    ensures Base8(UINT_MAX) == 590671565
  {
    LimitBelow();
    LimitAbove();
    LargestConverted();
  }

  lemma LimitBelow()
    ensures AsDecimal(587202559) == 4277777777
  {
    assert AsDecimal(4) == 4;
    assert AsDecimal(34) == 42;
    assert AsDecimal(279) == 427;
    assert AsDecimal(2239) == 4277;
    assert AsDecimal(17919) == 42777;
    assert AsDecimal(143359) == 427777;
    assert AsDecimal(1146879) == 4277777;
    assert AsDecimal(9175039) == 42777777;
    assert AsDecimal(73400319) == 427777777;
    assert AsDecimal(587202559) == 4277777777;
  }

  lemma LimitAbove()
    ensures AsDecimal(587202560) == 4300000000
  {
    assert AsDecimal(4) == 4;
    assert AsDecimal(35) == 43;
    assert AsDecimal(280) == 430;
    assert AsDecimal(2240) == 4300;
    assert AsDecimal(17920) == 43000;
    assert AsDecimal(143360) == 430000;
    assert AsDecimal(1146880) == 4300000;
    assert AsDecimal(9175040) == 43000000;
    assert AsDecimal(73400320) == 430000000;
    assert AsDecimal(587202560) == 4300000000;
  }

  lemma LargestConverted()
    ensures Base8(4294967295) == 590671565
  {
    assert Base8(4) == 4;
    assert Base8(42) == 34;
    assert Base8(429) == 281;
    assert Base8(4294) == 2252;
    assert Base8(42949) == 18025;
    assert Base8(429496) == 144206;
    assert Base8(4294967) == 1153655;
    assert Base8(42949672) == 9229242;
    assert Base8(429496729) == 73833945;
    assert Base8(4294967295) == 590671565;
  }
}
