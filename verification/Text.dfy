/** Character classes, decimal numerals, and the size of text as the wire counts it. */
module Text {

  predicate IsDigit(c: char) {
    '0' <= c <= '9'
  }

  predicate IsHexChar(c: char) {
    '0' <= c <= '9' || 'a' <= c <= 'f'
  }

  /** `/^[0-9a-f]{64}$/`: a canonical public key. */
  predicate IsHex64(s: string) {
    |s| == 64 && forall c <- s :: IsHexChar(c)
  }

  /** A canonical public key is 64 lower-case hexadecimal digits. */
  lemma Hex64Means(s: string)
    ensures IsHex64(s) <==> |s| == 64 && forall i :: 0 <= i < |s| ==> s[i] in "0123456789abcdef"
  {
    var digits := "0123456789abcdef";
    forall c: char
      ensures IsHexChar(c) <==> c in digits
    {
      HexCharMeans(c);
    }
    assert forall i :: 0 <= i < |s| ==> s[i] in s;
  }

  lemma HexCharMeans(c: char)
    ensures IsHexChar(c) <==> c in "0123456789abcdef"
  {
    var digits := "0123456789abcdef";
    if '0' <= c <= '9' { assert digits[c as int - '0' as int] == c; }
    if 'a' <= c <= 'f' { assert digits[10 + (c as int - 'a' as int)] == c; }
  }

  // ---------------------------------------------------------------- decimal numerals

  function DigitChar(d: nat): (c: char)
    requires d < 10
    ensures IsDigit(c) && c as int - '0' as int == d
  {
    (d + '0' as int) as char
  }

  /** `String(n)` for a non-negative integer. */
  function Decimal(n: nat): (s: string)
    ensures s != [] && forall c <- s :: IsDigit(c)
    ensures n > 0 ==> s[0] != '0'
    ensures n == 0 ==> s == "0"
  {
    if n < 10 then [DigitChar(n)] else Decimal(n / 10) + [DigitChar(n % 10)]
  }

  function Digit(c: char): (d: nat)
    requires IsDigit(c)
    ensures d < 10 && DigitChar(d) == c && (c != '0' ==> d > 0)
  {
    c as int - '0' as int
  }

  /** The number a digit string spells. */
  function Value(s: string): nat
    requires forall c <- s :: IsDigit(c)
  {
    if s == [] then 0 else 10 * Value(s[..|s| - 1]) + Digit(s[|s| - 1])
  }

  lemma {:induction false} ValueOfDecimal(n: nat)
    ensures Value(Decimal(n)) == n
  {
    if n >= 10 {
      ValueOfDecimal(n / 10);
      var s := Decimal(n / 10);
      assert (s + [DigitChar(n % 10)])[..|s|] == s;
    }
  }

  /** Printing a value gives back every numeral without a superfluous leading zero. */
  lemma {:induction false} DecimalOfValue(s: string)
    requires s != [] && (forall c <- s :: IsDigit(c)) && (s[0] == '0' ==> |s| == 1)
    ensures Decimal(Value(s)) == s
  {
    var last := s[|s| - 1];
    var init := s[..|s| - 1];
    assert last in s && s[0] in s;
    if |s| == 1 {
      assert Value(init) == 0;
      assert s == [last];
    } else {
      DecimalOfValue(init);
      ValueIsPositive(init);
      DecimalSnoc(Value(init), Digit(last));
      assert s == init + [last];
    }
  }

  lemma DecimalSnoc(n: nat, d: nat)
    requires n > 0 && d < 10
    ensures Decimal(10 * n + d) == Decimal(n) + [DigitChar(d)]
  {
    assert (10 * n + d) / 10 == n && (10 * n + d) % 10 == d;
  }

  lemma {:induction false} ValueIsPositive(s: string)
    requires s != [] && (forall c <- s :: IsDigit(c)) && s[0] != '0'
    ensures Value(s) > 0
  {
    assert s[|s| - 1] in s;
    if |s| > 1 {
      ValueIsPositive(s[..|s| - 1]);
    } else {
      assert Value(s[..0]) == 0;
    }
  }

  lemma {:induction false} DecimalLength(n: nat, k: nat)
    requires n < Pow10(k) && k > 0
    ensures |Decimal(n)| <= k
    decreases k
  {
    if n >= 10 { DecimalLength(n / 10, k - 1); }
  }

  function Pow10(k: nat): nat {
    if k == 0 then 1 else 10 * Pow10(k - 1)
  }

  /** The text `s` cannot continue a numeral. */
  ghost predicate EndsNumber(s: string) {
    s != [] && !IsDigit(s[0])
  }

  /** Two digit strings, each followed by something else, end together. */
  lemma {:induction false} DigitsEndTogether(a: string, b: string, s: string, t: string)
    requires (forall c <- a :: IsDigit(c)) && (forall c <- b :: IsDigit(c))
    requires a + s == b + t && EndsNumber(s) && EndsNumber(t)
    ensures |a| == |b|
    decreases |a|
  {
    assert forall i :: 0 <= i < |a| ==> a[i] in a;
    assert forall i :: 0 <= i < |b| ==> b[i] in b;
    assert (a + s)[0] == if a == [] then s[0] else a[0];
    assert (b + t)[0] == if b == [] then t[0] else b[0];
    if a != [] && b != [] {
      assert a + s == [a[0]] + (a[1..] + s) && b + t == [b[0]] + (b[1..] + t);
      CancelEqual([a[0]], [b[0]], a[1..] + s, b[1..] + t);
      DigitsEndTogether(a[1..], b[1..], s, t);
    } else {
    }
  }

  lemma DecimalDecodes(m: nat, n: nat, s: string, t: string)
    requires Decimal(m) + s == Decimal(n) + t && EndsNumber(s) && EndsNumber(t)
    ensures m == n && s == t
  {
    DigitsEndTogether(Decimal(m), Decimal(n), s, t);
    CancelEqual(Decimal(m), Decimal(n), s, t);
    ValueOfDecimal(m);
    ValueOfDecimal(n);
  }

  /** `String(n)` for any integer. */
  function Numeral(n: int): (s: string)
    ensures s != [] && (n >= 0 ==> IsDigit(s[0])) && (n < 0 ==> s[0] == '-')
  {
    if n < 0 then "-" + Decimal(-n) else assert Decimal(n)[0] in Decimal(n); Decimal(n)
  }

  lemma NumeralDecodes(m: int, n: int, s: string, t: string)
    requires Numeral(m) + s == Numeral(n) + t && EndsNumber(s) && EndsNumber(t)
    ensures m == n && s == t
  {
    HeadOfSum(Numeral(m), s);
    HeadOfSum(Numeral(n), t);
    if m < 0 {
      CancelHead("-", Decimal(-m), Decimal(-n), s, t);
      DecimalDecodes(-m, -n, s, t);
    } else {
      DecimalDecodes(m, n, s, t);
    }
  }

  lemma HeadOfSum(a: string, s: string)
    requires a != []
    ensures (a + s)[0] == a[0]
  {
  }

  /** A common head cancels, whatever follows it on either side. */
  lemma CancelHead(head: string, x: string, y: string, s: string, t: string)
    requires (head + x) + s == (head + y) + t
    ensures x + s == y + t
  {
    assert (head + x) + s == head + (x + s);
    assert (head + y) + t == head + (y + t);
    CancelEqual(head, head, x + s, y + t);
  }

  lemma CancelEqual(a: string, b: string, s: string, t: string)
    requires a + s == b + t && |a| == |b|
    ensures a == b && s == t
  {
    assert a == (a + s)[..|a|] && b == (b + t)[..|b|];
    assert s == (a + s)[|a|..] && t == (b + t)[|b|..];
  }

  // ---------------------------------------------------------------- sizes

  /** Bytes of one character in UTF-8 (section 3 of RFC 3629). */
  function Utf8Bytes(c: char): nat {
    if c as int < 0x80 then 1 else if c as int < 0x800 then 2 else if c as int < 0x1_0000 then 3 else 4
  }

  function Utf8Length(s: string): (n: nat)
    ensures n >= |s|
  {
    if s == [] then 0 else Utf8Bytes(s[0]) + Utf8Length(s[1..])
  }

  /** `s.length`: UTF-16 code units. */
  function Units(s: string): (n: nat)
    ensures n >= |s|
  {
    if s == [] then 0 else (if s[0] as int < 0x1_0000 then 1 else 2) + Units(s[1..])
  }

  lemma {:induction false} Utf8Additive(a: string, b: string)
    ensures Utf8Length(a + b) == Utf8Length(a) + Utf8Length(b)
  {
    if a == [] {
      assert a + b == b;
    } else {
      assert (a + b)[0] == a[0] && (a + b)[1..] == a[1..] + b;
      Utf8Additive(a[1..], b);
    }
  }

  ghost predicate IsAscii(s: string) {
    forall c <- s :: c as int < 0x80
  }

  lemma {:induction false} AsciiLength(s: string)
    requires IsAscii(s)
    ensures Utf8Length(s) == |s|
  {
    if s != [] {
      assert s[0] in s;
      assert forall c <- s[1..] :: c in s;
      AsciiLength(s[1..]);
    }
  }

  lemma NumeralIsAscii(n: int)
    ensures IsAscii(Numeral(n))
  {
    var digits := Decimal(if n < 0 then -n else n);
    assert forall c <- digits :: IsDigit(c);
    assert Numeral(n) == digits || Numeral(n) == "-" + digits;
  }
}
