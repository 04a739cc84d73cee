/** The JSON text of strings, numbers and arrays, as `JSON.stringify` prints them, and
    why that text can be read back in only one way. */
module Json {
  import opened Text

  function HexDigit(n: nat): char
    requires n < 16
  {
    if n < 10 then ('0' as int + n) as char else ('a' as int + n - 10) as char
  }

  function EscapeChar(c: char): (r: string)
    ensures r != [] && r[0] != '"'
  {
    var n := c as int;
    if c == '"' then "\\\""
    else if c == '\\' then "\\\\"
    else if n == 8 then "\\b"
    else if n == 9 then "\\t"
    else if n == 10 then "\\n"
    else if n == 12 then "\\f"
    else if n == 13 then "\\r"
    else if n < 0x20 then "\\u00" + [HexDigit(n / 16), HexDigit(n % 16)]
    else [c]
  }

  function Escape(s: string): string {
    if s == [] then [] else EscapeChar(s[0]) + Escape(s[1..])
  }

  function Quote(s: string): string {
    "\"" + Escape(s) + "\""
  }

  lemma EscapeCharDecodes(c: char, d: char, x: string, y: string)
    requires EscapeChar(c) + x == EscapeChar(d) + y
    ensures c == d && x == y
  {
    var a, b := EscapeChar(c), EscapeChar(d);
    assert (a + x)[0] == a[0] && (b + y)[0] == b[0];
    if a[0] == '\\' {
      assert (a + x)[1] == a[1] && (b + y)[1] == b[1];
      if a[1] == 'u' {
        assert (a + x)[4] == a[4] && (b + y)[4] == b[4];
        assert (a + x)[5] == a[5] && (b + y)[5] == b[5];
      }
    }
    assert |a| == |b|;
    CancelEqual(a, b, x, y);
  }

  /** What follows an opening quote: the escaped text, the closing quote, and the rest. */
  function Closed(a: string, s: string): (r: string)
    ensures r != [] && (a == [] <==> r[0] == '"')
  {
    if a == [] then "\"" + s else EscapeChar(a[0]) + Closed(a[1..], s)
  }

  lemma {:induction false} ClosedIsEscaped(a: string, s: string)
    ensures Closed(a, s) == Escape(a) + "\"" + s
  {
    if a != [] { ClosedIsEscaped(a[1..], s); }
  }

  lemma {:induction false} ClosedDecodes(a: string, b: string, s: string, t: string)
    requires Closed(a, s) == Closed(b, t)
    ensures a == b && s == t
    decreases |a|
  {
    if a == [] {
      CancelEqual("\"", "\"", s, t);
    } else {
      EscapeCharDecodes(a[0], b[0], Closed(a[1..], s), Closed(b[1..], t));
      ClosedDecodes(a[1..], b[1..], s, t);
      assert a == [a[0]] + a[1..] && b == [b[0]] + b[1..];
    }
  }

  lemma QuoteOpens(a: string)
    ensures Quote(a) == "\"" + (Escape(a) + "\"")
  {
  }

  /** A quoted string ends where it ends, whatever follows. */
  lemma QuoteDecodes(a: string, b: string, s: string, t: string)
    requires Quote(a) + s == Quote(b) + t
    ensures a == b && s == t
  {
    ClosedIsEscaped(a, s);
    ClosedIsEscaped(b, t);
    QuoteOpens(a);
    QuoteOpens(b);
    CancelHead("\"", Escape(a) + "\"", Escape(b) + "\"", s, t);
    ClosedDecodes(a, b, s, t);
  }

  // ---------------------------------------------------------------- arrays

  /** The entries after the first, and the closing bracket. */
  function Rest<T>(print_: T -> string, xs: seq<T>): (s: string)
    ensures s != [] && (xs == [] ==> s[0] == ']') && (xs != [] ==> s[0] == ',')
  {
    if xs == [] then "]" else "," + print_(xs[0]) + Rest(print_, xs[1..])
  }

  function Array<T>(print_: T -> string, xs: seq<T>): string {
    "[" + if xs == [] then "]" else print_(xs[0]) + Rest(print_, xs[1..])
  }

  /** Every printed value is an object, and ends where it ends. */
  ghost predicate Decodable<T(!new)>(print_: T -> string) {
    && (forall x: T :: print_(x) != [] && print_(x)[0] == '{')
    && (forall x: T, y: T, s: string, t: string {:trigger print_(x) + s, print_(y) + t} ::
          print_(x) + s == print_(y) + t ==> x == y && s == t)
  }

  lemma {:induction false} RestDecodes<T(!new)>(print_: T -> string, xs: seq<T>, ys: seq<T>, s: string, t: string)
    requires Decodable(print_) && Rest(print_, xs) + s == Rest(print_, ys) + t
    ensures xs == ys && s == t
    decreases |xs|
  {
    var a, b := Rest(print_, xs) + s, Rest(print_, ys) + t;
    assert a[0] == Rest(print_, xs)[0] && b[0] == Rest(print_, ys)[0];
    if xs == [] {
      CancelEqual("]", "]", s, t);
    } else {
      var a1, b1 := Rest(print_, xs[1..]) + s, Rest(print_, ys[1..]) + t;
      assert a == "," + (print_(xs[0]) + a1);
      assert b == "," + (print_(ys[0]) + b1);
      CancelEqual(",", ",", print_(xs[0]) + a1, print_(ys[0]) + b1);
      RestDecodes(print_, xs[1..], ys[1..], s, t);
      assert xs == [xs[0]] + xs[1..] && ys == [ys[0]] + ys[1..];
    }
  }

  lemma ArrayDecodes<T(!new)>(print_: T -> string, xs: seq<T>, ys: seq<T>, s: string, t: string)
    requires Decodable(print_) && Array(print_, xs) + s == Array(print_, ys) + t
    ensures xs == ys && s == t
  {
    var a := if xs == [] then "]" else print_(xs[0]) + Rest(print_, xs[1..]);
    var b := if ys == [] then "]" else print_(ys[0]) + Rest(print_, ys[1..]);
    assert Array(print_, xs) + s == "[" + (a + s) && Array(print_, ys) + t == "[" + (b + t);
    CancelEqual("[", "[", a + s, b + t);
    assert (a + s)[0] == a[0] && (b + t)[0] == b[0];
    if xs == [] {
      CancelEqual("]", "]", s, t);
    } else {
      var a1, b1 := Rest(print_, xs[1..]) + s, Rest(print_, ys[1..]) + t;
      assert a + s == print_(xs[0]) + a1 && b + t == print_(ys[0]) + b1;
      RestDecodes(print_, xs[1..], ys[1..], s, t);
      assert xs == [xs[0]] + xs[1..] && ys == [ys[0]] + ys[1..];
    }
  }

  // ---------------------------------------------------------------- sizes

  /** The printed sizes of the entries, each with a comma. */
  function Load<T>(print_: T -> string, xs: seq<T>): nat {
    if xs == [] then 0 else Load(print_, xs[..|xs| - 1]) + Utf8Length(print_(xs[|xs| - 1])) + 1
  }

  lemma {:induction false} LoadConcat<T>(print_: T -> string, a: seq<T>, b: seq<T>)
    ensures Load(print_, a + b) == Load(print_, a) + Load(print_, b)
    decreases |b|
  {
    if b == [] {
      assert a + b == a;
    } else {
      assert (a + b)[..|a + b| - 1] == a + b[..|b| - 1];
      LoadConcat(print_, a, b[..|b| - 1]);
    }
  }

  lemma {:induction false} RestSize<T>(print_: T -> string, xs: seq<T>)
    ensures Utf8Length(Rest(print_, xs)) == Load(print_, xs) + 1
  {
    if xs != [] {
      RestSize(print_, xs[1..]);
      Utf8Additive("," + print_(xs[0]), Rest(print_, xs[1..]));
      Utf8Additive(",", print_(xs[0]));
      LoadConcat(print_, [xs[0]], xs[1..]);
      assert [xs[0]] + xs[1..] == xs;
      assert [xs[0]][..0] == [];
    }
  }

  /** The size of an array is additive in its entries: one comma each but the first. */
  lemma ArraySize<T>(print_: T -> string, xs: seq<T>)
    ensures Utf8Length(Array(print_, xs)) == 2 + Load(print_, xs) - (if xs == [] then 0 else 1)
  {
    Utf8Additive("[", if xs == [] then "]" else print_(xs[0]) + Rest(print_, xs[1..]));
    if xs != [] {
      Utf8Additive(print_(xs[0]), Rest(print_, xs[1..]));
      RestSize(print_, xs[1..]);
      LoadConcat(print_, [xs[0]], xs[1..]);
      assert [xs[0]] + xs[1..] == xs;
      assert [xs[0]][..0] == [];
    }
  }

  lemma {:induction false} EscapeSize(s: string)
    ensures Utf8Length(Escape(s)) <= 6 * Units(s)
  {
    if s != [] {
      Utf8Additive(EscapeChar(s[0]), Escape(s[1..]));
      EscapeCharSize(s[0]);
      EscapeSize(s[1..]);
    }
  }

  lemma EscapeCharSize(c: char)
    ensures Utf8Length(EscapeChar(c)) <= if c as int < 0x20 || c == '"' || c == '\\' then 6 else Utf8Bytes(c)
  {
    var e := EscapeChar(c);
    if c as int < 0x20 || c == '"' || c == '\\' {
      AsciiLength(e);
    } else {
      assert e == [c] && e[1..] == [];
    }
  }

  /** Escaping costs at most six bytes a code unit. */
  lemma QuoteSize(s: string)
    ensures Utf8Length(Quote(s)) <= 2 + 6 * Units(s)
  {
    Utf8Additive("\"" + Escape(s), "\"");
    Utf8Additive("\"", Escape(s));
    EscapeSize(s);
    AsciiLength("\"");
  }
}
