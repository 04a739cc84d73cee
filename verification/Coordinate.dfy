/** Event coordinates `<kind>:<pubkey>:<d>`: one string per space, and back. */
module Coordinate {
  import opened Wrappers
  import opened Text

  datatype EventCoordinate = EventCoordinate(kind: nat, pubkey: string, identifier: string)

  const INVALID := "invalid coordinate"

  /** `s.indexOf(c, from)`: the first position at or after `from` that holds `c`. */
  function IndexOf(s: string, c: char, from: nat): (r: Option<nat>)
    ensures r.Some? ==> from <= r.value < |s| && s[r.value] == c && c !in s[from..r.value]
    ensures r.None? ==> from > |s| || c !in s[from..]
    decreases |s| - from
  {
    if from >= |s| then None
    else if s[from] == c then Some(from)
    else
      var r := IndexOf(s, c, from + 1);
      assert r.Some? ==> s[from..r.value] == [s[from]] + s[from + 1..r.value];
      assert s[from..] == [s[from]] + s[from + 1..];
      r
  }

  function MakeCoordinate(pubkey: string, d: string, kind: nat): string {
    Decimal(kind) + (":" + (pubkey + (":" + d)))
  }

  /** `/^(0|[1-9][0-9]*)$/`. */
  predicate IsCanonicalDecimal(s: string) {
    s != [] && (forall c <- s :: IsDigit(c)) && (s[0] == '0' ==> |s| == 1)
  }

  function ParseCoordinate(coordinate: string): Result<EventCoordinate> {
    var first := IndexOf(coordinate, ':', 0);
    if first.None? then Err(INVALID)
    else
      var second := IndexOf(coordinate, ':', first.value + 1);
      if second.None? then Err(INVALID)
      else
        var kindText := coordinate[..first.value];
        var pubkey := coordinate[first.value + 1..second.value];
        if !IsCanonicalDecimal(kindText) || Value(kindText) > 65535 || !IsHex64(pubkey) then Err(INVALID)
        else Ok(EventCoordinate(Value(kindText), pubkey, coordinate[second.value + 1..]))
  }

  ghost predicate Valid(x: EventCoordinate) {
    x.kind <= 65535 && IsHex64(x.pubkey)
  }

  lemma FirstColon(a: string, b: string, from: nat)
    requires from <= |a| && ':' !in a[from..]
    ensures IndexOf(a + ":" + b, ':', from) == Some(|a|)
    decreases |a| - from
  {
    var s := a + ":" + b;
    assert s[|a|] == ':';
    if from < |a| {
      assert s[from] == a[from] && a[from..] == [a[from]] + a[from + 1..];
      FirstColon(a, b, from + 1);
    }
  }

  lemma ThreeParts(a: string, b: string, c: string)
    ensures var s := a + (":" + (b + (":" + c)));
            && s == a + ":" + (b + (":" + c)) && s == (a + ":" + b) + ":" + c
            && s[..|a|] == a && s[|a| + 1..|a| + 1 + |b|] == b && s[|a| + 1 + |b| + 1..] == c
  {
  }

  /** Printing then parsing gives the coordinate back, colons in the identifier included. */
  lemma ParseInvertsMake(x: EventCoordinate)
    requires Valid(x)
    ensures ParseCoordinate(MakeCoordinate(x.pubkey, x.identifier, x.kind)) == Ok(x)
  {
    var kindText := Decimal(x.kind);
    ThreeParts(kindText, x.pubkey, x.identifier);
    assert kindText[0..] == kindText;
    FirstColon(kindText, x.pubkey + (":" + x.identifier), 0);
    var head := kindText + ":" + x.pubkey;
    assert head[|kindText| + 1..] == x.pubkey;
    FirstColon(head, x.identifier, |kindText| + 1);
    ValueOfDecimal(x.kind);
    assert kindText[0] == '0' ==> x.kind == 0;
  }

  lemma CutTwice(s: string, i: nat, j: nat)
    requires i < j < |s| && s[i] == ':' && s[j] == ':'
    ensures s == s[..i] + (":" + (s[i + 1..j] + (":" + s[j + 1..])))
  {
  }

  /** An accepted coordinate reprints to itself: nothing spells a space in two ways. */
  lemma MakeInvertsParse(coordinate: string)
    requires ParseCoordinate(coordinate).Ok?
    ensures var x := ParseCoordinate(coordinate).value;
            Valid(x) && MakeCoordinate(x.pubkey, x.identifier, x.kind) == coordinate
    ensures var x := ParseCoordinate(coordinate).value;
            && x.kind <= 65_535 && |x.pubkey| == 64
            && coordinate == Decimal(x.kind) + (":" + (x.pubkey + (":" + x.identifier)))
  {
    var first := IndexOf(coordinate, ':', 0).value;
    var second := IndexOf(coordinate, ':', first + 1).value;
    DecimalOfValue(coordinate[..first]);
    CutTwice(coordinate, first, second);
  }

  /** Exactly the printed coordinates are accepted, and each names one space. */
  lemma AcceptedIffPrinted(coordinate: string)
    ensures ParseCoordinate(coordinate).Ok? <==>
              exists x :: Valid(x) && MakeCoordinate(x.pubkey, x.identifier, x.kind) == coordinate
  {
    if ParseCoordinate(coordinate).Ok? {
      MakeInvertsParse(coordinate);
      var x := ParseCoordinate(coordinate).value;
      assert Valid(x) && MakeCoordinate(x.pubkey, x.identifier, x.kind) == coordinate;
    }
    forall x | Valid(x) && MakeCoordinate(x.pubkey, x.identifier, x.kind) == coordinate
      ensures ParseCoordinate(coordinate) == Ok(x)
    {
      ParseInvertsMake(x);
    }
  }
}
