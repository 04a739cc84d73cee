/** Where roster pages live, and which addresses a space may delete. `hash` stands for the
    sha-256 of a coordinate in hex. */
module RosterAddress {
  import opened Wrappers
  import opened Text
  import opened Coordinate
  import Pages = RosterPages

  type Hash = string -> string

  function PageD(base: string, page: nat): string {
    if page == 0 then base else base + ":" + Decimal(page)
  }

  function PageDs(base: string, pages: nat): (ds: seq<string>)
    ensures forall d :: d in ds <==> exists i: nat :: i < Clamp(pages) && d == PageD(base, i)
  {
    var n := Clamp(pages);
    var ds := seq(n, i requires 0 <= i < n => PageD(base, i));
    assert forall i: nat :: i < n ==> ds[i] == PageD(base, i);
    ds
  }

  function Clamp(pages: nat): nat {
    if pages < 1 then 1 else if pages > Pages.MAX_ROSTER_PAGES then Pages.MAX_ROSTER_PAGES else pages
  }

  /** `/^[0-9a-f]{64}(:|$)/`: the identifier is shaped like a derived base. */
  predicate CollidesWithDerived(identifier: string) {
    |identifier| >= 64 && IsHex64(identifier[..64]) && (|identifier| > 64 ==> identifier[64] == ':')
  }

  /** The live spaces' identifiers, this one's excepted; an unreadable coordinate has none. */
  ghost predicate OtherSpace(live: seq<string>, own: string, identifier: string) {
    exists c :: c in live && c != own && ParseCoordinate(c).Ok? && ParseCoordinate(c).value.identifier == identifier
  }

  ghost predicate SharedAddress(live: seq<string>, own: string, d: string) {
    exists identifier :: OtherSpace(live, own, identifier) && d in PageDs(identifier, Pages.MAX_ROSTER_PAGES)
  }

  /** The legacy pages one coordinate of the live list stands for, seen from `own`. */
  function PagesOf(c: string, own: string): seq<string> {
    var parsed := ParseCoordinate(c);
    if c != own && parsed.Ok? then PageDs(parsed.value.identifier, Pages.MAX_ROSTER_PAGES) else []
  }

  /** Exactly the space's own legacy pages that no other live space also occupies, and
      none for an identifier whose alias could be a derived address. */
  method LegacyRosterDsToDelete(live: seq<string>, own: string, identifier: string) returns (ds: seq<string>)
    ensures forall d :: d in ds <==>
              !CollidesWithDerived(identifier) && d in PageDs(identifier, Pages.MAX_ROSTER_PAGES) && !SharedAddress(live, own, d)
  {
    if CollidesWithDerived(identifier) { return []; }
    var others := OtherPages(live, own);
    var mine := PageDs(identifier, Pages.MAX_ROSTER_PAGES);
    ds := [];
    for i := 0 to |mine|
      invariant forall d :: d in ds <==> d in mine[..i] && d !in others
    {
      if mine[i] !in others { ds := ds + [mine[i]]; }
    }
    assert mine[..|mine|] == mine;
  }

  /** The legacy page addresses of every other live space. */
  method OtherPages(live: seq<string>, own: string) returns (others: set<string>)
    ensures forall d :: d in others <==> SharedAddress(live, own, d)
  {
    others := {};
    for i := 0 to |live|
      invariant forall d :: d in others <==> SharedAddress(live[..i], own, d)
    {
      assert live[..i + 1] == live[..i] + [live[i]];
      OneMoreShared(live[..i], live[i], own);
      var pages := PagesOf(live[i], own);
      others := others + (set d | d in pages);
    }
    assert live[..|live|] == live;
  }

  /** One more live space adds exactly its own pages to the shared addresses. */
  lemma OneMoreShared(before: seq<string>, c: string, own: string)
    ensures forall d :: SharedAddress(before + [c], own, d) <==> SharedAddress(before, own, d) || d in PagesOf(c, own)
  {
    forall d
      ensures SharedAddress(before + [c], own, d) <==> SharedAddress(before, own, d) || d in PagesOf(c, own)
    {
      OneMoreAddress(before, c, own, d);
    }
  }

  lemma OneMoreAddress(before: seq<string>, c: string, own: string, d: string)
    ensures SharedAddress(before + [c], own, d) <==> SharedAddress(before, own, d) || d in PagesOf(c, own)
  {
    if SharedAddress(before + [c], own, d) {
      var id :| OtherSpace(before + [c], own, id) && d in PageDs(id, Pages.MAX_ROSTER_PAGES);
      OneMoreSpace(before, c, own, id);
    }
    if SharedAddress(before, own, d) {
      var id :| OtherSpace(before, own, id) && d in PageDs(id, Pages.MAX_ROSTER_PAGES);
      OneMoreSpace(before, c, own, id);
    }
    if d in PagesOf(c, own) { OneMoreSpace(before, c, own, ParseCoordinate(c).value.identifier); }
  }

  lemma OneMoreSpace(before: seq<string>, c: string, own: string, id: string)
    ensures OtherSpace(before + [c], own, id) <==>
              OtherSpace(before, own, id) || (c != own && ParseCoordinate(c).Ok? && ParseCoordinate(c).value.identifier == id)
  {
    assert c in before + [c];
    if OtherSpace(before, own, id) {
      var x :| x in before && x != own && ParseCoordinate(x).Ok? && ParseCoordinate(x).value.identifier == id;
      assert x in before + [c];
    }
  }

  // ---------------------------------------------------------------- addresses never meet

  lemma PageDShape(base: string, page: nat)
    ensures base <= PageD(base, page)
    ensures page == 0 ==> PageD(base, page) == base
    ensures page > 0 ==> |PageD(base, page)| > |base| && PageD(base, page)[|base|] == ':'
  {
  }

  /** A text opening with 64 characters other than ':' has no shorter base. */
  lemma BaseIsLong(d: string, base: string)
    requires |d| >= 64 && forall i :: 0 <= i < 64 ==> d[i] != ':'
    requires base <= d && (|base| < |d| ==> d[|base|] == ':')
    ensures |base| >= 64
  {
  }

  /** A page of a 64-hex base is a page of another base only if that base is shaped like
      a derived one. */
  lemma OnlyDerivedShapesMeet(hex: string, page: nat, base: string, page': nat)
    requires IsHex64(hex) && PageD(hex, page) == PageD(base, page')
    ensures CollidesWithDerived(base)
  {
    PageDShape(hex, page);
    PageDShape(base, page');
    var d := PageD(hex, page);
    assert forall i :: 0 <= i < 64 ==> d[i] == hex[i] && hex[i] in hex;
    BaseIsLong(d, base);
    assert d[..64] == hex && d[..|base|] == base;
    assert base[..64] == hex;
  }

  lemma LegacyNeverMeetsDerived(hex: string, page: nat, base: string, page': nat)
    requires IsHex64(hex) && !CollidesWithDerived(base)
    ensures PageD(hex, page) != PageD(base, page')
  {
    if PageD(hex, page) == PageD(base, page') { OnlyDerivedShapesMeet(hex, page, base, page'); }
  }

  lemma DerivedNeverMeet(a: string, i: nat, b: string, j: nat)
    requires IsHex64(a) && IsHex64(b) && a != b
    ensures PageD(a, i) != PageD(b, j)
  {
    if PageD(a, i) == PageD(b, j) { DerivedBasesMeetOnlyThemselves(a, i, b, j); }
  }

  /** Two 64-hex bases share a page address only if they are one. */
  lemma DerivedBasesMeetOnlyThemselves(a: string, i: nat, b: string, j: nat)
    requires IsHex64(a) && IsHex64(b) && PageD(a, i) == PageD(b, j)
    ensures a == b && i == j
  {
    PageDShape(a, i);
    PageDShape(b, j);
    var d := PageD(a, i);
    assert d[..64] == a && d[..64] == b;
    if i > 0 && j > 0 {
      CancelEqual(a + ":", b + ":", Decimal(i), Decimal(j));
      ValueOfDecimal(i);
      ValueOfDecimal(j);
    }
  }

  ghost predicate DerivedPage(base: string, d: string) {
    exists i: nat :: i < Pages.MAX_ROSTER_PAGES && d == PageD(base, i)
  }

  /** A page of the legacy alias, for an identifier the alias is used for. */
  ghost predicate LegacyPage(coordinate: string, d: string) {
    var parsed := ParseCoordinate(coordinate);
    parsed.Ok? && !CollidesWithDerived(parsed.value.identifier) && d in PageDs(parsed.value.identifier, Pages.MAX_ROSTER_PAGES)
  }

  /** Every roster page address a space may publish at: its derived pages, and its legacy
      ones while the alias is on. */
  ghost predicate PublishesAt(hash: Hash, coordinate: string, d: string) {
    DerivedPage(hash(coordinate), d) || LegacyPage(coordinate, d)
  }

  /** Every roster page address a retention sweep of `own` deletes. */
  ghost predicate Deletes(hash: Hash, live: seq<string>, own: string, d: string) {
    DerivedPage(hash(own), d) || (LegacyPage(own, d) && !SharedAddress(live, own, d))
  }

  lemma DerivedPagesApart(a: string, b: string, d: string)
    requires IsHex64(a) && IsHex64(b) && a != b && DerivedPage(a, d)
    ensures !DerivedPage(b, d)
  {
    var i: nat :| i < Pages.MAX_ROSTER_PAGES && d == PageD(a, i);
    forall j: nat
      ensures d != PageD(b, j)
    {
      DerivedNeverMeet(a, i, b, j);
    }
  }

  lemma LegacyPagesApart(hex: string, coordinate: string, d: string)
    requires IsHex64(hex) && DerivedPage(hex, d)
    ensures !LegacyPage(coordinate, d)
  {
    var i: nat :| i < Pages.MAX_ROSTER_PAGES && d == PageD(hex, i);
    var parsed := ParseCoordinate(coordinate);
    if parsed.Ok? && !CollidesWithDerived(parsed.value.identifier) {
      forall j: nat
        ensures d != PageD(parsed.value.identifier, j)
      {
        LegacyNeverMeetsDerived(hex, i, parsed.value.identifier, j);
      }
    }
  }

  lemma OtherPagesAreShared(live: seq<string>, own: string, other: string, d: string)
    requires other in live && other != own
    ensures LegacyPage(other, d) ==> SharedAddress(live, own, d)
  {
    assert ParseCoordinate(other).Ok? ==> OtherSpace(live, own, ParseCoordinate(other).value.identifier);
  }

  /** No address a space deletes is a page address of another live space: derived bases
      being distinct, and legacy aliases never reaching a derived one. */
  lemma NothingForeignIsDeleted(hash: Hash, live: seq<string>, own: string, other: string, d: string)
    requires IsHex64(hash(own)) && IsHex64(hash(other)) && hash(own) != hash(other)
    requires other in live && other != own
    requires Deletes(hash, live, own, d)
    ensures !PublishesAt(hash, other, d)
  {
    OtherPagesAreShared(live, own, other, d);
    if DerivedPage(hash(own), d) {
      DerivedPagesApart(hash(own), hash(other), d);
      LegacyPagesApart(hash(own), other, d);
    }
    if DerivedPage(hash(other), d) {
      LegacyPagesApart(hash(other), own, d);
    }
  }

  // ---------------------------------------------------------------- what the addresses are

  /** Page 0 lives at the base and page i at the base with its number, for as many pages as
      asked, at least one and at most 40. */
  lemma PagesLiveAt(base: string, pages: nat, d: string)
    ensures d in PageDs(base, pages) <==>
              d == base || exists i: nat :: 0 < i < pages && i < 40 && d == base + ":" + Decimal(i)
  {
    var n := Clamp(pages);
    if d in PageDs(base, pages) {
      var i: nat :| i < n && d == PageD(base, i);
      assert i > 0 ==> 0 < i < pages && i < 40 && d == base + ":" + Decimal(i);
    }
    if i: nat :| 0 < i < pages && i < 40 && d == base + ":" + Decimal(i) {
      assert i < n && d == PageD(base, i);
    }
    assert PageD(base, 0) == base && 0 < n;
  }

  /** An identifier is shaped like a derived base when it is 64 hex digits, with nothing or a
      colon and anything after them. */
  lemma CollidesIff(identifier: string)
    ensures CollidesWithDerived(identifier) <==>
              IsHex64(identifier) || exists hex, rest :: IsHex64(hex) && identifier == hex + ":" + rest
  {
    if |identifier| > 64 && CollidesWithDerived(identifier) {
      assert identifier == identifier[..64] + ":" + identifier[65..];
    }
    if |identifier| == 64 { assert identifier[..64] == identifier; }
    if hex, rest :| IsHex64(hex) && identifier == hex + ":" + rest {
      assert |hex| == 64 && identifier[64] == ':' && identifier[..64] == hex;
    }
  }
}
