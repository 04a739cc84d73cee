/** Publishing the roster page by page, sending only pages whose text changed since they
    were last recorded as sent, against relays that may drop a publish or lose its
    acknowledgement. */
module RosterPublisher {
  import opened Wrappers
  import opened Text
  import opened Packing
  import opened RosterText
  import opened RosterPages
  import opened RosterLaws
  import opened Sequences

  /** What becomes of one publish: it lands and is acknowledged, it does not land and
      throws, or it lands but throws because the acknowledgement was lost. */
  datatype Fate = Delivered | Dropped | Unacked

  /** The fates of a page's publish at its derived address and at the legacy alias. */
  datatype PageFate = PageFate(derived: Fate, legacy: Fate)

  type Pages = map<nat, string>

  /** The page texts recorded as sent, and what the relays hold at each page address. */
  datatype State = State(cache: seq<string>, derived: Pages, alias: Pages)

  datatype Outcome = Outcome(state: State, ok: bool)

  function Landed(held: Pages, i: nat, text: string, fate: Fate): Pages {
    if fate == Dropped then held else held[i := text]
  }

  predicate Skips(cache: seq<string>, wire: seq<string>, i: nat)
    requires i < |wire|
  {
    i < |cache| && cache[i] == wire[i]
  }

  function Put(published: seq<string>, i: nat, text: string): seq<string>
    requires i <= |published|
  {
    if i < |published| then published[i := text] else published + [text]
  }

  function Cut(texts: seq<string>, n: nat): seq<string> {
    if n < |texts| then texts[..n] else texts
  }

  /** The loop from page `i`; `published` is the working copy of the record. */
  function PublishFrom(s: State, published: seq<string>, wire: seq<string>, legacy: bool, fates: seq<PageFate>, i: nat): Outcome
    requires i <= |wire| == |fates| && i <= |published|
    decreases |wire| - i
  {
    if i == |wire| then Outcome(s.(cache := Cut(published, |wire|)), true)
    else if Skips(published, wire, i) then PublishFrom(s, published, wire, legacy, fates, i + 1)
    else
      var s1 := s.(derived := Landed(s.derived, i, wire[i], fates[i].derived));
      if fates[i].derived != Delivered then Outcome(s1, false)
      else
        var s2 := if legacy then s1.(alias := Landed(s1.alias, i, wire[i], fates[i].legacy)) else s1;
        if legacy && fates[i].legacy != Delivered then Outcome(s2, false)
        else
          var published1 := Put(published, i, wire[i]);
          PublishFrom(s2.(cache := Cut(published1, |wire|)), published1, wire, legacy, fates, i + 1)
  }

  function Publish(s: State, wire: seq<string>, legacy: bool, fates: seq<PageFate>): Outcome
    requires |wire| == |fates|
  {
    PublishFrom(s, s.cache, wire, legacy, fates, 0)
  }

  function Wire(pages: seq<Roster>): (wire: seq<string>)
    ensures |wire| == |pages| && forall i :: 0 <= i < |pages| ==> wire[i] == RosterJson(pages[i])
  {
    seq(|pages|, i requires 0 <= i < |pages| => RosterJson(pages[i]))
  }

  class Publisher {
    const legacy: bool
    var rosterPagesPublished: seq<string>
    var derived: Pages
    var alias: Pages

    constructor (legacy: bool, derived: Pages, alias: Pages)
      ensures this.legacy == legacy && Abs() == State([], derived, alias)
    {
      this.legacy, this.derived, this.alias := legacy, derived, alias;
      rosterPagesPublished := [];
    }

    function Abs(): State
      reads this
    {
      State(rosterPagesPublished, derived, alias)
    }

    method SendDerived(i: nat, text: string, fate: Fate) returns (ok: bool)
      modifies `derived
      ensures derived == Landed(old(derived), i, text, fate) && ok == (fate == Delivered)
    {
      if fate != Dropped { derived := derived[i := text]; }
      ok := fate == Delivered;
    }

    method SendLegacy(i: nat, text: string, fate: Fate) returns (ok: bool)
      modifies `alias
      ensures alias == Landed(old(alias), i, text, fate) && ok == (fate == Delivered)
    {
      if fate != Dropped { alias := alias[i := text]; }
      ok := fate == Delivered;
    }

    method PublishRoster(roster: Roster, fates: seq<PageFate>) returns (ok: bool)
      requires Split(roster).Ok? ==> |fates| == |Split(roster).value|
      modifies this
      ensures Split(roster).Err? ==> !ok && Abs() == old(Abs())
      ensures Split(roster).Ok? ==> Outcome(Abs(), ok) == Publish(old(Abs()), Wire(Split(roster).value), legacy, fates)
    {
      var split := SplitRoster(roster);
      if split.Err? { return false; }
      var wire := Wire(split.value);
      ok := PublishPages(wire, fates);
    }

    method PublishPages(wire: seq<string>, fates: seq<PageFate>) returns (ok: bool)
      requires |wire| == |fates|
      modifies this
      ensures Outcome(Abs(), ok) == Publish(old(Abs()), wire, legacy, fates)
    {
      var published := rosterPagesPublished;
      ghost var all := Publish(Abs(), wire, legacy, fates);
      var i := 0;
      while i < |wire|
        invariant 0 <= i <= |wire| && i <= |published|
        invariant all == PublishFrom(Abs(), published, wire, legacy, fates, i)
      {
        if i < |published| && published[i] == wire[i] {
          i := i + 1;
          continue;
        }
        ok := SendDerived(i, wire[i], fates[i].derived);
        if !ok { return; }
        if legacy {
          ok := SendLegacy(i, wire[i], fates[i].legacy);
          if !ok { return; }
        }
        published := if i < |published| then published[i := wire[i]] else published + [wire[i]];
        rosterPagesPublished := if |wire| < |published| then published[..|wire|] else published;
        i := i + 1;
      }
      rosterPagesPublished := if |wire| < |published| then published[..|wire|] else published;
      ok := true;
    }
  }

  // ---------------------------------------------------------------- what a publish leaves behind

  ghost predicate Holds(held: Pages, i: nat, text: string) {
    i in held && held[i] == text
  }

  /** The record never claims a page the relays do not hold. */
  ghost predicate CacheAgrees(s: State) {
    forall i :: 0 <= i < |s.cache| ==> Holds(s.derived, i, s.cache[i])
  }

  lemma PrefixGrows(published: seq<string>, wire: seq<string>, i: nat)
    requires i < |wire| && i <= |published| && published[..i] == wire[..i]
    ensures var more := Put(published, i, wire[i]);
            && i + 1 <= |more| && more[..i + 1] == wire[..i + 1]
            && forall j :: i < j < |wire| ==> (Skips(more, wire, j) <==> Skips(published, wire, j))
    ensures Skips(published, wire, i) ==> published[..i + 1] == wire[..i + 1]
  {
    var more := Put(published, i, wire[i]);
    assert more[..i + 1] == published[..i] + [wire[i]];
    assert wire[..i + 1] == wire[..i] + [wire[i]];
    assert Skips(published, wire, i) ==> more == published;
  }

  /** A publish that succeeds recorded every page, sent those it did not skip, and left
      every other address alone. */
  lemma {:induction false} SuccessFrom(s: State, published: seq<string>, wire: seq<string>, legacy: bool, fates: seq<PageFate>, i: nat)
    requires i <= |wire| == |fates| && i <= |published| && published[..i] == wire[..i]
    requires PublishFrom(s, published, wire, legacy, fates, i).ok
    ensures var t := PublishFrom(s, published, wire, legacy, fates, i).state;
            && t.cache == wire
            && (forall j :: i <= j < |wire| && !Skips(published, wire, j) ==> Holds(t.derived, j, wire[j]))
            && (forall j: nat :: j < i || j >= |wire| || Skips(published, wire, j) ==>
                  (j in t.derived <==> j in s.derived) && (j in s.derived ==> t.derived[j] == s.derived[j]))
    decreases |wire| - i
  {
    if i == |wire| {
      assert wire[..i] == wire;
    } else {
      PrefixGrows(published, wire, i);
      if Skips(published, wire, i) {
        SuccessFrom(s, published, wire, legacy, fates, i + 1);
      } else {
        var s1 := s.(derived := s.derived[i := wire[i]]);
        var s2 := if legacy then s1.(alias := s1.alias[i := wire[i]]) else s1;
        var published1 := Put(published, i, wire[i]);
        SuccessFrom(s2.(cache := Cut(published1, |wire|)), published1, wire, legacy, fates, i + 1);
      }
    }
  }

  /** After a publish that succeeds, the relays hold exactly the pages of this roster if
      and only if they already held those it skipped. */
  lemma SuccessIff(s: State, wire: seq<string>, legacy: bool, fates: seq<PageFate>)
    requires |wire| == |fates| && Publish(s, wire, legacy, fates).ok
    ensures var t := Publish(s, wire, legacy, fates).state;
            && t.cache == wire
            && (CacheAgrees(t) <==> forall i :: 0 <= i < |wire| && Skips(s.cache, wire, i) ==> Holds(s.derived, i, wire[i]))
  {
    SuccessFrom(s, s.cache, wire, legacy, fates, 0);
    var t := Publish(s, wire, legacy, fates).state;
    forall i | 0 <= i < |wire|
      ensures Skips(s.cache, wire, i) ==> (Holds(t.derived, i, wire[i]) <==> Holds(s.derived, i, wire[i]))
      ensures !Skips(s.cache, wire, i) ==> Holds(t.derived, i, wire[i])
    {
    }
  }

  /** Does the publish stop at page `i`? It is sent, and a send of it does not come back. */
  predicate Stops(cache: seq<string>, wire: seq<string>, legacy: bool, fates: seq<PageFate>, i: nat)
    requires i < |wire| == |fates|
  {
    !Skips(cache, wire, i) && (fates[i].derived != Delivered || (legacy && fates[i].legacy != Delivered))
  }

  /** The first page from `i` a publish stops at, or the number of pages when it stops at none. */
  function StopsAt(cache: seq<string>, wire: seq<string>, legacy: bool, fates: seq<PageFate>, i: nat): (k: nat)
    requires i <= |wire| == |fates|
    ensures i <= k <= |wire|
    ensures forall j :: i <= j < k ==> !Stops(cache, wire, legacy, fates, j)
    ensures k < |wire| ==> Stops(cache, wire, legacy, fates, k)
    decreases |wire| - i
  {
    if i == |wire| || Stops(cache, wire, legacy, fates, i) then i else StopsAt(cache, wire, legacy, fates, i + 1)
  }

  /** The record agrees after a stop at page `k`: there is none, or that page did not land,
      or the record has no such page. */
  predicate StopsCleanly(cache: seq<string>, wire: seq<string>, fates: seq<PageFate>, k: nat)
    requires k <= |wire| == |fates|
  {
    k == |wire| || fates[k].derived == Dropped || |cache| <= k
  }

  lemma StopIsTheFirst(cache: seq<string>, more: seq<string>, wire: seq<string>, legacy: bool, fates: seq<PageFate>, i: nat)
    requires i < |wire| == |fates| && !Stops(cache, wire, legacy, fates, i)
    requires forall j :: i < j < |wire| ==> (Skips(more, wire, j) <==> Skips(cache, wire, j))
    ensures StopsAt(more, wire, legacy, fates, i + 1) == StopsAt(cache, wire, legacy, fates, i)
  {
    forall j | i < j < |wire|
      ensures Stops(more, wire, legacy, fates, j) <==> Stops(cache, wire, legacy, fates, j)
    {
    }
  }

  lemma AgreementAtStop(s: State, published: seq<string>, wire: seq<string>, legacy: bool, fates: seq<PageFate>, i: nat)
    requires i < |wire| == |fates| && i <= |published| && Stops(published, wire, legacy, fates, i)
    requires CacheAgrees(s) && (s.cache == published || s.cache == Cut(published, |wire|))
    ensures var o := PublishFrom(s, published, wire, legacy, fates, i);
            !o.ok && (CacheAgrees(o.state) <==> StopsCleanly(published, wire, fates, i))
  {
    StopBreaksAgreementIff(s, published, wire, i, fates[i].derived, PublishFrom(s, published, wire, legacy, fates, i).state);
  }

  /** From a record in agreement a publish succeeds exactly when it stops at no page, and
      leaves the record in agreement exactly when it stops cleanly. */
  lemma {:induction false} AgreementFrom(s: State, published: seq<string>, wire: seq<string>, legacy: bool, fates: seq<PageFate>, i: nat)
    requires i <= |wire| == |fates| && i <= |published| && published[..i] == wire[..i]
    requires CacheAgrees(s) && (s.cache == published || s.cache == Cut(published, |wire|))
    ensures var k := StopsAt(published, wire, legacy, fates, i);
            var o := PublishFrom(s, published, wire, legacy, fates, i);
            && (o.ok <==> k == |wire|)
            && (CacheAgrees(o.state) <==> StopsCleanly(published, wire, fates, k))
    decreases |wire| - i
  {
    if i < |wire| {
      PrefixGrows(published, wire, i);
      if Skips(published, wire, i) {
        AgreementFrom(s, published, wire, legacy, fates, i + 1);
      } else {
        var s1 := s.(derived := Landed(s.derived, i, wire[i], fates[i].derived));
        var s2 := if legacy then s1.(alias := Landed(s1.alias, i, wire[i], fates[i].legacy)) else s1;
        if Stops(published, wire, legacy, fates, i) {
          AgreementAtStop(s, published, wire, legacy, fates, i);
        } else {
          var published1 := Put(published, i, wire[i]);
          var s3 := s2.(cache := Cut(published1, |wire|));
          RecordKeepsAgreement(s, published, wire, i, s3);
          AgreementFrom(s3, published1, wire, legacy, fates, i + 1);
          StopIsTheFirst(published, published1, wire, legacy, fates, i);
        }
      }
    } else {
      CutAgrees(s, published, |wire|);
    }
  }

  lemma CutAgrees(s: State, published: seq<string>, n: nat)
    requires CacheAgrees(s) && (s.cache == published || s.cache == Cut(published, n))
    ensures CacheAgrees(s.(cache := Cut(published, n)))
  {
    forall j | 0 <= j < |Cut(published, n)|
      ensures Holds(s.derived, j, Cut(published, n)[j])
    {
      assert Holds(s.derived, j, s.cache[j]);
    }
  }

  lemma RecordKeepsAgreement(s: State, published: seq<string>, wire: seq<string>, i: nat, t: State)
    requires i < |wire| && i <= |published|
    requires CacheAgrees(s) && (s.cache == published || s.cache == Cut(published, |wire|))
    requires t.derived == s.derived[i := wire[i]] && t.cache == Cut(Put(published, i, wire[i]), |wire|)
    ensures CacheAgrees(t)
  {
    forall j | 0 <= j < |t.cache|
      ensures Holds(t.derived, j, t.cache[j])
    {
      if j != i {
        assert j < |s.cache| && s.cache[j] == published[j] == t.cache[j];
        assert Holds(s.derived, j, s.cache[j]);
      }
    }
  }

  lemma StopBreaksAgreementIff(s: State, published: seq<string>, wire: seq<string>, i: nat, fate: Fate, t: State)
    requires i < |wire| && i <= |published| && !Skips(published, wire, i)
    requires CacheAgrees(s) && (s.cache == published || s.cache == Cut(published, |wire|))
    requires t.cache == s.cache && t.derived == Landed(s.derived, i, wire[i], fate)
    ensures CacheAgrees(t) <==> (fate == Dropped || |published| <= i)
  {
    if i < |published| {
      assert i < |s.cache| && s.cache[i] == published[i] != wire[i];
      assert fate != Dropped ==> !Holds(t.derived, i, t.cache[i]);
    }
    forall j | 0 <= j < |t.cache| && j != i
      ensures Holds(t.derived, j, t.cache[j])
    {
      assert Holds(s.derived, j, s.cache[j]);
    }
    if fate == Dropped && i < |t.cache| { assert Holds(s.derived, i, s.cache[i]); }
  }

  /** Which publishes succeed, and which keep the record in agreement, read off the record,
      the texts and what becomes of the sends: the first page sent that does not come back
      must not have landed, or must be one the record does not have. */
  lemma AgreementKeptIff(s: State, wire: seq<string>, legacy: bool, fates: seq<PageFate>)
    requires |wire| == |fates| && CacheAgrees(s)
    ensures var k := StopsAt(s.cache, wire, legacy, fates, 0);
            var o := Publish(s, wire, legacy, fates);
            && (o.ok <==> k == |wire|)
            && (CacheAgrees(o.state) <==> StopsCleanly(s.cache, wire, fates, k))
  {
    AgreementFrom(s, s.cache, wire, legacy, fates, 0);
  }

  // ---------------------------------------------------------------- reading back

  /** The payload a text decrypts and parses to. */
  ghost function Parse(text: string): Option<Roster> {
    if r: Roster :| RosterJson(r) == text then Some(r) else None
  }

  lemma ParsePrinted(r: Roster)
    ensures Parse(RosterJson(r)) == Some(r)
  {
    var q := Parse(RosterJson(r)).value;
    RosterJsonIsInjective(q, r);
  }

  /** How many pages page 0 says there are, clamped as the addresses are. */
  function PageCountOf(page0: Roster): nat {
    if page0.pages.None? || page0.pages.value < 1 then 1
    else if page0.pages.value > MAX_ROSTER_PAGES then MAX_ROSTER_PAGES
    else page0.pages.value
  }

  ghost function ReadPages<T>(parse: string -> Option<T>, held: Pages, n: nat): Option<seq<T>> {
    if n == 0 then Some([])
    else
      var before := ReadPages(parse, held, n - 1);
      if before.None? || n - 1 !in held || parse(held[n - 1]).None? then None
      else Some(before.value + [parse(held[n - 1]).value])
  }

  /** Read page 0, then the pages it names, and merge them. */
  ghost function Read(held: Pages): Option<Roster> {
    if 0 !in held || Parse(held[0]).None? then None
    else
      var pages := ReadPages(Parse, held, PageCountOf(Parse(held[0]).value));
      if pages.None? || pages.value == [] then None else Some(Merge(pages.value))
  }

  lemma {:induction false} ReadsWhatIsHeld<T>(parse: string -> Option<T>, held: Pages, wire: seq<string>, pages: seq<T>, n: nat)
    requires n <= |pages| == |wire|
    requires forall i :: 0 <= i < n ==> Holds(held, i, wire[i]) && parse(wire[i]) == Some(pages[i])
    ensures ReadPages(parse, held, n) == Some(pages[..n])
  {
    if n > 0 {
      ReadsWhatIsHeld(parse, held, wire, pages, n - 1);
      assert Holds(held, n - 1, wire[n - 1]);
      assert pages[..n] == pages[..n - 1] + [pages[n - 1]];
    }
  }

  lemma SplitNamesItsCount(r: Roster)
    requires Split(r).Ok? && Logical(r)
    ensures Split(r).value != [] && PageCountOf(Split(r).value[0]) == |Split(r).value|
  {
  }

  /** End to end: a publish that succeeds from a record in agreement leaves relays from
      which reading page 0, and the pages it names, gives back exactly the roster, though
      only changed pages were sent. */
  lemma PublishedReadsBack(s: State, r: Roster, legacy: bool, fates: seq<PageFate>)
    requires Split(r).Ok? && Logical(r) && DistinctPubkeys(r.attendees)
    requires |fates| == |Split(r).value| && CacheAgrees(s)
    requires Publish(s, Wire(Split(r).value), legacy, fates).ok
    ensures Read(Publish(s, Wire(Split(r).value), legacy, fates).state.derived) == Some(r)
    ensures CacheAgrees(Publish(s, Wire(Split(r).value), legacy, fates).state)
  {
    hide Publish, Split, RosterJson, Merge, Parse, StopsAt, Skips;
    var pages := Split(r).value;
    var t := Publish(s, Wire(pages), legacy, fates).state;
    AgreementKeptIff(s, Wire(pages), legacy, fates);
    SuccessIff(s, Wire(pages), legacy, fates);
    SplitNamesItsCount(r);
    var wire := Wire(pages);
    forall i | 0 <= i < |pages|
      ensures Holds(t.derived, i, wire[i]) && Parse(wire[i]) == Some(pages[i])
    {
      assert Holds(t.derived, i, t.cache[i]);
      ParsePrinted(pages[i]);
    }
    assert Holds(t.derived, 0, wire[0]);
    ReadsWhatIsHeld(Parse, t.derived, wire, pages, |pages|);
    assert pages[..|pages|] == pages;
    MergeInvertsSplit(r);
  }

  // ---------------------------------------------------------------- runs of publishes

  /** One publish of some pages, and what became of its sends. */
  datatype Call = Call(wire: seq<string>, fates: seq<PageFate>)

  ghost predicate Matched(c: Call) {
    |c.wire| == |c.fates|
  }

  function Do(s: State, c: Call, legacy: bool): Outcome
    requires Matched(c)
  {
    Publish(s, c.wire, legacy, c.fates)
  }

  function After(s: State, calls: seq<Call>, legacy: bool): State
    requires forall c <- calls :: Matched(c)
  {
    if calls == [] then s else Do(After(s, calls[..|calls| - 1], legacy), calls[|calls| - 1], legacy).state
  }

  /** The call stops at no page, or at one that did not land or was not recorded. */
  ghost predicate CleanStop(s: State, c: Call, legacy: bool)
    requires Matched(c)
  {
    StopsCleanly(s.cache, c.wire, c.fates, StopsAt(s.cache, c.wire, legacy, c.fates, 0))
  }

  ghost predicate CleanStops(s: State, calls: seq<Call>, legacy: bool)
    requires forall c <- calls :: Matched(c)
    decreases |calls|
  {
    calls != [] ==>
      var init := calls[..|calls| - 1];
      CleanStops(s, init, legacy) && CleanStop(After(s, init, legacy), calls[|calls| - 1], legacy)
  }

  /** Over any run of publishes, of any pages in any number, shrinking and regrowing and
      failing half way, every roster published with success can be read back whole. */
  lemma EverySuccessReadsBack(s: State, calls: seq<Call>, legacy: bool, r: Roster, fates: seq<PageFate>)
    requires forall c <- calls :: Matched(c)
    requires CacheAgrees(s) && CleanStops(s, calls, legacy)
    requires Split(r).Ok? && Logical(r) && DistinctPubkeys(r.attendees) && |fates| == |Split(r).value|
    ensures CacheAgrees(After(s, calls, legacy))
    ensures var o := Publish(After(s, calls, legacy), Wire(Split(r).value), legacy, fates);
            o.ok ==> Read(o.state.derived) == Some(r)
  {
    AgreementOverRuns(s, calls, legacy);
    var t := After(s, calls, legacy);
    if Publish(t, Wire(Split(r).value), legacy, fates).ok {
      PublishedReadsBack(t, r, legacy, fates);
    }
  }

  lemma {:induction false} AgreementOverRuns(s: State, calls: seq<Call>, legacy: bool)
    requires forall c <- calls :: Matched(c)
    requires CacheAgrees(s) && CleanStops(s, calls, legacy)
    ensures CacheAgrees(After(s, calls, legacy))
    decreases |calls|
  {
    if calls != [] {
      var init, c := calls[..|calls| - 1], calls[|calls| - 1];
      AgreementOverRuns(s, init, legacy);
      assert c in calls;
      AgreementKeptIff(After(s, init, legacy), c.wire, legacy, c.fates);
    }
  }

  /** Reading relays that hold a one-payload roster. */
  lemma OnePageReads(held: Pages, q: Roster)
    requires FitsOnePage(q) && Logical(q) && DistinctPubkeys(q.attendees) && Holds(held, 0, RosterJson(q))
    ensures Read(held) == Some(q)
  {
    assert Split(q).value == [q];
    SplitNamesItsCount(q);
    ParsePrinted(q);
    ReadsWhatIsHeld(Parse, held, [RosterJson(q)], [q], 1);
    assert [q][..1] == [q];
    MergeInvertsSplit(q);
  }

  /** One recorded text `a`: `b` lands unrecorded, then `a` is skipped. */
  lemma SkippedOver(a: string, b: string, s: State)
    requires a != b && s.cache == [a]
    ensures var failed := Publish(s, [b], true, [PageFate(Delivered, Dropped)]);
            var again := Publish(failed.state, [a], true, [PageFate(Delivered, Delivered)]);
            !failed.ok && again.ok && Holds(again.state.derived, 0, b)
  {
    var failed := Publish(s, [b], true, [PageFate(Delivered, Dropped)]);
    assert failed.state.cache == [a] && failed.state.derived[0] == b;
    assert PublishFrom(failed.state, [a], [a], true, [PageFate(Delivered, Delivered)], 1).ok;
  }

  lemma OnePageWire(r: Roster)
    requires FitsOnePage(r)
    ensures Wire(Split(r).value) == [RosterJson(r)]
  {
  }

  /** Why the condition is needed. With the roster `r` published and recorded, the changed
      roster `q` lands but its legacy copy fails; going back to `r` then succeeds without
      sending anything, and readers keep `q`. */
  lemma HalfRecordedGoesStale(r: Roster, q: Roster, s: State)
    requires FitsOnePage(r) && FitsOnePage(q) && Logical(q) && DistinctPubkeys(q.attendees) && r != q
    requires s.cache == Wire(Split(r).value) && CacheAgrees(s)
    ensures |Wire(Split(q).value)| == |Wire(Split(r).value)| == 1
    ensures var failed := Publish(s, Wire(Split(q).value), true, [PageFate(Delivered, Dropped)]);
            var again := Publish(failed.state, Wire(Split(r).value), true, [PageFate(Delivered, Delivered)]);
            !failed.ok && again.ok && Read(again.state.derived) == Some(q)
  {
    OnePageWire(r);
    OnePageWire(q);
    if RosterJson(r) == RosterJson(q) { RosterJsonIsInjective(r, q); }
    SkippedOver(RosterJson(r), RosterJson(q), s);
    var failed := Publish(s, [RosterJson(q)], true, [PageFate(Delivered, Dropped)]);
    OnePageReads(Publish(failed.state, [RosterJson(r)], true, [PageFate(Delivered, Delivered)]).state.derived, q);
  }

  // ---------------------------------------------------------------- the cost of an approval

  ghost function Changed(cache: seq<string>, wire: seq<string>): set<nat> {
    set i: nat | i < |wire| && !Skips(cache, wire, i)
  }

  lemma SamePagesSkip(before: seq<Roster>, after: seq<Roster>, bound: set<nat>)
    requires forall i: nat :: i < |after| && i !in bound ==> i < |before| && before[i] == after[i]
    ensures Changed(Wire(before), Wire(after)) <= bound
  {
    forall i: nat | i < |after| && i !in bound
      ensures Skips(Wire(before), Wire(after), i)
    {
      assert before[i] == after[i];
    }
  }

  /** Appending one member to a paginated, fully published roster sends at most two page
      addresses: the last page, or page 0 and one new page. */
  lemma AppendSendsTwo(r: Roster, a: Attendee, more: Roster, before: seq<Roster>, after: seq<Roster>)
    requires more == r.(attendees := r.attendees + [a]) && !FitsOnePage(r) && !FitsOnePage(more)
    requires Split(r) == Ok(before) && Split(more) == Ok(after)
    ensures var sent := Changed(Wire(before), Wire(after));
            && after != [] && |sent| <= 2
            && (sent <= {|after| - 1} || (|after| == |before| + 1 && sent <= {0, |after| - 1}))
  {
    SplitBuilds(r);
    SplitBuilds(more);
    AppendTouchesTwo(r, a);
    AppendBound(before, after);
  }

  lemma SplitBuilds(r: Roster)
    requires !FitsOnePage(r) && Split(r).Ok?
    ensures Split(r).value == BuildPages(r, Groups(r)) && Split(r).value != []
  {
  }

  lemma AppendBound(before: seq<Roster>, after: seq<Roster>)
    requires before != [] && after != []
    requires || (|after| == |before| && forall i :: 0 <= i < |before| - 1 ==> after[i] == before[i])
             || (|after| == |before| + 1 && forall i :: 1 <= i < |before| ==> after[i] == before[i])
    ensures var sent := Changed(Wire(before), Wire(after));
            && |sent| <= 2
            && (sent <= {|after| - 1} || (|after| == |before| + 1 && sent <= {0, |after| - 1}))
  {
    var last: nat := |after| - 1;
    var bound: set<nat> := if |after| == |before| then {last} else {0, last};
    SamePagesSkip(before, after, bound);
    SubsetSize(Changed(Wire(before), Wire(after)), bound);
    assert |bound| <= 2;
  }

  // ---------------------------------------------------------------- what every publish leaves

  ghost predicate SameAt(a: Pages, b: Pages, i: nat) {
    (i in a <==> i in b) && (i in a ==> a[i] == b[i])
  }

  /** One turn of the loop: a page skipped, sent, or stopped at. */
  lemma OneTurn(s: State, published: seq<string>, wire: seq<string>, legacy: bool, fates: seq<PageFate>, i: nat)
    requires i <= |wire| == |fates| && i <= |published|
    ensures var t := PublishFrom(s, published, wire, legacy, fates, i).state;
            if i == |wire| then t.derived == s.derived && t.alias == s.alias
            else if Skips(published, wire, i) then t == PublishFrom(s, published, wire, legacy, fates, i + 1).state
            else if !Stops(published, wire, legacy, fates, i)
            then t == PublishFrom(OnePageSent(s, published, wire, legacy, i), Put(published, i, wire[i]), wire, legacy, fates, i + 1).state
            else
              && t.derived == Landed(s.derived, i, wire[i], fates[i].derived)
              && t.alias == if legacy && fates[i].derived == Delivered then Landed(s.alias, i, wire[i], fates[i].legacy) else s.alias
    ensures StopsAt(published, wire, legacy, fates, i) ==
              if i == |wire| || Stops(published, wire, legacy, fates, i) then i else StopsAt(published, wire, legacy, fates, i + 1)
  {
  }

  /** What the derived addresses hold after the loop from page `i`. */
  lemma {:induction false} LeavesFrom(s: State, published: seq<string>, wire: seq<string>, legacy: bool, fates: seq<PageFate>, i: nat, j: nat)
    requires i <= |wire| == |fates| && i <= |published| && published[..i] == wire[..i]
    ensures var k := StopsAt(published, wire, legacy, fates, i);
            var t := PublishFrom(s, published, wire, legacy, fates, i).state;
            if (i <= j < k && !Skips(published, wire, j)) || (j == k < |wire| && fates[k].derived != Dropped)
            then Holds(t.derived, j, wire[j])
            else SameAt(t.derived, s.derived, j)
    decreases |wire| - i
  {
    hide PublishFrom, Put, Cut, StopsAt;
    OneTurn(s, published, wire, legacy, fates, i);
    if i < |wire| {
      PrefixGrows(published, wire, i);
      if Skips(published, wire, i) {
        LeavesFrom(s, published, wire, legacy, fates, i + 1, j);
      } else if !Stops(published, wire, legacy, fates, i) {
        var published1 := Put(published, i, wire[i]);
        StopIsTheFirst(published, published1, wire, legacy, fates, i);
        LeavesFrom(OnePageSent(s, published, wire, legacy, i), published1, wire, legacy, fates, i + 1, j);
      }
    }
  }

  /** The state after page `i` was sent and acknowledged. */
  function OnePageSent(s: State, published: seq<string>, wire: seq<string>, legacy: bool, i: nat): State
    requires i < |wire| && i <= |published|
  {
    State(Cut(Put(published, i, wire[i]), |wire|), s.derived[i := wire[i]], if legacy then s.alias[i := wire[i]] else s.alias)
  }

  /** What the legacy addresses hold after it. */
  lemma {:induction false} LeavesAliasFrom(s: State, published: seq<string>, wire: seq<string>, legacy: bool, fates: seq<PageFate>, i: nat, j: nat)
    requires i <= |wire| == |fates| && i <= |published| && published[..i] == wire[..i]
    ensures var k := StopsAt(published, wire, legacy, fates, i);
            var t := PublishFrom(s, published, wire, legacy, fates, i).state;
            if legacy && ((i <= j < k && !Skips(published, wire, j))
                          || (j == k < |wire| && fates[k].derived == Delivered && fates[k].legacy != Dropped))
            then Holds(t.alias, j, wire[j])
            else SameAt(t.alias, s.alias, j)
    decreases |wire| - i
  {
    hide PublishFrom, Put, Cut, StopsAt;
    OneTurn(s, published, wire, legacy, fates, i);
    if i < |wire| {
      PrefixGrows(published, wire, i);
      if Skips(published, wire, i) {
        LeavesAliasFrom(s, published, wire, legacy, fates, i + 1, j);
      } else if !Stops(published, wire, legacy, fates, i) {
        var published1 := Put(published, i, wire[i]);
        StopIsTheFirst(published, published1, wire, legacy, fates, i);
        LeavesAliasFrom(OnePageSent(s, published, wire, legacy, i), published1, wire, legacy, fates, i + 1, j);
      }
    }
  }

  /** The pages before the one a publish stops at are sent if their text changed, at both
      addresses while the alias is on; of the one it stops at only what landed is there; and
      nothing else is touched, the alias not at all once it is off. */
  lemma PublishLeaves(s: State, wire: seq<string>, legacy: bool, fates: seq<PageFate>, j: nat)
    requires |wire| == |fates|
    ensures var k := StopsAt(s.cache, wire, legacy, fates, 0);
            var t := Publish(s, wire, legacy, fates).state;
            var changed := j < k && !(j < |s.cache| && s.cache[j] == wire[j]);
            && (if changed || (j == k < |wire| && fates[k].derived != Dropped) then Holds(t.derived, j, wire[j])
                else SameAt(t.derived, s.derived, j))
            && (if legacy && (changed || (j == k < |wire| && fates[k].derived == Delivered && fates[k].legacy != Dropped))
                then Holds(t.alias, j, wire[j])
                else SameAt(t.alias, s.alias, j))
  {
    LeavesFrom(s, s.cache, wire, legacy, fates, 0, j);
    LeavesAliasFrom(s, s.cache, wire, legacy, fates, 0, j);
  }
}
