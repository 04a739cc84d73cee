/** What pagination promises: pages fit, there are as few as can be, an append touches at
    most two of them, the capacity gate is exactly what a split needs, and merging gives
    the roster back. */
module RosterLaws {
  import opened Wrappers
  import opened Text
  import opened Packing
  import opened Sequences
  import Json
  import opened RosterText
  import opened RosterPages

  // ---------------------------------------------------------------- pages within the ceiling

  /** The entry fits a page of its own, even page 0 with the widest page count. */
  ghost predicate EntryFits(r: Roster, a: Attendee) {
    Overhead(r, 0) + EntryBytes(a) <= ROSTER_PAGE_TARGET_BYTES
  }

  ghost predicate EntriesFit(r: Roster) {
    Overhead(r, 0) <= ROSTER_PAGE_TARGET_BYTES && forall a <- r.attendees :: EntryFits(r, a)
  }

  /** A header within the schema's bounds. */
  ghost predicate ValidHeader(r: Roster) {
    PrintsPlain(r.eckCurrent) && (r.groupId.Some? ==> IsHex64(r.groupId.value))
  }

  lemma OverheadShrinks(r: Roster)
    ensures Overhead(r, 1) <= Overhead(r, 0)
  {
    PayloadSize(BuildPage(r, 1, MAX_ROSTER_PAGES, []));
    PayloadSize(BuildPage(r, 0, MAX_ROSTER_PAGES, []));
  }

  lemma GroupsWithinBudget(r: Roster)
    requires EntriesFit(r)
    ensures WithinBudget(PageBudget(r), EntryBytes, Groups(r))
  {
    OverheadShrinks(r);
    forall a <- r.attendees
      ensures FitsAlone(PageBudget(r), EntryBytes, a)
    {
      assert EntryFits(r, a);
    }
    PackWithinBudget(PageBudget(r), EntryBytes, r.attendees);
  }

  /** An empty payload is its envelope. */
  lemma EmptySize(p: Roster)
    requires p.attendees == []
    ensures PayloadBytes(p) == EnvelopeBytes(p.v, p.eckCurrent, p.groupId, p.pages)
  {
    PayloadSize(p);
    EntriesAreTheLoad([]);
  }

  lemma WiderCount(v: int, eckCurrent: int, groupId: Option<string>, pages: nat)
    requires pages <= MAX_ROSTER_PAGES
    ensures EnvelopeBytes(v, eckCurrent, groupId, Some(pages)) <= EnvelopeBytes(v, eckCurrent, groupId, Some(MAX_ROSTER_PAGES))
  {
    PageCountWidth(pages);
  }

  lemma EnvelopeWithin(r: Roster, index: nat, pages: nat)
    requires pages <= MAX_ROSTER_PAGES
    ensures PayloadBytes(BuildPage(r, index, pages, [])) <= Envelope(PageBudget(r), index)
  {
    OverheadIsEnvelope(r, index);
    hide PayloadBytes, EnvelopeBytes;
    var p, q := BuildPage(r, index, pages, []), BuildPage(r, index, MAX_ROSTER_PAGES, []);
    EmptySize(p);
    EmptySize(q);
    WiderCount(p.v, p.eckCurrent, p.groupId, pages);
  }

  lemma EntriesOnTop(p: Roster)
    ensures PayloadBytes(p) <= PayloadBytes(p.(attendees := [])) + Entries(p.attendees)
  {
    PayloadSize(p);
    PayloadSize(p.(attendees := []));
  }

  /** A real page never exceeds what its group was budgeted at: the comma counted on the
      first entry and the widest page count only overestimate. */
  lemma PageWithinLoad(r: Roster, index: nat, pages: nat, group: Group)
    requires pages <= MAX_ROSTER_PAGES
    ensures PayloadBytes(BuildPage(r, index, pages, group)) <= Load(PageBudget(r), EntryBytes, index, group)
  {
    EnvelopeWithin(r, index, pages);
    EntriesOnTop(BuildPage(r, index, pages, group));
  }

  /** Every page of a roster whose entries fit alone is within the packing target. */
  lemma PagesFit(r: Roster)
    requires EntriesFit(r) && |Groups(r)| <= MAX_ROSTER_PAGES
    ensures forall page <- BuildPages(r, Groups(r)) :: PayloadBytes(page) <= ROSTER_PAGE_TARGET_BYTES
  {
    var groups := Groups(r);
    GroupsWithinBudget(r);
    forall i | 0 <= i < |groups|
      ensures PayloadBytes(BuildPage(r, i, |groups|, groups[i])) <= ROSTER_PAGE_TARGET_BYTES
    {
      PageWithinLoad(r, i, |groups|, groups[i]);
    }
  }

  /** Everything the schemas accept fits alone. */
  lemma SchemaEntriesFit(r: Roster)
    requires ValidHeader(r) && forall a <- r.attendees :: ValidAttendee(a)
    ensures EntriesFit(r)
  {
    HeaderSize(r);
    forall a <- r.attendees
      ensures EntryFits(r, a)
    {
      EntryAtMost(a);
    }
  }

  lemma HeaderSize(r: Roster)
    requires ValidHeader(r)
    ensures Overhead(r, 0) <= 2_000
  {
    hide Utf8Length;
    PayloadSize(BuildPage(r, 0, MAX_ROSTER_PAGES, []));
    NumeralAtMost(r.eckCurrent);
    NumeralSize(ROSTER_PAGED_VERSION);
    Utf8AtMost("{\"v\":");
    Utf8AtMost(",\"eck_current\":");
    Utf8AtMost(",\"attendees\":");
    assert |Decimal(3)| == 1;
    PagesFieldSize();
    GroupFieldSize(r);
  }

  lemma PagesFieldSize()
    ensures Utf8Length(Field(",\"pages\":", Numbered(Some(MAX_ROSTER_PAGES)))) <= 100
  {
    Utf8Additive(",\"pages\":", Numeral(40));
    Utf8AtMost(",\"pages\":");
    assert |Decimal(40)| == 2;
    Utf8AtMost(Numeral(40));
  }

  lemma GroupFieldSize(r: Roster)
    requires ValidHeader(r)
    ensures Utf8Length(Field(",\"nostr_group_id\":", Quoted(Truthy(r.groupId)))) <= 1_000
  {
    if r.groupId.Some? { QuotedHexSize(",\"nostr_group_id\":", r.groupId.value); }
  }

  lemma QuotedHexSize(key: string, id: string)
    requires IsHex64(id) && |key| <= 100
    ensures Utf8Length(key + Json.Quote(id)) <= 1_000
  {
    Utf8Additive(key, Json.Quote(id));
    Utf8AtMost(key);
    HexUnits(id);
    Json.QuoteSize(id);
  }

  // ---------------------------------------------------------------- as few pages as can be

  /** The packing uses the fewest pages of any in-order split under the same budget. */
  lemma FewestPages(r: Roster, groups: seq<Group>)
    requires groups != [] && InOrderSplit(PageBudget(r), EntryBytes, r.attendees, groups)
    ensures |Groups(r)| <= |groups|
    ensures Flatten(Groups(r)) == r.attendees
  {
    GreedyStaysAhead(PageBudget(r), EntryBytes, r.attendees, groups);
    PackKeepsOrder(PageBudget(r), EntryBytes, r.attendees);
  }

  // ---------------------------------------------------------------- the capacity gate

  lemma {:induction false} EntriesAtLeast(attendees: seq<Attendee>)
    ensures Entries(attendees) >= 39 * |attendees|
  {
    if attendees != [] {
      EntriesAtLeast(attendees[..|attendees| - 1]);
      EntryAtLeast(attendees[|attendees| - 1]);
    }
  }

  /** One payload never holds more members than the roster cap. */
  lemma OnePageHoldsFewerThanTheCap(r: Roster)
    requires FitsOnePage(r)
    ensures |r.attendees| <= MAX_ROSTER
  {
    PayloadSize(r);
    EntriesAtLeast(r.attendees);
  }

  /** The coordinator's `rosterCapacity` gate. */
  ghost predicate PassesGate(r: Roster) {
    |r.attendees| <= MAX_ROSTER && PageCount(r) <= MAX_ROSTER_PAGES
  }

  /** With entries that fit alone, a split succeeds exactly when the gate passes. */
  lemma GateIsExact(r: Roster)
    requires EntriesFit(r)
    ensures Split(r).Ok? <==> PassesGate(r)
  {
    if FitsOnePage(r) {
      OnePageHoldsFewerThanTheCap(r);
    } else if |Groups(r)| <= MAX_ROSTER_PAGES {
      PagesFit(r);
    }
  }

  /** A logical roster: version 2, not paginated, a real group id if any. */
  ghost predicate Logical(r: Roster) {
    r.v == PROTOCOL_VERSION && r.pages == None && r.groupId != Some("")
  }

  lemma PagedEnvelopeIsWider(eckCurrent: int, groupId: Option<string>)
    ensures EnvelopeBytes(PROTOCOL_VERSION, eckCurrent, groupId, None)
              <= EnvelopeBytes(ROSTER_PAGED_VERSION, eckCurrent, groupId, Some(MAX_ROSTER_PAGES))
  {
    PageCountWidth(1);
    NumeralSize(2);
    NumeralSize(3);
    assert |Decimal(2)| == 1 && |Decimal(3)| == 1;
  }

  /** Paginating a logical roster only adds to its envelope. */
  lemma EnvelopeGrows(r: Roster)
    requires Logical(r)
    ensures PayloadBytes(r) <= Load(PageBudget(r), EntryBytes, 0, r.attendees)
  {
    PayloadSize(r);
    EmptySize(BuildPage(r, 0, MAX_ROSTER_PAGES, []));
    PagedEnvelopeIsWider(r.eckCurrent, r.groupId);
  }

  lemma OneGroupIsAll<T>(groups: seq<seq<T>>, xs: seq<T>)
    requires |groups| == 1 && Flatten(groups) == xs
    ensures groups[0] == xs
  {
    assert groups == [] + [groups[0]];
    FlattenSnoc([], groups[0]);
    assert Flatten<T>([]) == [];
  }

  /** A roster that does not fit one payload is cut in at least two. */
  lemma AtLeastTwoPages(r: Roster)
    requires Logical(r) && !FitsOnePage(r) && EntriesFit(r)
    ensures |Groups(r)| >= 2
  {
    GroupsWithinBudget(r);
    EnvelopeGrows(r);
    PackKeepsOrder(PageBudget(r), EntryBytes, r.attendees);
    var groups := Groups(r);
    assert Load(PageBudget(r), EntryBytes, 0, groups[0]) <= ROSTER_PAGE_TARGET_BYTES;
    if |groups| == 1 { OneGroupIsAll(groups, r.attendees); }
  }

  // ---------------------------------------------------------------- appending one member

  lemma PlaceTouchesLast<T>(b: Budget, size: T -> nat, groups: seq<seq<T>>, x: T)
    requires groups != []
    ensures var placed := Place(b, size, groups, x);
            && |groups| <= |placed| <= |groups| + 1
            && forall i :: 0 <= i < |placed| - 1 ==> placed[i] == groups[i]
  {
  }

  lemma SameBudget(r: Roster, more: Roster)
    requires more == r.(attendees := more.attendees)
    ensures PageBudget(more) == PageBudget(r)
    ensures Groups(more) == Pack(PageBudget(r), EntryBytes, more.attendees)
  {
    assert BuildPage(more, 0, MAX_ROSTER_PAGES, []) == BuildPage(r, 0, MAX_ROSTER_PAGES, []);
    assert BuildPage(more, 1, MAX_ROSTER_PAGES, []) == BuildPage(r, 1, MAX_ROSTER_PAGES, []);
  }

  lemma AppendTouchesLast(r: Roster, more: Roster, a: Attendee)
    requires more == r.(attendees := r.attendees + [a])
    ensures |Groups(r)| <= |Groups(more)| <= |Groups(r)| + 1
    ensures forall i :: 0 <= i < |Groups(more)| - 1 ==> Groups(more)[i] == Groups(r)[i]
  {
    SameBudget(r, more);
    PackSnoc(PageBudget(r), EntryBytes, r.attendees, a);
    PlaceTouchesLast(PageBudget(r), EntryBytes, Groups(r), a);
  }

  lemma SamePage(r: Roster, more: Roster, groups: seq<Group>, moreGroups: seq<Group>, i: nat)
    requires more == r.(attendees := more.attendees)
    requires i < |groups| && i < |moreGroups| && groups[i] == moreGroups[i]
    requires i > 0 || |groups| == |moreGroups|
    ensures BuildPages(more, moreGroups)[i] == BuildPages(r, groups)[i]
  {
  }

  /** Appending a member changes the last page alone, or page 0 and one new page. */
  lemma AppendTouchesTwo(r: Roster, a: Attendee)
    ensures var more := r.(attendees := r.attendees + [a]);
            var old_, new_ := BuildPages(r, Groups(r)), BuildPages(more, Groups(more));
            || (|new_| == |old_| && forall i :: 0 <= i < |old_| - 1 ==> new_[i] == old_[i])
            || (|new_| == |old_| + 1 && forall i :: 1 <= i < |old_| ==> new_[i] == old_[i])
  {
    var more := r.(attendees := r.attendees + [a]);
    AppendTouchesLast(r, more, a);
    var groups, moreGroups := Groups(r), Groups(more);
    var old_, new_ := BuildPages(r, groups), BuildPages(more, moreGroups);
    forall i | 0 <= i < |moreGroups| - 1 && (i > 0 || |groups| == |moreGroups|)
      ensures new_[i] == old_[i]
    {
      SamePage(r, more, groups, moreGroups, i);
    }
  }

  // ---------------------------------------------------------------- split and merge

  ghost predicate DistinctPubkeys(attendees: seq<Attendee>) {
    forall i, j :: 0 <= i < j < |attendees| ==> attendees[i].pubkey != attendees[j].pubkey
  }

  lemma DistinctSnoc(init: seq<Attendee>, a: Attendee)
    ensures DistinctPubkeys(init + [a]) <==> DistinctPubkeys(init) && a.pubkey !in Pubkeys(init)
  {
    var all := init + [a];
    if DistinctPubkeys(all) {
      forall i, j | 0 <= i < j < |init|
        ensures init[i].pubkey != init[j].pubkey
      {
        assert all[i].pubkey != all[j].pubkey;
      }
      forall i | 0 <= i < |init|
        ensures init[i].pubkey != a.pubkey
      {
        assert all[i].pubkey != all[|init|].pubkey;
      }
    }
    if DistinctPubkeys(init) && a.pubkey !in Pubkeys(init) {
      forall i, j | 0 <= i < j < |all|
        ensures all[i].pubkey != all[j].pubkey
      {
        assert all[i] == init[i] && init[i] in init;
      }
    }
  }

  /** A list without repeats, within the cap, is its own membership; and only such. */
  lemma {:induction false} MembersOfDistinct(attendees: seq<Attendee>)
    ensures DistinctPubkeys(attendees) && |attendees| <= MAX_ROSTER ==> Members(attendees) == attendees
    ensures DistinctPubkeys(Members(attendees)) && |Members(attendees)| <= MAX_ROSTER
    decreases |attendees|
  {
    if attendees != [] {
      var init, a := Unsnoc(attendees);
      MembersOfDistinct(init);
      MembersSnoc(init, a);
      DistinctSnoc(init, a);
      DistinctSnoc(Members(init), a);
    }
  }

  lemma {:induction false} PagesCarryGroups(r: Roster, groups: seq<Group>, pages: seq<Roster>)
    requires |pages| == |groups| && forall i :: 0 <= i < |pages| ==> pages[i].attendees == groups[i]
    ensures AllAttendees(pages) == Flatten(groups)
    decreases |pages|
  {
    if pages != [] { PagesCarryGroups(r, groups[..|groups| - 1], pages[..|pages| - 1]); }
  }

  lemma PagedCarriesAll(r: Roster, pages: seq<Roster>)
    requires pages == BuildPages(r, Groups(r))
    ensures pages != [] && AllAttendees(pages) == r.attendees
    ensures pages[0].eckCurrent == r.eckCurrent && Truthy(pages[0].groupId) == Truthy(r.groupId)
  {
    PackKeepsOrder(PageBudget(r), EntryBytes, r.attendees);
    PagesCarryGroups(r, Groups(r), pages);
  }

  lemma SplitCarriesAll(r: Roster)
    requires Split(r).Ok?
    ensures var pages := Split(r).value;
            && pages != [] && AllAttendees(pages) == r.attendees
            && pages[0].eckCurrent == r.eckCurrent && Truthy(pages[0].groupId) == Truthy(r.groupId)
    ensures |r.attendees| <= MAX_ROSTER
  {
    if FitsOnePage(r) {
      OnePageHoldsFewerThanTheCap(r);
      assert [r][..0] == [];
      assert AllAttendees([r]) == r.attendees;
    } else {
      PagedCarriesAll(r, Split(r).value);
    }
  }

  /** Merging what a split produced gives the roster back, for exactly the logical rosters
      that list nobody twice. */
  lemma MergeInvertsSplit(r: Roster)
    requires Split(r).Ok?
    ensures Split(r).value != []
    ensures Merge(Split(r).value) == r <==> Logical(r) && DistinctPubkeys(r.attendees)
  {
    SplitCarriesAll(r);
    MembersOfDistinct(r.attendees);
  }

  /** Splitting again what was merged reproduces the same pages. */
  lemma SplitIsStable(r: Roster)
    requires Split(r).Ok? && Logical(r) && DistinctPubkeys(r.attendees)
    ensures Split(r).value != [] && Split(Merge(Split(r).value)) == Split(r)
  {
    MergeInvertsSplit(r);
  }

  // ---------------------------------------------------------------- what the pages say

  /** A roster that fits one payload is its own only page. Otherwise there are at most 40
      version-3 pages for at most 2000 members: page 0 carries the group id and the page
      count, no other page does, and each is within the encryption's ceiling. */
  lemma PagesSay(r: Roster)
    requires Split(r).Ok?
    ensures var pages := Split(r).value;
            && (forall p <- pages :: PayloadBytes(p) <= 65_535)
            && if PayloadBytes(r) <= 65_535 then pages == [r]
               else
                 && 1 <= |pages| <= 40 && |r.attendees| <= 2000
                 && forall i :: 0 <= i < |pages| ==>
                      && pages[i].v == 3 && pages[i].eckCurrent == r.eckCurrent
                      && pages[i].pages == (if i == 0 then Some(|pages|) else None)
                      && pages[i].groupId == (if i == 0 && r.groupId != Some("") then r.groupId else None)
  {
    hide PayloadBytes, Groups, Utf8Length, RosterJson;
  }

  /** A page is closed only when the next entry would take it, counted with the widest page
      count, past 60000 bytes. */
  lemma PageClosesWhenFull(r: Roster, i: nat)
    requires i + 1 < |Groups(r)|
    ensures var groups := Groups(r);
            && groups[i] != [] && groups[i + 1] != []
            && PayloadBytes(BuildPage(r, i, 40, [])) + Entries(groups[i]) + EntryBytes(groups[i + 1][0]) > 60_000
  {
    hide Pack, PayloadBytes, Cost, BuildPage;
    PackClosesAt(PageBudget(r), EntryBytes, r.attendees, i);
    OverheadIsEnvelope(r, i);
  }

  /** A split is refused for more than 2000 members, else for more than 40 pages, else for a
      page over the ceiling; what fits one payload is never refused. */
  lemma SplitRefuses(r: Roster)
    ensures var big := PayloadBytes(r) > 65_535;
            && (Split(r) == Err(TOO_MANY_MEMBERS) <==> big && |r.attendees| > 2000)
            && (Split(r) == Err(TOO_MANY_PAGES) <==> big && |r.attendees| <= 2000 && |Groups(r)| > 40)
            && (Split(r) == Err(PAGE_TOO_LARGE) <==>
                  big && |r.attendees| <= 2000 && |Groups(r)| <= 40
                  && exists page <- BuildPages(r, Groups(r)) :: PayloadBytes(page) > 65_535)
  {
    hide PayloadBytes, Groups, BuildPages;
    assert |TOO_MANY_MEMBERS| != |TOO_MANY_PAGES| && |TOO_MANY_PAGES| != |PAGE_TOO_LARGE| && |TOO_MANY_MEMBERS| != |PAGE_TOO_LARGE|;
  }

  /** A merge keeps of each member the first entry read, in reading order, until 2000 are
      known; `at` is where each was read. */
  lemma {:induction false} MembersAreFirsts(attendees: seq<Attendee>) returns (at: seq<nat>)
    ensures var members := Members(attendees);
            && |at| == |members| <= 2000
            && (forall j :: 0 <= j < |at| ==> FirstRead(attendees, at[j]) && members[j] == attendees[at[j]])
            && (forall i, j :: 0 <= i < j < |at| ==> at[i] < at[j])
            && forall i :: 0 <= i < |attendees| && (|members| < 2000 || i <= at[|at| - 1]) ==> attendees[i].pubkey in Pubkeys(members)
    decreases |attendees|
  {
    at := [];
    if attendees != [] {
      var init, a := Unsnoc(attendees);
      at := MembersAreFirsts(init);
      MembersSnoc(init, a);
      var before := Members(init);
      forall j | 0 <= j < |at|
        ensures FirstRead(attendees, at[j]) && before[j] == attendees[at[j]]
      {
        assert FirstRead(init, at[j]);
      }
      if |before| < 2000 && a.pubkey !in Pubkeys(before) {
        forall i | 0 <= i < |init|
          ensures attendees[i].pubkey != a.pubkey && attendees[i].pubkey in Pubkeys(before)
        {
          assert attendees[i] == init[i] && init[i].pubkey in Pubkeys(before);
        }
        at := at + [|init|];
      }
    }
  }

  /** The entry at `i` is the first of its member. */
  ghost predicate FirstRead(attendees: seq<Attendee>, i: nat) {
    i < |attendees| && forall j :: 0 <= j < i ==> attendees[j].pubkey != attendees[i].pubkey
  }

  /** A merge is a version-2 payload with page 0's header and no page count. */
  lemma MergeSays(pages: seq<Roster>)
    requires pages != []
    ensures var m := Merge(pages);
            && m.v == 2 && m.pages.None? && m.eckCurrent == pages[0].eckCurrent
            && m.groupId == (if pages[0].groupId == Some("") then None else pages[0].groupId)
  {
  }
}
