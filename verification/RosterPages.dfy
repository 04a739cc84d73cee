/** Roster pagination: greedy packing against a byte budget, split and merge. */
module RosterPages {
  import opened Wrappers
  import opened Text
  import opened Packing
  import opened RosterText

  const PROTOCOL_VERSION := 2
  const ROSTER_PAGED_VERSION := 3
  const MAX_ROSTER := 2000
  const MAX_ROSTER_PAGES := 40
  const NIP44_MAX_PLAINTEXT_BYTES := 65_535
  const ROSTER_PAGE_TARGET_BYTES := 60_000

  type Group = seq<Attendee>

  predicate FitsOnePage(r: Roster) {
    PayloadBytes(r) <= NIP44_MAX_PLAINTEXT_BYTES
  }

  /** An empty group id is falsy, and is left out. */
  function Truthy(id: Option<string>): Option<string> {
    if id == Some("") then None else id
  }

  function BuildPage(r: Roster, index: nat, pages: int, attendees: Group): Roster {
    if index > 0 then Roster(ROSTER_PAGED_VERSION, r.eckCurrent, None, None, attendees)
    else Roster(ROSTER_PAGED_VERSION, r.eckCurrent, Truthy(r.groupId), Some(pages), attendees)
  }

  /** The envelope of group `index`, with the widest page count. */
  function Overhead(r: Roster, index: nat): nat {
    PayloadBytes(BuildPage(r, index, MAX_ROSTER_PAGES, []))
  }

  function PageBudget(r: Roster): Budget {
    Budget(Overhead(r, 0), Overhead(r, 1), ROSTER_PAGE_TARGET_BYTES)
  }

  /** Every continuation page has the same envelope. */
  lemma OverheadIsEnvelope(r: Roster, index: nat)
    ensures Overhead(r, index) == Envelope(PageBudget(r), index)
  {
    assert index > 0 ==> BuildPage(r, index, MAX_ROSTER_PAGES, []) == BuildPage(r, 1, MAX_ROSTER_PAGES, []);
  }

  function Groups(r: Roster): (groups: seq<Group>)
    ensures groups != []
  {
    Pack(PageBudget(r), EntryBytes, r.attendees)
  }

  method PackPages(r: Roster) returns (groups: seq<Group>)
    ensures groups == Groups(r)
  {
    groups := PackList(PageBudget(r), EntryBytes, r.attendees);
  }

  method RosterPageCount(r: Roster) returns (n: nat)
    ensures n == PageCount(r)
  {
    if FitsOnePage(r) { return 1; }
    var groups := PackPages(r);
    n := |groups|;
  }

  function PageCount(r: Roster): nat {
    if FitsOnePage(r) then 1 else |Groups(r)|
  }

  function BuildPages(r: Roster, groups: seq<Group>): (pages: seq<Roster>)
    ensures |pages| == |groups|
    ensures forall i :: 0 <= i < |groups| ==> pages[i] == BuildPage(r, i, |groups|, groups[i])
  {
    seq(|groups|, i requires 0 <= i < |groups| => BuildPage(r, i, |groups|, groups[i]))
  }

  const TOO_MANY_MEMBERS := "roster is over the member cap"
  const TOO_MANY_PAGES := "roster is over the page cap"
  const NO_PAGES := "cannot merge an empty roster page set"
  const PAGE_TOO_LARGE := "roster page is over the NIP-44 ceiling"

  function Split(r: Roster): Result<seq<Roster>> {
    if FitsOnePage(r) then Ok([r])
    else if |r.attendees| > MAX_ROSTER then Err(TOO_MANY_MEMBERS)
    else
      var groups := Groups(r);
      if |groups| > MAX_ROSTER_PAGES then Err(TOO_MANY_PAGES)
      else if exists page <- BuildPages(r, groups) :: !FitsOnePage(page) then Err(PAGE_TOO_LARGE)
      else Ok(BuildPages(r, groups))
  }

  method SplitRoster(r: Roster) returns (result: Result<seq<Roster>>)
    ensures result == Split(r)
  {
    if FitsOnePage(r) { return Ok([r]); }
    if |r.attendees| > MAX_ROSTER { return Err(TOO_MANY_MEMBERS); }
    var groups := PackPages(r);
    if |groups| > MAX_ROSTER_PAGES { return Err(TOO_MANY_PAGES); }
    var pages := BuildPages(r, groups);
    var fit := AllHold(FitsOnePage, pages);
    result := if fit then Ok(pages) else Err(PAGE_TOO_LARGE);
  }

  method AllHold<T>(p: T -> bool, xs: seq<T>) returns (all: bool)
    ensures all <==> forall x <- xs :: p(x)
  {
    for i := 0 to |xs|
      invariant forall x <- xs[..i] :: p(x)
    {
      if !p(xs[i]) {
        assert xs[i] in xs;
        return false;
      }
    }
    assert xs[..|xs|] == xs;
    all := true;
  }

  // ---------------------------------------------------------------- merging

  function AllAttendees(pages: seq<Roster>): seq<Attendee> {
    if pages == [] then [] else AllAttendees(pages[..|pages| - 1]) + pages[|pages| - 1].attendees
  }

  function Pubkeys(members: seq<Attendee>): set<string> {
    set a <- members :: a.pubkey
  }

  /** One more attendee read: kept unless the cap is reached or the member is known. */
  function Admit(members: seq<Attendee>, a: Attendee): seq<Attendee> {
    if |members| >= MAX_ROSTER || a.pubkey in Pubkeys(members) then members else members + [a]
  }

  /** First occurrences in order, up to the roster cap. */
  function Members(attendees: seq<Attendee>): seq<Attendee> {
    if attendees == [] then [] else Admit(Members(attendees[..|attendees| - 1]), attendees[|attendees| - 1])
  }

  lemma MembersSnoc(attendees: seq<Attendee>, a: Attendee)
    ensures Members(attendees + [a]) == Admit(Members(attendees), a)
  {
    assert (attendees + [a])[..|attendees|] == attendees;
  }

  lemma {:induction false} FullStays(a: seq<Attendee>, b: seq<Attendee>)
    requires |Members(a)| >= MAX_ROSTER
    ensures Members(a + b) == Members(a)
    decreases |b|
  {
    if b == [] {
      assert a + b == a;
    } else {
      FullStays(a, b[..|b| - 1]);
      assert a + b == (a + b[..|b| - 1]) + [b[|b| - 1]];
      MembersSnoc(a + b[..|b| - 1], b[|b| - 1]);
    }
  }

  function Merge(pages: seq<Roster>): Roster
    requires pages != []
  {
    Roster(PROTOCOL_VERSION, pages[0].eckCurrent, Truthy(pages[0].groupId), None, Members(AllAttendees(pages)))
  }

  method AdmitOne(members: seq<Attendee>, seen: set<string>, a: Attendee) returns (attendees: seq<Attendee>, known: set<string>)
    requires seen == Pubkeys(members) && |members| < MAX_ROSTER
    ensures attendees == Admit(members, a) && known == Pubkeys(attendees)
  {
    attendees, known := members, seen;
    if a.pubkey !in seen {
      known := seen + {a.pubkey};
      attendees := members + [a];
    }
  }

  /** Read one page's attendees after `before`. */
  method AddPage(members: seq<Attendee>, seen: set<string>, page: seq<Attendee>, ghost before: seq<Attendee>)
    returns (attendees: seq<Attendee>, known: set<string>)
    requires members == Members(before) && seen == Pubkeys(members)
    ensures attendees == Members(before + page) && known == Pubkeys(attendees)
  {
    hide Members, Pubkeys, Admit;
    attendees, known := members, seen;
    ghost var read := before;
    assert before + page[..0] == before;
    for j := 0 to |page|
      invariant read == before + page[..j]
      invariant attendees == Members(read) && known == Pubkeys(attendees)
    {
      if |attendees| >= MAX_ROSTER {
        FullStays(read, page[j..]);
        assert read + page[j..] == before + page;
        return;
      }
      MembersSnoc(read, page[j]);
      assert before + page[..j + 1] == read + [page[j]];
      attendees, known := AdmitOne(attendees, known, page[j]);
      read := read + [page[j]];
    }
    assert page[..|page|] == page;
  }

  method MergeRosterPages(pages: seq<Roster>) returns (result: Result<Roster>)
    ensures result == if pages == [] then Err(NO_PAGES) else Ok(Merge(pages))
  {
    if pages == [] { return Err(NO_PAGES); }
    var seen: set<string> := {};
    var attendees: seq<Attendee> := [];
    for i := 0 to |pages|
      invariant attendees == Members(AllAttendees(pages[..i])) && seen == Pubkeys(attendees)
    {
      assert pages[..i + 1][..i] == pages[..i];
      attendees, seen := AddPage(attendees, seen, pages[i].attendees, AllAttendees(pages[..i]));
    }
    assert pages[..|pages|] == pages;
    result := Ok(Roster(PROTOCOL_VERSION, pages[0].eckCurrent, Truthy(pages[0].groupId), None, attendees));
  }
}
