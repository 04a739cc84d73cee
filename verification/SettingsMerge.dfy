/** The per-event settings document of one account and its merge across devices:
    a last-writer-wins map per field, with tombstones and a `base` stamp for every
    entry the clock does not name. */
module SettingsMerge {
  import opened Wrappers
  import opened Ordering
  import opened Text

  const MAX_SETTINGS_TOMBSTONES := 200

  datatype Slot = Favorites | WantToMeet | Met | Notes

  type ListSlot = s: Slot | s != Notes witness Favorites

  datatype PerSlot<T> = PerSlot(favorites: T, wantToMeet: T, met: T, notes: T) {
    function At(slot: Slot): T {
      match slot
      case Favorites => favorites
      case WantToMeet => wantToMeet
      case Met => met
      case Notes => notes
    }

    function With(slot: Slot, v: T): PerSlot<T> {
      match slot
      case Favorites => this.(favorites := v)
      case WantToMeet => this.(wantToMeet := v)
      case Met => this.(met := v)
      case Notes => this.(notes := v)
    }
  }

  type Stamps = map<string, nat>

  /** The wire document. Without `clock` it is a legacy whole-document assertion. */
  datatype Settings = Settings(
    favorites: seq<string>, wantToMeet: seq<string>, met: seq<string>,
    notes: map<string, string>, clock: Option<PerSlot<Stamps>>, base: Option<nat>) {

    function List(slot: Slot): seq<string> {
      match slot
      case Favorites => favorites
      case WantToMeet => wantToMeet
      case Met => met
      case Notes => []
    }
  }

  /** A document with the `created_at`, in seconds, of the event that carried it. */
  datatype Stamped = Stamped(settings: Settings, createdAt: int)

  /** One entry: a tombstone when not present; `text` is "" for lists and tombstones. */
  datatype Entry = Entry(present: bool, at: nat, text: string)

  /** Comprehensions below give one fixed value off their keys, so that two of them agreeing
      on their keys agree altogether. */
  type Entries = map<string, Entry>

  datatype Normalized = Normalized(base: nat, slots: PerSlot<Entries>, oddNotes: map<string, string>)

  // ---------------------------------------------------------------- reading

  function BaseOf(d: Stamped): nat {
    match d.settings.clock
    case Some(_) => (match d.settings.base case Some(b) => b case None => 0)
    case None => (if d.createdAt < 0 then 0 else d.createdAt) * 1000
  }

  function StampsOf(d: Stamped, slot: Slot): Stamps {
    match d.settings.clock
    case Some(c) => c.At(slot)
    case None => map[]
  }

  function StampOr(stamps: Stamps, pk: string, base: nat): nat {
    if pk in stamps then stamps[pk] else base
  }

  /** A stamp that names no listed entry. */
  function Tombstone(stamps: Stamps, pk: string): Entry {
    Entry(false, StampOr(stamps, pk, 0), "")
  }

  function ListEntries(listed: seq<string>, stamps: Stamps, base: nat): Entries {
    map pk | pk in (set x <- listed) + stamps.Keys ::
      if pk in listed then Entry(true, StampOr(stamps, pk, base), "") else Tombstone(stamps, pk)
  }

  function NoteEntries(notes: map<string, string>, stamps: Stamps, base: nat): Entries {
    map pk | pk in HexKeys(notes) + stamps.Keys ::
      if pk in HexKeys(notes) then Entry(true, StampOr(stamps, pk, base), notes[pk]) else Tombstone(stamps, pk)
  }

  function OddNotes(notes: map<string, string>): map<string, string> {
    notes - HexKeys(notes)
  }

  function SlotEntries(d: Stamped, slot: Slot): Entries {
    if slot == Notes then NoteEntries(d.settings.notes, StampsOf(d, Notes), BaseOf(d))
    else ListEntries(d.settings.List(slot), StampsOf(d, slot), BaseOf(d))
  }

  function Normalize(d: Stamped): Normalized {
    Normalized(BaseOf(d),
               PerSlot(SlotEntries(d, Favorites), SlotEntries(d, WantToMeet), SlotEntries(d, Met), SlotEntries(d, Notes)),
               OddNotes(d.settings.notes))
  }

  method NormalizeList(listed: seq<string>, stamps: Stamps, base: nat) returns (m: Entries)
    ensures m == ListEntries(listed, stamps, base)
  {
    m := map[];
    for i := 0 to |listed|
      invariant m.Keys == (set x <- listed[..i])
      invariant forall pk <- m :: m[pk] == Entry(true, StampOr(stamps, pk, base), "")
    {
      m := m[listed[i] := Entry(true, StampOr(stamps, listed[i], base), "")];
    }
    assert listed[..|listed|] == listed;
    m := AddTombs(m, stamps);
  }

  function HexKeys(notes: map<string, string>): set<string> {
    set x | x in notes && IsHex64(x)
  }

  method SplitNotes(notes: map<string, string>, stamps: Stamps, base: nat)
    returns (m: Entries, odd: map<string, string>)
    ensures m.Keys == HexKeys(notes)
    ensures forall pk <- m :: m[pk] == Entry(true, StampOr(stamps, pk, base), notes[pk])
    ensures odd == OddNotes(notes)
  {
    m, odd := map[], map[];
    var todo := notes.Keys;
    while todo != {}
      invariant todo <= notes.Keys
      invariant m.Keys == HexKeys(notes) - todo
      invariant forall pk <- m :: pk in notes && m[pk] == Entry(true, StampOr(stamps, pk, base), notes[pk])
      invariant odd.Keys == notes.Keys - HexKeys(notes) - todo
      invariant forall pk <- odd :: odd[pk] == notes[pk]
      decreases todo
    {
      var pk :| pk in todo;
      todo := todo - {pk};
      if IsHex64(pk) {
        m := m[pk := Entry(true, StampOr(stamps, pk, base), notes[pk])];
      } else {
        odd := odd[pk := notes[pk]];
      }
    }
    assert odd.Keys == OddNotes(notes).Keys;
  }

  method NormalizeNotes(notes: map<string, string>, stamps: Stamps, base: nat)
    returns (m: Entries, odd: map<string, string>)
    ensures m == NoteEntries(notes, stamps, base)
    ensures odd == OddNotes(notes)
  {
    var listed;
    listed, odd := SplitNotes(notes, stamps, base);
    m := AddTombs(listed, stamps);
    assert m.Keys == NoteEntries(notes, stamps, base).Keys;
  }

  /** The stamps that name no listed entry are tombstones. */
  method AddTombs(listed: Entries, stamps: Stamps) returns (m: Entries)
    ensures m.Keys == listed.Keys + stamps.Keys
    ensures forall pk <- m :: m[pk] == if pk in listed then listed[pk] else Tombstone(stamps, pk)
  {
    m := listed;
    var todo := stamps.Keys;
    while todo != {}
      invariant todo <= stamps.Keys
      invariant m.Keys == listed.Keys + (stamps.Keys - todo)
      invariant forall pk <- m :: m[pk] == if pk in listed then listed[pk] else Tombstone(stamps, pk)
      decreases todo
    {
      var pk :| pk in todo;
      todo := todo - {pk};
      if pk !in m {
        m := m[pk := Entry(false, stamps[pk], "")];
      }
    }
  }

  // ---------------------------------------------------------------- merging

  /** The winning view of one entry. */
  function Win(a: Entry, b: Entry): Entry {
    if a.at != b.at then (if a.at > b.at then a else b)
    else if a.present != b.present then (if a.present then a else b)
    else if a.text != b.text then (if StrLess(b.text, a.text) then a else b)
    else a
  }

  /** What a document says about `k`: an unnamed entry is absent as of `base`. */
  function Look(m: Entries, base: nat, k: string): Entry {
    if k in m then m[k] else Entry(false, base, "")
  }

  function MergeEntries(a: Entries, aBase: nat, b: Entries, bBase: nat): Entries {
    map k | k in a.Keys + b.Keys ::
      if k in a.Keys + b.Keys then Win(Look(a, aBase, k), Look(b, bBase, k)) else Tombstone(map[], k)
  }

  method MergeMaps(a: Entries, aBase: nat, b: Entries, bBase: nat) returns (out: Entries)
    ensures out == MergeEntries(a, aBase, b, bBase)
  {
    out := map[];
    var todo := a.Keys + b.Keys;
    while todo != {}
      invariant todo <= a.Keys + b.Keys
      invariant out.Keys == a.Keys + b.Keys - todo
      invariant forall k <- out :: out[k] == Win(Look(a, aBase, k), Look(b, bBase, k))
      decreases todo
    {
      var k :| k in todo;
      todo := todo - {k};
      out := out[k := Win(Look(a, aBase, k), Look(b, bBase, k))];
    }
  }

  function Max(a: nat, b: nat): nat {
    if a >= b then a else b
  }

  function MergeNormalized(a: Normalized, b: Normalized): Normalized {
    Normalized(Max(a.base, b.base),
               PerSlot(MergeEntries(a.slots.favorites, a.base, b.slots.favorites, b.base),
                       MergeEntries(a.slots.wantToMeet, a.base, b.slots.wantToMeet, b.base),
                       MergeEntries(a.slots.met, a.base, b.slots.met, b.base),
                       MergeEntries(a.slots.notes, a.base, b.slots.notes, b.base)),
               b.oddNotes + a.oddNotes)
  }

  // ---------------------------------------------------------------- writing

  /** Emission order: oldest change first, ties by key. */
  predicate Before(m: Entries, x: string, y: string)
    requires x in m && y in m
  {
    m[x].at < m[y].at || (m[x].at == m[y].at && StrLess(x, y))
  }

  ghost predicate Sorted(s: seq<string>, m: Entries) {
    && (forall x <- s :: x in m)
    && (forall i, j :: 0 <= i < j < |s| ==> Before(m, s[i], s[j]))
  }

  ghost predicate IsListing(s: seq<string>, m: Entries) {
    Sorted(s, m) && forall x :: x in m ==> x in s
  }

  function Insert(s: seq<string>, k: string, m: Entries): (r: seq<string>)
    requires k in m && k !in s && Sorted(s, m)
    ensures Sorted(r, m)
    ensures forall x :: x in r <==> x in s || x == k
  {
    if s == [] then [k]
    else if Before(m, k, s[0]) then
      assert forall j :: 0 < j < |s| ==> Before(m, k, s[j]) by { BeforeHead(s, k, m); }
      [k] + s
    else
      assert Before(m, s[0], k) by { StrLessTotal(k, s[0]); }
      assert Sorted(s[1..], m);
      var r := Insert(s[1..], k, m);
      assert forall j :: 0 <= j < |r| ==> r[j] in r && (r[j] == k || r[j] in s[1..]);
      assert forall j :: 0 <= j < |r| ==> Before(m, s[0], r[j]);
      [s[0]] + r
  }

  lemma BeforeHead(s: seq<string>, k: string, m: Entries)
    requires s != [] && k in m && Sorted(s, m) && Before(m, k, s[0])
    ensures forall j :: 0 < j < |s| ==> Before(m, k, s[j])
  {
    forall j | 0 < j < |s|
      ensures Before(m, k, s[j])
    {
      assert Before(m, s[0], s[j]);
      if m[k].at == m[s[0]].at == m[s[j]].at {
        StrLessTransitive(k, s[0], s[j]);
      }
    }
  }

  /** The one emission order of a map. */
  ghost function Ordered(m: Entries): (s: seq<string>)
    ensures IsListing(s, m)
    decreases |m|
  {
    if m == map[] then []
    else
      var k :| k in m;
      var rest := m - {k};
      assert |rest| < |m| by { assert rest.Keys == m.Keys - {k}; assert |m.Keys| == |m|; assert |rest.Keys| == |rest|; }
      assert Sorted(Ordered(rest), m) by { SortedInLarger(Ordered(rest), rest, m); }
      Insert(Ordered(rest), k, m)
  }

  lemma SortedInLarger(s: seq<string>, small: Entries, large: Entries)
    requires Sorted(s, small)
    requires forall x :: x in small ==> x in large && large[x] == small[x]
    ensures Sorted(s, large)
  {
    forall i, j | 0 <= i < j < |s|
      ensures s[i] in large && s[j] in large && Before(large, s[i], s[j])
    {
      assert s[i] in small && s[j] in small && Before(small, s[i], s[j]);
    }
  }

  lemma {:induction false} ListingIsUnique(s: seq<string>, t: seq<string>, m: Entries)
    requires Sorted(s, m) && Sorted(t, m)
    requires forall x :: x in s <==> x in t
    ensures s == t
  {
    if s != [] { assert s[0] in t; }
    if t != [] { assert t[0] in s; }
    if s != [] {
      assert s[0] in t && t[0] in s;
      if s[0] != t[0] {
        var i :| 0 <= i < |t| && t[i] == s[0];
        var j :| 0 <= j < |s| && s[j] == t[0];
        assert Before(m, t[0], t[i]) && Before(m, s[0], s[j]);
        StrLessAsymmetric(s[0], t[0]);
        assert false;
      }
      SortedTail(s, m);
      SortedTail(t, m);
      forall x
        ensures x in s[1..] <==> x in t[1..]
      {
        assert x in s <==> x == s[0] || x in s[1..];
        assert x in t <==> x == t[0] || x in t[1..];
      }
      ListingIsUnique(s[1..], t[1..], m);
      assert s == [s[0]] + s[1..] && t == [t[0]] + t[1..];
    }
  }

  lemma SortedTail(s: seq<string>, m: Entries)
    requires Sorted(s, m) && s != []
    ensures Sorted(s[1..], m) && s[0] !in s[1..]
  {
    if s[0] in s[1..] {
      var j :| 1 <= j < |s| && s[j] == s[0];
      assert Before(m, s[0], s[j]);
      StrLessAsymmetric(s[0], s[0]);
    }
  }

  function Present(m: Entries): Entries {
    m - (set k <- m | !m[k].present)
  }

  /** The tombstones that say more than `base` does. */
  function LiveTombs(m: Entries, base: nat): Entries {
    m - (set k <- m | m[k].present || m[k].at <= base)
  }

  function LastN(s: seq<string>, n: nat): seq<string> {
    if |s| <= n then s else s[|s| - n..]
  }

  ghost function KeptTombs(m: Entries, base: nat): set<string> {
    set k <- LastN(Ordered(LiveTombs(m, base)), MAX_SETTINGS_TOMBSTONES)
  }

  /** What survives a write of one field: the listed entries and the kept tombstones. */
  ghost function Survivors(m: Entries, base: nat): Entries {
    m - (set k <- m | !m[k].present && k !in KeptTombs(m, base))
  }

  function Ats(m: Entries): Stamps {
    map k | k in m :: if k in m then m[k].at else 0
  }

  ghost function StampsOut(m: Entries, base: nat): Stamps {
    Ats(Survivors(m, base))
  }

  function TextsOut(m: Entries): map<string, string> {
    map k | k in m && m[k].present :: if k in m && m[k].present then m[k].text else ""
  }

  ghost function Denormalize(n: Normalized): Settings {
    Settings(Ordered(Present(n.slots.favorites)), Ordered(Present(n.slots.wantToMeet)), Ordered(Present(n.slots.met)),
             n.oddNotes + TextsOut(n.slots.notes),
             Some(PerSlot(StampsOut(n.slots.favorites, n.base), StampsOut(n.slots.wantToMeet, n.base),
                          StampsOut(n.slots.met, n.base), StampsOut(n.slots.notes, n.base))),
             Some(n.base))
  }

  method SortKeys(m: Entries) returns (s: seq<string>)
    ensures s == Ordered(m)
  {
    s := [];
    var todo := m.Keys;
    while todo != {}
      invariant todo <= m.Keys
      invariant Sorted(s, m)
      invariant forall x :: x in s <==> x in m && x !in todo
      decreases todo
    {
      var k :| k in todo;
      todo := todo - {k};
      s := Insert(s, k, m);
    }
    ListingIsUnique(s, Ordered(m), m);
  }

  function Keep(s: seq<string>, p: string -> bool): (r: seq<string>)
    ensures forall x :: x in r <==> x in s && p(x)
  {
    if s == [] then []
    else Keep(s[..|s| - 1], p) + (if p(s[|s| - 1]) then [s[|s| - 1]] else [])
  }

  lemma {:induction false} KeepSorted(s: seq<string>, p: string -> bool, m: Entries)
    requires Sorted(s, m)
    ensures Sorted(Keep(s, p), m)
  {
    if s != [] {
      var init, last := s[..|s| - 1], s[|s| - 1];
      KeepSorted(init, p, m);
      forall x | x in Keep(init, p)
        ensures Before(m, x, last)
      {
        var i :| 0 <= i < |init| && init[i] == x;
        assert Before(m, s[i], s[|s| - 1]);
      }
      var r := Keep(init, p);
      assert forall i :: 0 <= i < |r| ==> r[i] in r;
    }
  }

  /** Filtering the emission order of a map is the emission order of the filtered map. */
  lemma KeepIsListing(m: Entries, p: string -> bool, part: Entries)
    requires forall k :: k in part <==> k in m && p(k)
    requires forall k <- part :: part[k] == m[k]
    ensures Keep(Ordered(m), p) == Ordered(part)
  {
    KeepSorted(Ordered(m), p, m);
    SortedInLarger(Ordered(part), part, m);
    ListingIsUnique(Keep(Ordered(m), p), Ordered(part), m);
  }

  method FilterKeys(s: seq<string>, p: string -> bool) returns (r: seq<string>)
    ensures r == Keep(s, p)
  {
    r := [];
    for i := 0 to |s|
      invariant r == Keep(s[..i], p)
    {
      assert s[..i + 1][..i] == s[..i];
      if p(s[i]) {
        r := r + [s[i]];
      }
    }
    assert s[..|s|] == s;
  }

  /** Write one map: its listed keys in order, and the stamps of what it keeps. */
  method Emit(m: Entries, base: nat) returns (listed: seq<string>, stamps: Stamps)
    ensures listed == Ordered(Present(m))
    ensures stamps == StampsOut(m, base)
  {
    var ordered := SortKeys(m);
    var keep := TombsToKeep(ordered, m, base);
    listed, stamps := Collect(ordered, m, keep);
    KeepIsListing(m, k => k in m && m[k].present, Present(m));
    StampsAre(stamps, ordered, m, base);
  }

  lemma StampsAre(stamps: Stamps, ordered: seq<string>, m: Entries, base: nat)
    requires IsListing(ordered, m)
    requires forall k :: k in stamps <==> k in ordered && k in m && (m[k].present || k in KeptTombs(m, base))
    requires forall k <- stamps :: stamps[k] == m[k].at
    ensures stamps == StampsOut(m, base)
  {
    assert stamps.Keys == StampsOut(m, base).Keys;
  }

  method TombsToKeep(ordered: seq<string>, m: Entries, base: nat) returns (keep: set<string>)
    requires ordered == Ordered(m)
    ensures keep == KeptTombs(m, base)
  {
    var tombs := FilterKeys(ordered, k => k in m && !m[k].present && m[k].at > base);
    KeepIsListing(m, k => k in m && !m[k].present && m[k].at > base, LiveTombs(m, base));
    keep := set k <- LastN(tombs, MAX_SETTINGS_TOMBSTONES);
  }

  method Collect(ordered: seq<string>, m: Entries, keep: set<string>) returns (listed: seq<string>, stamps: Stamps)
    requires forall k <- ordered :: k in m
    ensures listed == Keep(ordered, k => k in m && m[k].present)
    ensures forall k :: k in stamps <==> k in ordered && (m[k].present || k in keep)
    ensures forall k <- stamps :: stamps[k] == m[k].at
  {
    listed, stamps := [], map[];
    for i := 0 to |ordered|
      invariant listed == Keep(ordered[..i], k => k in m && m[k].present)
      invariant forall k :: k in stamps <==> k in ordered[..i] && (m[k].present || k in keep)
      invariant forall k <- stamps :: stamps[k] == m[k].at
    {
      var pk := ordered[i];
      assert ordered[..i + 1] == ordered[..i] + [pk];
      assert ordered[..i + 1][..i] == ordered[..i];
      if m[pk].present {
        stamps := stamps[pk := m[pk].at];
        listed := listed + [pk];
      } else if pk in keep {
        stamps := stamps[pk := m[pk].at];
      }
    }
    assert ordered[..|ordered|] == ordered;
  }

  /** The spec of a merge of two documents. */
  ghost function Merged(a: Stamped, b: Stamped): Settings {
    Denormalize(MergeNormalized(Normalize(a), Normalize(b)))
  }

  method ReadDocument(d: Stamped) returns (n: Normalized)
    ensures n == Normalize(d)
  {
    var base := BaseOf(d);
    var f := NormalizeList(d.settings.favorites, StampsOf(d, Favorites), base);
    var w := NormalizeList(d.settings.wantToMeet, StampsOf(d, WantToMeet), base);
    var t := NormalizeList(d.settings.met, StampsOf(d, Met), base);
    var notes, odd := NormalizeNotes(d.settings.notes, StampsOf(d, Notes), base);
    n := Normalized(base, PerSlot(f, w, t, notes), odd);
  }

  method WriteDocument(n: Normalized) returns (d: Settings)
    ensures d == Denormalize(n)
  {
    var f, fs := Emit(n.slots.favorites, n.base);
    var w, ws := Emit(n.slots.wantToMeet, n.base);
    var t, ts := Emit(n.slots.met, n.base);
    var _, ns := Emit(n.slots.notes, n.base);
    d := Settings(f, w, t, n.oddNotes + TextsOut(n.slots.notes), Some(PerSlot(fs, ws, ts, ns)), Some(n.base));
  }

  method MergePerEventSettings(a: Stamped, b: Stamped) returns (d: Settings)
    ensures d == Merged(a, b)
  {
    var na := ReadDocument(a);
    var nb := ReadDocument(b);
    var f := MergeMaps(na.slots.favorites, na.base, nb.slots.favorites, nb.base);
    var w := MergeMaps(na.slots.wantToMeet, na.base, nb.slots.wantToMeet, nb.base);
    var t := MergeMaps(na.slots.met, na.base, nb.slots.met, nb.base);
    var notes := MergeMaps(na.slots.notes, na.base, nb.slots.notes, nb.base);
    d := WriteDocument(Normalized(Max(na.base, nb.base), PerSlot(f, w, t, notes), nb.oddNotes + na.oddNotes));
  }

  // ---------------------------------------------------------------- editing

  datatype Edit = Toggle(slot: ListSlot, pubkey: string) | Note(pubkey: string, text: string)

  predicate IsBlank(c: char) {
    c == ' ' || '\t' <= c <= '\r' || c == '\U{A0}' || c == '\U{FEFF}' || c == '\U{1680}' ||
    '\U{2000}' <= c <= '\U{200A}' || c == '\U{2028}' || c == '\U{2029}' || c == '\U{202F}' ||
    c == '\U{205F}' || c == '\U{3000}'
  }

  function Trim(s: string): string {
    if s == "" then ""
    else if IsBlank(s[0]) then Trim(s[1..])
    else if IsBlank(s[|s| - 1]) then Trim(s[..|s| - 1])
    else s
  }

  function EditSlot(edit: Edit): Slot {
    match edit case Toggle(slot, _) => slot case Note(_, _) => Notes
  }

  /** The entry an edit writes: stamped now, or just past everything it was made against. */
  function EditEntry(n: Normalized, edit: Edit, nowMs: int): Entry {
    var cur := Look(n.slots.At(EditSlot(edit)), n.base, edit.pubkey);
    var at := Max(if nowMs < 0 then 0 else nowMs, Max(cur.at + 1, n.base + 1));
    match edit
    case Toggle(_, _) => Entry(!cur.present, at, "")
    case Note(_, text) => Entry(Trim(text) != "", at, Trim(text))
  }

  function EditNormalized(n: Normalized, edit: Edit, nowMs: int): Normalized {
    var slot := EditSlot(edit);
    n.(slots := n.slots.With(slot, n.slots.At(slot)[edit.pubkey := EditEntry(n, edit, nowMs)]))
  }

  ghost function Edited(d: Stamped, edit: Edit, nowMs: int): Settings {
    Denormalize(EditNormalized(Normalize(d), edit, nowMs))
  }

  method EditPerEventSettings(d: Stamped, edit: Edit, nowMs: int) returns (r: Settings)
    ensures r == Edited(d, edit, nowMs)
  {
    var n := ReadDocument(d);
    r := WriteDocument(EditNormalized(n, edit, nowMs));
  }
}
