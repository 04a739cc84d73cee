/** Laws of the settings merge: replicas converge, an edit beats what it was made on,
    and a legacy document is read as a whole-document write. */
module SettingsLaws {
  import opened Wrappers
  import opened Ordering
  import opened Text
  import opened Sequences
  import opened SettingsMerge

  // ---------------------------------------------------------------- shapes and views

  /** Every entry is stamped at or above the document's base. */
  ghost predicate SlotAtLeastBase(m: Entries, base: nat) {
    forall k <- m :: m[k].at >= base
  }

  ghost predicate AtLeastBase(n: Normalized) {
    forall slot: Slot :: SlotAtLeastBase(n.slots.At(slot), n.base)
  }

  ghost predicate SlotShaped(m: Entries, slot: Slot) {
    forall k <- m :: (slot != Notes || !m[k].present ==> m[k].text == "") && (slot == Notes && m[k].present ==> IsHex64(k))
  }

  ghost predicate Shaped(n: Normalized) {
    && (forall slot: Slot :: SlotShaped(n.slots.At(slot), slot))
    && (forall k <- n.oddNotes :: !IsHex64(k))
  }

  ghost predicate SlotSameView(a: Entries, aBase: nat, b: Entries, bBase: nat) {
    forall k :: Look(a, aBase, k) == Look(b, bBase, k)
  }

  /** Both say the same about every key of every field. */
  ghost predicate SameView(a: Normalized, b: Normalized) {
    && a.base == b.base
    && a.oddNotes == b.oddNotes
    && forall slot: Slot :: SlotSameView(a.slots.At(slot), a.base, b.slots.At(slot), b.base)
  }

  lemma NormalizeShaped(d: Stamped)
    ensures Shaped(Normalize(d))
  {
    var n := Normalize(d);
    forall slot: Slot
      ensures SlotShaped(n.slots.At(slot), slot)
    {
      assert n.slots.At(slot) == SlotEntries(d, slot);
    }
  }

  lemma ViewFixesEntries(a: Entries, b: Entries, base: nat)
    requires SlotSameView(a, base, b, base)
    ensures Present(a) == Present(b) && LiveTombs(a, base) == LiveTombs(b, base)
  {
    forall k
      ensures k in Present(a) <==> k in Present(b)
      ensures k in LiveTombs(a, base) <==> k in LiveTombs(b, base)
      ensures k in Present(a) || k in LiveTombs(a, base) ==> a[k] == b[k]
    {
      assert Look(a, base, k) == Look(b, base, k);
    }
  }

  lemma SlotWriteRespectsView(a: Entries, b: Entries, base: nat)
    requires SlotSameView(a, base, b, base)
    ensures Survivors(a, base) == Survivors(b, base)
  {
    ViewFixesEntries(a, b, base);
    SamePartsSurvive(a, b, base);
  }

  lemma SamePartsSurvive(a: Entries, b: Entries, base: nat)
    requires Present(a) == Present(b) && KeptTombs(a, base) == KeptTombs(b, base)
    requires forall k <- KeptTombs(a, base) :: k in a && k in b ==> a[k] == b[k]
    ensures Survivors(a, base) == Survivors(b, base)
  {
    KeptAreTombs(a, base);
    KeptAreTombs(b, base);
    forall k
      ensures k in Survivors(a, base) <==> k in Survivors(b, base)
      ensures k in Survivors(a, base) ==> a[k] == b[k]
    {
      assert k in Present(a) <==> k in Present(b);
      assert k in Present(a) ==> Present(a)[k] == a[k] && Present(b)[k] == b[k];
    }
  }

  lemma KeptAreTombs(m: Entries, base: nat)
    ensures forall k <- KeptTombs(m, base) :: k in m && !m[k].present && m[k].at > base
  {
    var listing := Ordered(LiveTombs(m, base));
    forall k <- KeptTombs(m, base)
      ensures k in LiveTombs(m, base)
    {
      assert k in listing;
    }
  }

  /** What is written is a function of the survivors, the base and the odd notes. */
  lemma WriteRespectsSurvivors(a: Normalized, b: Normalized)
    requires a.base == b.base && a.oddNotes == b.oddNotes
    requires forall slot: Slot :: Survivors(a.slots.At(slot), a.base) == Survivors(b.slots.At(slot), b.base)
    ensures Denormalize(a) == Denormalize(b)
  {
    hide Present, TextsOut, Survivors, Ats, Ordered;
    forall slot: Slot
      ensures Present(a.slots.At(slot)) == Present(b.slots.At(slot))
      ensures StampsOut(a.slots.At(slot), a.base) == StampsOut(b.slots.At(slot), b.base)
      ensures TextsOut(a.slots.At(slot)) == TextsOut(b.slots.At(slot))
    {
      FromSurvivors(a.slots.At(slot), a.base);
      FromSurvivors(b.slots.At(slot), b.base);
    }
    assert Denormalize(a).favorites == Ordered(Present(a.slots.At(Favorites)));
    assert Denormalize(b).favorites == Ordered(Present(b.slots.At(Favorites)));
    assert Denormalize(a).wantToMeet == Ordered(Present(a.slots.At(WantToMeet)));
    assert Denormalize(b).wantToMeet == Ordered(Present(b.slots.At(WantToMeet)));
    assert Denormalize(a).met == Ordered(Present(a.slots.At(Met)));
    assert Denormalize(b).met == Ordered(Present(b.slots.At(Met)));
    assert Denormalize(a).notes == a.oddNotes + TextsOut(a.slots.At(Notes));
    assert Denormalize(b).notes == b.oddNotes + TextsOut(b.slots.At(Notes));
  }

  lemma FromSurvivors(m: Entries, base: nat)
    ensures var kept := Survivors(m, base);
            && Present(m) == Present(kept)
            && TextsOut(m) == TextsOut(kept)
  {
    assert Present(m).Keys == Present(Survivors(m, base)).Keys;
    assert TextsOut(m).Keys == TextsOut(Survivors(m, base)).Keys;
  }

  /** The written document depends only on what is said about each key. */
  lemma WriteRespectsView(a: Normalized, b: Normalized)
    requires SameView(a, b)
    ensures Denormalize(a) == Denormalize(b)
  {
    forall slot: Slot
      ensures Survivors(a.slots.At(slot), a.base) == Survivors(b.slots.At(slot), b.base)
    {
      assert SlotSameView(a.slots.At(slot), a.base, b.slots.At(slot), b.base);
      SlotWriteRespectsView(a.slots.At(slot), b.slots.At(slot), a.base);
    }
    WriteRespectsSurvivors(a, b);
  }

  // ---------------------------------------------------------------- writing then reading

  lemma ListReread(m: Entries, base: nat)
    requires forall k <- m :: m[k].text == ""
    ensures ListEntries(Ordered(Present(m)), StampsOut(m, base), base) == Survivors(m, base)
  {
    hide KeptTombs;
    var r := ListEntries(Ordered(Present(m)), StampsOut(m, base), base);
    KeptAreTombs(m, base);
    assert r.Keys == Survivors(m, base).Keys;
    forall k | k in r
      ensures r[k] == m[k]
    {
    }
  }

  lemma NotesFromParts(m: Entries, odd: map<string, string>, notes: map<string, string>)
    requires SlotShaped(m, Notes) && (forall k <- odd :: !IsHex64(k)) && notes == odd + TextsOut(m)
    ensures HexKeys(notes) == Present(m).Keys && OddNotes(notes) == odd
    ensures forall k <- Present(m) :: notes[k] == m[k].text
  {
    forall k
      ensures k in HexKeys(notes) <==> k in m && m[k].present
      ensures k in OddNotes(notes) <==> k in odd
    {
      assert k in TextsOut(m) <==> k in m && m[k].present;
    }
    assert HexKeys(notes) == Present(m).Keys;
    assert OddNotes(notes).Keys == odd.Keys;
  }

  lemma EntriesFromParts(m: Entries, notes: map<string, string>, base: nat)
    requires SlotShaped(m, Notes) && HexKeys(notes) == Present(m).Keys
    requires forall k <- Present(m) :: notes[k] == m[k].text
    ensures NoteEntries(notes, StampsOut(m, base), base) == Survivors(m, base)
  {
    hide HexKeys, KeptTombs, IsHex64;
    KeptAreTombs(m, base);
    var r := NoteEntries(notes, StampsOut(m, base), base);
    assert r.Keys == Survivors(m, base).Keys;
    forall k | k in r
      ensures r[k] == m[k]
    {
      assert k in Present(m) <==> m[k].present;
    }
  }

  lemma NoteReread(m: Entries, odd: map<string, string>, base: nat)
    requires SlotShaped(m, Notes)
    requires forall k <- odd :: !IsHex64(k)
    ensures NoteEntries(odd + TextsOut(m), StampsOut(m, base), base) == Survivors(m, base)
    ensures OddNotes(odd + TextsOut(m)) == odd
  {
    hide Present, TextsOut, StampsOut, Survivors, NoteEntries, OddNotes, HexKeys, IsHex64;
    NotesFromParts(m, odd, odd + TextsOut(m));
    EntriesFromParts(m, odd + TextsOut(m), base);
  }

  lemma RereadList(n: Normalized, d: Stamped, slot: ListSlot)
    requires d.settings == Denormalize(n) && SlotShaped(n.slots.At(slot), slot)
    ensures SlotEntries(d, slot) == Survivors(n.slots.At(slot), n.base)
  {
    ListReread(n.slots.At(slot), n.base);
  }

  lemma RereadNotes(n: Normalized, d: Stamped)
    requires d.settings == Denormalize(n) && SlotShaped(n.slots.notes, Notes) && forall k <- n.oddNotes :: !IsHex64(k)
    ensures SlotEntries(d, Notes) == Survivors(n.slots.notes, n.base)
    ensures OddNotes(d.settings.notes) == n.oddNotes
  {
    NoteReread(n.slots.notes, n.oddNotes, n.base);
  }

  lemma Reread(n: Normalized, createdAt: int)
    requires Shaped(n)
    ensures var r := Normalize(Stamped(Denormalize(n), createdAt));
            && r.base == n.base && r.oddNotes == n.oddNotes
            && forall slot: Slot :: r.slots.At(slot) == Survivors(n.slots.At(slot), n.base)
  {
    var d := Stamped(Denormalize(n), createdAt);
    assert forall slot: Slot :: SlotShaped(n.slots.At(slot), slot);
    assert n.slots.At(Notes) == n.slots.notes;
    RereadNotes(n, d);
    forall slot: Slot
      ensures Normalize(d).slots.At(slot) == Survivors(n.slots.At(slot), n.base)
    {
      if slot != Notes { RereadList(n, d, slot); }
    }
  }

  lemma SortedDistinct(s: seq<string>, m: Entries)
    requires Sorted(s, m)
    ensures forall i, j :: 0 <= i < j < |s| ==> s[i] != s[j]
  {
    forall i, j | 0 <= i < j < |s|
      ensures s[i] != s[j]
    {
      assert Before(m, s[i], s[j]);
      StrLessAsymmetric(s[i], s[j]);
    }
  }

  lemma ListingLength(s: seq<string>, m: Entries)
    requires IsListing(s, m)
    ensures |s| == |m|
  {
    SortedDistinct(s, m);
    DistinctLength(s);
    assert (set x <- s) == m.Keys;
    assert |m.Keys| == |m|;
  }

  lemma {:induction false} DistinctLength(s: seq<string>)
    requires forall i, j :: 0 <= i < j < |s| ==> s[i] != s[j]
    ensures |(set x <- s)| == |s|
  {
    if s != [] {
      DistinctLength(s[1..]);
      assert (set x <- s) == {s[0]} + (set x <- s[1..]);
      assert s[0] !in s[1..];
    }
  }

  /** Past the cap the oldest tombstone is not kept. */
  lemma OldestIsDropped(listing: seq<string>, tombs: Entries)
    requires IsListing(listing, tombs) && |listing| > MAX_SETTINGS_TOMBSTONES
    ensures listing[0] !in LastN(listing, MAX_SETTINGS_TOMBSTONES)
  {
    SortedDistinct(listing, tombs);
  }

  /** No removal is stamped below the base, and the live ones fit the cap. */
  ghost predicate Lossless(m: Entries, base: nat) {
    (forall k <- m :: !m[k].present ==> m[k].at >= base) && |LiveTombs(m, base)| <= MAX_SETTINGS_TOMBSTONES
  }

  /** What is written of one field says the same about every key if and only if none of its
      removals is stamped below the base and the live ones fit the cap. */
  lemma SlotLosslessIff(m: Entries, base: nat, slot: Slot)
    requires SlotShaped(m, slot)
    ensures SlotSameView(Survivors(m, base), base, m, base) <==> Lossless(m, base)
  {
    var tombs := LiveTombs(m, base);
    var listing := Ordered(tombs);
    ListingLength(listing, tombs);
    KeptAreTombs(m, base);
    if k :| k in m && !m[k].present && m[k].at < base {
      assert Look(Survivors(m, base), base, k) != Look(m, base, k);
    } else if |tombs| <= MAX_SETTINGS_TOMBSTONES {
      forall k
        ensures Look(Survivors(m, base), base, k) == Look(m, base, k)
      {
        if k in m && !m[k].present && m[k].at > base {
          assert k in tombs;
          assert k in KeptTombs(m, base);
        }
      }
    } else {
      var k := listing[0];
      OldestIsDropped(listing, tombs);
      assert k in tombs by { assert k in listing; }
      assert k !in KeptTombs(m, base);
      assert Look(Survivors(m, base), base, k) != Look(m, base, k);
    }
  }

  /** A write read back says the same about every key if and only if in no field a removal
      is stamped below the base, or the live ones exceed the cap. */
  lemma LosslessIff(n: Normalized, createdAt: int)
    requires Shaped(n)
    ensures SameView(Normalize(Stamped(Denormalize(n), createdAt)), n) <==>
              forall slot: Slot :: Lossless(n.slots.At(slot), n.base)
  {
    Reread(n, createdAt);
    forall slot: Slot
      ensures SlotSameView(Survivors(n.slots.At(slot), n.base), n.base, n.slots.At(slot), n.base) <==>
                Lossless(n.slots.At(slot), n.base)
    {
      assert SlotShaped(n.slots.At(slot), slot);
      SlotLosslessIff(n.slots.At(slot), n.base, slot);
    }
  }

  // ---------------------------------------------------------------- the merge of one entry

  lemma WinCommutes(a: Entry, b: Entry)
    ensures Win(a, b) == Win(b, a)
  {
    StrLessTotal(a.text, b.text);
    StrLessAsymmetric(a.text, b.text);
  }

  lemma WinAssociates(a: Entry, b: Entry, c: Entry)
    ensures Win(Win(a, b), c) == Win(a, Win(b, c))
  {
    StrLessTotal(a.text, b.text);
    StrLessTotal(b.text, c.text);
    StrLessTotal(a.text, c.text);
    StrLessAsymmetric(a.text, b.text);
    StrLessAsymmetric(b.text, c.text);
    StrLessAsymmetric(a.text, c.text);
    if StrLess(a.text, b.text) && StrLess(b.text, c.text) { StrLessTransitive(a.text, b.text, c.text); }
    if StrLess(c.text, b.text) && StrLess(b.text, a.text) { StrLessTransitive(c.text, b.text, a.text); }
  }

  /** `b` is at least as good as `a`. */
  ghost predicate Le(a: Entry, b: Entry) {
    Win(a, b) == b
  }

  lemma LeTransitive(a: Entry, b: Entry, c: Entry)
    requires Le(a, b) && Le(b, c)
    ensures Le(a, c)
  {
    WinAssociates(a, b, c);
  }

  lemma WinIsUpperBound(a: Entry, b: Entry)
    ensures Le(a, Win(a, b)) && Le(b, Win(a, b))
  {
    WinAssociates(a, a, b);
    WinCommutes(a, b);
    WinAssociates(b, b, a);
  }

  // ---------------------------------------------------------------- the merge of two documents

  lemma LookMerge(a: Entries, aBase: nat, b: Entries, bBase: nat, k: string)
    ensures Look(MergeEntries(a, aBase, b, bBase), Max(aBase, bBase), k) == Win(Look(a, aBase, k), Look(b, bBase, k))
  {
  }

  lemma LookMerged(a: Normalized, b: Normalized, slot: Slot, k: string)
    ensures var m := MergeNormalized(a, b);
            Look(m.slots.At(slot), m.base, k) == Win(Look(a.slots.At(slot), a.base, k), Look(b.slots.At(slot), b.base, k))
  {
    assert MergeNormalized(a, b).slots.At(slot) == MergeEntries(a.slots.At(slot), a.base, b.slots.At(slot), b.base);
    LookMerge(a.slots.At(slot), a.base, b.slots.At(slot), b.base, k);
  }

  lemma MergeKeepsShape(a: Normalized, b: Normalized)
    requires Shaped(a) && Shaped(b)
    ensures Shaped(MergeNormalized(a, b))
  {
    var m := MergeNormalized(a, b);
    forall slot: Slot
      ensures SlotShaped(m.slots.At(slot), slot)
    {
      assert SlotShaped(a.slots.At(slot), slot) && SlotShaped(b.slots.At(slot), slot);
      assert m.slots.At(slot) == MergeEntries(a.slots.At(slot), a.base, b.slots.At(slot), b.base);
    }
  }

  /** The stamp-at-least-base invariant survives every merge. */
  lemma MergeKeepsInvariant(a: Normalized, b: Normalized)
    requires AtLeastBase(a) && AtLeastBase(b)
    ensures AtLeastBase(MergeNormalized(a, b))
  {
    var m := MergeNormalized(a, b);
    forall slot: Slot
      ensures SlotAtLeastBase(m.slots.At(slot), m.base)
    {
      assert SlotAtLeastBase(a.slots.At(slot), a.base) && SlotAtLeastBase(b.slots.At(slot), b.base);
      assert m.slots.At(slot) == MergeEntries(a.slots.At(slot), a.base, b.slots.At(slot), b.base);
    }
  }

  ghost predicate AgreeOnCommon(a: map<string, string>, b: map<string, string>) {
    forall k | k in a && k in b :: a[k] == b[k]
  }

  lemma SlotMergeCommutes(a: Entries, aBase: nat, b: Entries, bBase: nat)
    ensures MergeEntries(a, aBase, b, bBase) == MergeEntries(b, bBase, a, aBase)
  {
    forall k | k in a.Keys + b.Keys
      ensures Win(Look(a, aBase, k), Look(b, bBase, k)) == Win(Look(b, bBase, k), Look(a, aBase, k))
    {
      WinCommutes(Look(a, aBase, k), Look(b, bBase, k));
    }
    assert a.Keys + b.Keys == b.Keys + a.Keys;
  }

  lemma OddNotesDecide(a: Normalized, b: Normalized)
    requires Shaped(a) && Shaped(b)
    requires a.slots == b.slots && a.base == b.base
    ensures Denormalize(a) == Denormalize(b) <==> a.oddNotes == b.oddNotes
  {
    assert SlotShaped(a.slots.At(Notes), Notes) && SlotShaped(b.slots.At(Notes), Notes);
    NoteReread(a.slots.notes, a.oddNotes, a.base);
    NoteReread(b.slots.notes, b.oddNotes, b.base);
  }

  /** Merging commutes, as whole documents, exactly when the notes kept under a
      non-pubkey key do not disagree: those are carried, never stamped. */
  lemma MergeCommutesIff(a: Stamped, b: Stamped)
    ensures Merged(a, b) == Merged(b, a) <==> AgreeOnCommon(Normalize(a).oddNotes, Normalize(b).oddNotes)
  {
    var na, nb := Normalize(a), Normalize(b);
    NormalizeShaped(a);
    NormalizeShaped(b);
    NormalizedMergeCommutesIff(na, nb);
  }

  lemma NormalizedMergeCommutesIff(na: Normalized, nb: Normalized)
    requires Shaped(na) && Shaped(nb)
    ensures Denormalize(MergeNormalized(na, nb)) == Denormalize(MergeNormalized(nb, na))
            <==> AgreeOnCommon(na.oddNotes, nb.oddNotes)
  {
    var ab, ba := MergeNormalized(na, nb), MergeNormalized(nb, na);
    SlotMergeCommutes(na.slots.favorites, na.base, nb.slots.favorites, nb.base);
    SlotMergeCommutes(na.slots.wantToMeet, na.base, nb.slots.wantToMeet, nb.base);
    SlotMergeCommutes(na.slots.met, na.base, nb.slots.met, nb.base);
    SlotMergeCommutes(na.slots.notes, na.base, nb.slots.notes, nb.base);
    MergeKeepsShape(na, nb);
    MergeKeepsShape(nb, na);
    OddNotesDecide(ab, ba);
    OddUnionCommutesIff(na.oddNotes, nb.oddNotes);
  }

  lemma OddUnionCommutesIff(a: map<string, string>, b: map<string, string>)
    ensures b + a == a + b <==> AgreeOnCommon(a, b)
  {
    if b + a == a + b {
      forall k | k in a && k in b
        ensures a[k] == b[k]
      {
        assert (b + a)[k] == a[k] && (a + b)[k] == b[k];
      }
    }
  }

  // ---------------------------------------------------------------- replicas converge

  /** One history of merges: documents read as published, and merges published at some time. */
  datatype History = Read(doc: Stamped) | Merge(left: History, right: History, publishedAt: int)

  ghost function Eval(h: History): Stamped {
    match h
    case Read(doc) => doc
    case Merge(l, r, t) => Stamped(Merged(Eval(l), Eval(r)), t)
  }

  ghost function Sources(h: History): set<Stamped> {
    match h
    case Read(doc) => {doc}
    case Merge(l, r, _) => Sources(l) + Sources(r)
  }

  ghost function TombKeys(m: Entries): set<string> {
    set k | k in m && !m[k].present
  }

  ghost function AllTombKeys(docs: set<Stamped>, slot: Slot): set<string> {
    set d, k | d in docs && k in TombKeys(Normalize(d).slots.At(slot)) :: k
  }

  /** The sources are in the form this module writes, carry no odd-keyed note, and
      together name no more tombstones in a field than one document keeps. */
  ghost predicate InForm(docs: set<Stamped>) {
    && (forall d <- docs :: AtLeastBase(Normalize(d)) && Normalize(d).oddNotes == map[])
    && (forall slot: Slot :: |AllTombKeys(docs, slot)| <= MAX_SETTINGS_TOMBSTONES)
  }

  ghost function ViewOf(d: Stamped, slot: Slot, k: string): Entry {
    Look(Normalize(d).slots.At(slot), BaseOf(d), k)
  }

  /** `e` is the best of what `docs` say about `k`, and one of them says it. */
  ghost predicate IsBest(e: Entry, docs: set<Stamped>, slot: Slot, k: string) {
    && (forall d <- docs :: Le(ViewOf(d, slot, k), e))
    && (exists d <- docs :: ViewOf(d, slot, k) == e)
  }

  ghost predicate IsTopBase(base: nat, docs: set<Stamped>) {
    && (forall d <- docs :: BaseOf(d) <= base)
    && (exists d <- docs :: BaseOf(d) == base)
  }

  lemma InFormSubset(docs: set<Stamped>, larger: set<Stamped>)
    requires docs <= larger && InForm(larger)
    ensures InForm(docs)
  {
    forall slot: Slot
      ensures |AllTombKeys(docs, slot)| <= MAX_SETTINGS_TOMBSTONES
    {
      SubsetSize(AllTombKeys(docs, slot), AllTombKeys(larger, slot));
    }
  }

  /** A live tombstone of a merge is a tombstone of one of its sides. */
  lemma LiveTombsOfMerge(a: Entries, aBase: nat, b: Entries, bBase: nat)
    ensures LiveTombs(MergeEntries(a, aBase, b, bBase), Max(aBase, bBase)).Keys <= TombKeys(a) + TombKeys(b)
  {
  }

  ghost predicate TombsFit(a: Normalized, b: Normalized) {
    forall slot: Slot :: |TombKeys(a.slots.At(slot)) + TombKeys(b.slots.At(slot))| <= MAX_SETTINGS_TOMBSTONES
  }

  lemma MergedTombsFit(a: Normalized, b: Normalized, slot: Slot)
    requires TombsFit(a, b)
    ensures var m := MergeNormalized(a, b);
            && LiveTombs(m.slots.At(slot), m.base).Keys <= TombKeys(a.slots.At(slot)) + TombKeys(b.slots.At(slot))
            && |LiveTombs(m.slots.At(slot), m.base)| <= MAX_SETTINGS_TOMBSTONES
  {
    var m := MergeNormalized(a, b);
    assert m.slots.At(slot) == MergeEntries(a.slots.At(slot), a.base, b.slots.At(slot), b.base);
    LiveTombsOfMerge(a.slots.At(slot), a.base, b.slots.At(slot), b.base);
    var live := LiveTombs(m.slots.At(slot), m.base);
    SubsetSize(live.Keys, TombKeys(a.slots.At(slot)) + TombKeys(b.slots.At(slot)));
    assert |live| == |live.Keys|;
  }

  lemma RereadKeepsInvariant(m: Normalized, createdAt: int)
    requires Shaped(m) && AtLeastBase(m)
    ensures var n := Normalize(Stamped(Denormalize(m), createdAt));
            && AtLeastBase(n)
            && forall slot: Slot :: TombKeys(n.slots.At(slot)) <= LiveTombs(m.slots.At(slot), m.base).Keys
  {
    Reread(m, createdAt);
    forall slot: Slot
      ensures TombKeys(Survivors(m.slots.At(slot), m.base)) <= LiveTombs(m.slots.At(slot), m.base).Keys
      ensures SlotAtLeastBase(Survivors(m.slots.At(slot), m.base), m.base)
    {
      KeptAreTombs(m.slots.At(slot), m.base);
      assert SlotAtLeastBase(m.slots.At(slot), m.base);
    }
  }

  /** One published merge, read back, says exactly what the merge says. */
  lemma MergeStep(a: Normalized, b: Normalized, publishedAt: int)
    requires AtLeastBase(a) && AtLeastBase(b) && Shaped(a) && Shaped(b) && TombsFit(a, b)
    ensures var n := Normalize(Stamped(Denormalize(MergeNormalized(a, b)), publishedAt));
            && SameView(n, MergeNormalized(a, b))
            && AtLeastBase(n)
            && (forall slot: Slot :: TombKeys(n.slots.At(slot)) <= TombKeys(a.slots.At(slot)) + TombKeys(b.slots.At(slot)))
  {
    var m := MergeNormalized(a, b);
    MergeKeepsInvariant(a, b);
    MergeKeepsShape(a, b);
    forall slot: Slot
      ensures LiveTombs(m.slots.At(slot), m.base).Keys <= TombKeys(a.slots.At(slot)) + TombKeys(b.slots.At(slot))
      ensures |LiveTombs(m.slots.At(slot), m.base)| <= MAX_SETTINGS_TOMBSTONES
    {
      MergedTombsFit(a, b, slot);
    }
    forall slot: Slot
      ensures Lossless(m.slots.At(slot), m.base)
    {
      assert SlotAtLeastBase(m.slots.At(slot), m.base);
    }
    LosslessIff(m, publishedAt);
    RereadKeepsInvariant(m, publishedAt);
  }

  /** Whatever the grouping, a history says about each key the best its sources say. */
  lemma {:induction false} EvalIsBest(h: History)
    requires InForm(Sources(h))
    ensures var n := Normalize(Eval(h));
            && AtLeastBase(n) && n.oddNotes == map[]
            && IsTopBase(n.base, Sources(h))
            && (forall slot: Slot :: TombKeys(n.slots.At(slot)) <= AllTombKeys(Sources(h), slot))
            && (forall slot: Slot, k :: IsBest(ViewOf(Eval(h), slot, k), Sources(h), slot, k))
  {
    match h
    case Read(doc) =>
      forall slot: Slot, k
        ensures IsBest(ViewOf(doc, slot, k), Sources(h), slot, k)
      {
        assert doc in Sources(h);
      }
      assert doc in Sources(h);
    case Merge(l, r, t) =>
      InFormSubset(Sources(l), Sources(h));
      InFormSubset(Sources(r), Sources(h));
      EvalIsBest(l);
      EvalIsBest(r);
      var a, b := Eval(l), Eval(r);
      HistoryTombsFit(l, r, t);
      NormalizeShaped(a);
      NormalizeShaped(b);
      MergeStep(Normalize(a), Normalize(b), t);
      MergeViews(Normalize(Eval(h)), Normalize(a), Normalize(b));
      MergeTopBase(l, r, t);
      forall slot: Slot, k
        ensures IsBest(ViewOf(Eval(h), slot, k), Sources(h), slot, k)
      {
        BestOfBoth(l, r, t, slot, k);
      }
  }

  lemma HistoryTombsFit(l: History, r: History, t: int)
    requires InForm(Sources(Merge(l, r, t)))
    requires forall slot: Slot :: TombKeys(Normalize(Eval(l)).slots.At(slot)) <= AllTombKeys(Sources(l), slot)
    requires forall slot: Slot :: TombKeys(Normalize(Eval(r)).slots.At(slot)) <= AllTombKeys(Sources(r), slot)
    ensures TombsFit(Normalize(Eval(l)), Normalize(Eval(r)))
    ensures forall slot: Slot :: TombKeys(Normalize(Eval(l)).slots.At(slot)) + TombKeys(Normalize(Eval(r)).slots.At(slot))
                                 <= AllTombKeys(Sources(Merge(l, r, t)), slot)
  {
    var docs := Sources(Merge(l, r, t));
    forall slot: Slot
      ensures TombKeys(Normalize(Eval(l)).slots.At(slot)) + TombKeys(Normalize(Eval(r)).slots.At(slot)) <= AllTombKeys(docs, slot)
      ensures |TombKeys(Normalize(Eval(l)).slots.At(slot)) + TombKeys(Normalize(Eval(r)).slots.At(slot))| <= MAX_SETTINGS_TOMBSTONES
    {
      assert AllTombKeys(Sources(l), slot) <= AllTombKeys(docs, slot);
      assert AllTombKeys(Sources(r), slot) <= AllTombKeys(docs, slot);
      SubsetSize(TombKeys(Normalize(Eval(l)).slots.At(slot)) + TombKeys(Normalize(Eval(r)).slots.At(slot)), AllTombKeys(docs, slot));
    }
  }

  lemma MergeViews(n: Normalized, a: Normalized, b: Normalized)
    requires SameView(n, MergeNormalized(a, b))
    ensures forall slot: Slot, k :: Look(n.slots.At(slot), n.base, k) ==
                                    Win(Look(a.slots.At(slot), a.base, k), Look(b.slots.At(slot), b.base, k))
  {
    var m := MergeNormalized(a, b);
    forall slot: Slot, k
      ensures Look(n.slots.At(slot), n.base, k) == Win(Look(a.slots.At(slot), a.base, k), Look(b.slots.At(slot), b.base, k))
    {
      assert SlotSameView(n.slots.At(slot), n.base, m.slots.At(slot), m.base);
      assert Look(n.slots.At(slot), n.base, k) == Look(m.slots.At(slot), m.base, k);
      LookMerged(a, b, slot, k);
    }
  }

  lemma MergeTopBase(l: History, r: History, t: int)
    requires IsTopBase(BaseOf(Eval(l)), Sources(l)) && IsTopBase(BaseOf(Eval(r)), Sources(r))
    ensures IsTopBase(Max(BaseOf(Eval(l)), BaseOf(Eval(r))), Sources(Merge(l, r, t)))
  {
    var dl :| dl in Sources(l) && BaseOf(dl) == BaseOf(Eval(l));
    var dr :| dr in Sources(r) && BaseOf(dr) == BaseOf(Eval(r));
    assert dl in Sources(Merge(l, r, t)) && dr in Sources(Merge(l, r, t));
  }

  lemma BestOfBoth(l: History, r: History, t: int, slot: Slot, k: string)
    requires IsBest(ViewOf(Eval(l), slot, k), Sources(l), slot, k)
    requires IsBest(ViewOf(Eval(r), slot, k), Sources(r), slot, k)
    ensures IsBest(Win(ViewOf(Eval(l), slot, k), ViewOf(Eval(r), slot, k)), Sources(Merge(l, r, t)), slot, k)
  {
    var el, er := ViewOf(Eval(l), slot, k), ViewOf(Eval(r), slot, k);
    WinIsUpperBound(el, er);
    forall d <- Sources(Merge(l, r, t))
      ensures Le(ViewOf(d, slot, k), Win(el, er))
    {
      LeTransitive(ViewOf(d, slot, k), if d in Sources(l) then el else er, Win(el, er));
    }
    var dl :| dl in Sources(l) && ViewOf(dl, slot, k) == el;
    var dr :| dr in Sources(r) && ViewOf(dr, slot, k) == er;
    var d := if Win(el, er) == el then dl else dr;
    assert d in Sources(Merge(l, r, t)) && ViewOf(d, slot, k) == Win(el, er);
  }

  lemma BestIsUnique(e: Entry, f: Entry, docs: set<Stamped>, slot: Slot, k: string)
    requires IsBest(e, docs, slot, k) && IsBest(f, docs, slot, k)
    ensures e == f
  {
    WinCommutes(e, f);
  }

  lemma SameBestSameView(a: Stamped, b: Stamped, docs: set<Stamped>)
    requires Normalize(a).oddNotes == Normalize(b).oddNotes
    requires IsTopBase(Normalize(a).base, docs) && IsTopBase(Normalize(b).base, docs)
    requires forall slot: Slot, k :: IsBest(ViewOf(a, slot, k), docs, slot, k) && IsBest(ViewOf(b, slot, k), docs, slot, k)
    ensures SameView(Normalize(a), Normalize(b))
  {
    var na, nb := Normalize(a), Normalize(b);
    forall slot: Slot
      ensures SlotSameView(na.slots.At(slot), na.base, nb.slots.At(slot), nb.base)
    {
      forall k
        ensures Look(na.slots.At(slot), na.base, k) == Look(nb.slots.At(slot), nb.base, k)
      {
        BestIsUnique(ViewOf(a, slot, k), ViewOf(b, slot, k), docs, slot, k);
      }
    }
  }

  /** Replicas converge: two histories over the same documents, merged in whatever
      order, grouping and repetition, publish the same document: the same lists in
      the same order, notes, clock and base. */
  lemma ReplicasConverge(g: History, h: History)
    requires g.Merge? && h.Merge?
    requires Sources(g) == Sources(h) && InForm(Sources(g))
    ensures Eval(g).settings == Eval(h).settings
  {
    EvalIsBest(g);
    EvalIsBest(h);
    SameBestSameView(Eval(g), Eval(h), Sources(g));
    MergeIsItsView(g);
    MergeIsItsView(h);
    WriteRespectsView(Normalize(Eval(g)), Normalize(Eval(h)));
  }

  /** A merged document is rewritten unchanged. */
  lemma MergeIsItsView(h: History)
    requires h.Merge? && InForm(Sources(h))
    ensures Denormalize(Normalize(Eval(h))) == Eval(h).settings
  {
    InFormSubset(Sources(h.left), Sources(h));
    InFormSubset(Sources(h.right), Sources(h));
    EvalIsBest(h.left);
    EvalIsBest(h.right);
    var a, b := Eval(h.left), Eval(h.right);
    HistoryTombsFit(h.left, h.right, h.publishedAt);
    NormalizeShaped(a);
    NormalizeShaped(b);
    MergeStep(Normalize(a), Normalize(b), h.publishedAt);
    WriteRespectsView(Normalize(Eval(h)), MergeNormalized(Normalize(a), Normalize(b)));
  }
}
