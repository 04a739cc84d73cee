/** Edits and legacy documents, and the two conditions convergence rests on. */
module SettingsEdits {
  import opened Wrappers
  import opened Ordering
  import opened Text
  import opened Sequences
  import opened SettingsMerge
  import opened SettingsLaws

  /** Notes are keyed by a public key. */
  predicate NamesPubkey(edit: Edit) {
    edit.Note? ==> IsHex64(edit.pubkey)
  }

  lemma TrimmedIsEmptyOrNot(edit: Edit, n: Normalized, nowMs: int)
    ensures var e := EditEntry(n, edit, nowMs);
            (EditSlot(edit) != Notes || !e.present ==> e.text == "") && e.at > n.base
            && e.at > Look(n.slots.At(EditSlot(edit)), n.base, edit.pubkey).at
  {
  }

  lemma EditKeepsShape(n: Normalized, edit: Edit, nowMs: int)
    requires Shaped(n) && NamesPubkey(edit)
    ensures Shaped(EditNormalized(n, edit, nowMs))
  {
    var m := EditNormalized(n, edit, nowMs);
    TrimmedIsEmptyOrNot(edit, n, nowMs);
    forall slot: Slot
      ensures SlotShaped(m.slots.At(slot), slot)
    {
      assert SlotShaped(n.slots.At(slot), slot);
      if slot == EditSlot(edit) {
        assert m.slots.At(slot) == n.slots.At(slot)[edit.pubkey := EditEntry(n, edit, nowMs)];
      } else {
        assert m.slots.At(slot) == n.slots.At(slot);
      }
    }
  }

  /** The stamp-at-least-base invariant survives every edit, once written and read back. */
  lemma EditKeepsInvariant(d: Stamped, edit: Edit, nowMs: int, publishedAt: int)
    requires AtLeastBase(Normalize(d)) && NamesPubkey(edit)
    ensures AtLeastBase(Normalize(Stamped(Edited(d, edit, nowMs), publishedAt)))
  {
    var n := Normalize(d);
    NormalizeShaped(d);
    EditKeepsShape(n, edit, nowMs);
    var m := EditNormalized(n, edit, nowMs);
    TrimmedIsEmptyOrNot(edit, n, nowMs);
    forall slot: Slot
      ensures SlotAtLeastBase(m.slots.At(slot), m.base)
    {
      assert SlotAtLeastBase(n.slots.At(slot), n.base);
      if slot == EditSlot(edit) {
        assert m.slots.At(slot) == n.slots.At(slot)[edit.pubkey := EditEntry(n, edit, nowMs)];
      } else {
        assert m.slots.At(slot) == n.slots.At(slot);
      }
    }
    RereadKeepsInvariant(m, publishedAt);
  }

  /** The edited entry is in the written document: a removal was not dropped by the cap. */
  ghost predicate EditSurvives(n: Normalized, edit: Edit, nowMs: int) {
    var e := EditNormalized(n, edit, nowMs);
    edit.pubkey in Survivors(e.slots.At(EditSlot(edit)), e.base)
  }

  /** The removals of the field that are newer than `k`'s, in emission order. */
  ghost function NewerTombs(m: Entries, base: nat, k: string): set<string>
    requires k in m
  {
    set x | x in LiveTombs(m, base) && Before(m, k, x)
  }

  lemma AfterIndex(s: seq<string>, m: Entries, i: nat)
    requires Sorted(s, m) && i < |s|
    ensures |set x | x in s && Before(m, s[i], x)| == |s| - i - 1
  {
    SortedDistinct(s, m);
    var tail := s[i + 1..];
    DistinctLength(tail);
    var after := set x | x in s && Before(m, s[i], x);
    forall x
      ensures x in after <==> x in tail
    {
      if x in after {
        var j :| 0 <= j < |s| && s[j] == x;
        if j < i { assert Before(m, s[j], s[i]); }
        StrLessAsymmetric(x, s[i]);
        assert j > i && tail[j - i - 1] == x;
      }
      if x in tail {
        var j :| 0 <= j < |tail| && tail[j] == x;
        assert Before(m, s[i], s[i + 1 + j]);
      }
    }
    assert after == set x <- tail;
  }

  /** A live removal is written if and only if fewer newer ones than the cap are held. */
  lemma KeptIff(m: Entries, base: nat, k: string)
    requires k in LiveTombs(m, base)
    ensures k in KeptTombs(m, base) <==> |NewerTombs(m, base, k)| < MAX_SETTINGS_TOMBSTONES
  {
    var tombs := LiveTombs(m, base);
    var s := Ordered(tombs);
    assert k in s;
    var i :| 0 <= i < |s| && s[i] == k;
    SortedInLarger(s, tombs, m);
    AfterIndex(s, m, i);
    assert NewerTombs(m, base, k) == set x | x in s && Before(m, s[i], x);
    SortedDistinct(s, m);
    if |s| > MAX_SETTINGS_TOMBSTONES {
      var cut := |s| - MAX_SETTINGS_TOMBSTONES;
      if i >= cut { assert s[cut..][i - cut] == k; }
      if k in s[cut..] {
        var j :| 0 <= j < |s[cut..]| && s[cut..][j] == k;
        assert s[cut + j] == s[i];
      }
    }
  }

  /** The removals of the edited field that the document read holds with a stamp later than
      the edit's. */
  function NewerRemovals(n: Normalized, edit: Edit, nowMs: int): set<string> {
    var held := n.slots.At(EditSlot(edit));
    var at := EditEntry(n, edit, nowMs).at;
    set x | x in LiveTombs(held, n.base) && x != edit.pubkey && (held[x].at > at || (held[x].at == at && StrLess(edit.pubkey, x)))
  }

  lemma NewerThanRemoval(held: Entries, base: nat, key: string, e: Entry)
    requires !e.present && e.at > base
    ensures key in LiveTombs(held[key := e], base)
    ensures NewerTombs(held[key := e], base, key) ==
              set x | x in LiveTombs(held, base) && x != key && (held[x].at > e.at || (held[x].at == e.at && StrLess(key, x)))
  {
    StrLessAsymmetric(key, key);
    var m := held[key := e];
    forall x
      ensures x in NewerTombs(m, base, key) <==>
                x in LiveTombs(held, base) && x != key && (held[x].at > e.at || (held[x].at == e.at && StrLess(key, x)))
    {
    }
  }

  /** An edit is written unless it is a removal older than a capful of removals already held. */
  lemma EditSurvivesIff(n: Normalized, edit: Edit, nowMs: int)
    ensures EditSurvives(n, edit, nowMs) <==>
              EditEntry(n, edit, nowMs).present || |NewerRemovals(n, edit, nowMs)| < MAX_SETTINGS_TOMBSTONES
  {
    hide NewerTombs, KeptTombs, LiveTombs, Before, StrLess, EditEntry, EditNormalized;
    var held, e := n.slots.At(EditSlot(edit)), EditEntry(n, edit, nowMs);
    var m := held[edit.pubkey := e];
    TrimmedIsEmptyOrNot(edit, n, nowMs);
    EditedSlot(n, edit, nowMs, EditSlot(edit));
    if !e.present {
      NewerThanRemoval(held, n.base, edit.pubkey, e);
      assert NewerRemovals(n, edit, nowMs) == NewerTombs(m, n.base, edit.pubkey);
      KeptIff(m, n.base, edit.pubkey);
    }
  }

  /** A removal is always in the written document while the tombstones fit the cap. */
  lemma EditSurvivesWithinCap(n: Normalized, edit: Edit, nowMs: int)
    requires |LiveTombs(EditNormalized(n, edit, nowMs).slots.At(EditSlot(edit)), n.base)| <= MAX_SETTINGS_TOMBSTONES
    ensures EditSurvives(n, edit, nowMs)
  {
    var m := EditNormalized(n, edit, nowMs).slots.At(EditSlot(edit));
    TrimmedIsEmptyOrNot(edit, n, nowMs);
    assert m[edit.pubkey] == EditEntry(n, edit, nowMs);
    if !m[edit.pubkey].present {
      var tombs := LiveTombs(m, n.base);
      ListingLength(Ordered(tombs), tombs);
      assert edit.pubkey in tombs;
      assert edit.pubkey in Ordered(tombs);
    }
  }

  /** What a write tells of one entry: nothing, when it says no more than `base` does. */
  function Told(e: Entry, base: nat): Option<Entry> {
    if e.present || e.at > base then Some(e) else None
  }

  lemma ToldFixesEntries(a: Entries, b: Entries, base: nat)
    requires forall k :: Told(Look(a, base, k), base) == Told(Look(b, base, k), base)
    ensures Survivors(a, base) == Survivors(b, base)
  {
    forall k
      ensures k in Present(a) <==> k in Present(b)
      ensures k in LiveTombs(a, base) <==> k in LiveTombs(b, base)
      ensures k in Present(a) || k in LiveTombs(a, base) ==> a[k] == b[k]
    {
      assert Told(Look(a, base, k), base) == Told(Look(b, base, k), base);
    }
    assert LiveTombs(a, base) == LiveTombs(b, base);
    SamePartsSurvive(a, b, base);
  }

  /** One key left alone: the written document and the one read tell the same. */
  lemma KeyLeftAlone(before: Entries, after: Entries, base: nat, k: string, slot: Slot)
    requires SlotShaped(before, slot) && Look(after, base, k) == Look(before, base, k)
    requires k in after <==> k in before
    ensures var mine, theirs := Look(Survivors(after, base), base, k), Look(before, base, k);
            Told(Win(mine, theirs), base) == Told(Win(theirs, mine), base) == Told(Look(after, base, k), base)
  {
    KeptAreTombs(after, base);
  }

  /** A newer entry that was written wins over what it replaced. */
  lemma NewerKeyWins(before: Entries, after: Entries, base: nat, key: string)
    requires key in after && key in Survivors(after, base) && after[key].at > Look(before, base, key).at
    ensures var mine, theirs := Look(Survivors(after, base), base, key), Look(before, base, key);
            Told(Win(mine, theirs), base) == Told(Win(theirs, mine), base) == Told(Look(after, base, key), base)
  {
  }

  /** A field as edited, written, and merged with the field it was made on. */
  lemma SlotEditWins(before: Entries, after: Entries, base: nat, key: string, e: Entry, slot: Slot)
    requires SlotShaped(before, slot)
    requires after == before || (after == before[key := e] && e.at > Look(before, base, key).at && key in Survivors(after, base))
    ensures Survivors(MergeEntries(Survivors(after, base), base, before, base), base) == Survivors(after, base)
    ensures Survivors(MergeEntries(before, base, Survivors(after, base), base), base) == Survivors(after, base)
  {
    var written := Survivors(after, base);
    var wb, bw := MergeEntries(written, base, before, base), MergeEntries(before, base, written, base);
    forall k
      ensures Told(Look(wb, base, k), base) == Told(Look(after, base, k), base)
      ensures Told(Look(bw, base, k), base) == Told(Look(after, base, k), base)
    {
      LookMerge(written, base, before, base, k);
      LookMerge(before, base, written, base, k);
      if after == before || k != key {
        KeyLeftAlone(before, after, base, k, slot);
      } else {
        NewerKeyWins(before, after, base, key);
      }
    }
    ToldFixesEntries(wb, after, base);
    ToldFixesEntries(bw, after, base);
  }

  lemma BeforeTransitive(m: Entries, x: string, y: string, z: string)
    requires x in m && y in m && z in m && Before(m, x, y) && Before(m, y, z)
    ensures Before(m, x, z) && x != z
  {
    if m[x].at == m[y].at == m[z].at { StrLessTransitive(x, y, z); }
    StrLessAsymmetric(x, x);
  }

  /** Forgetting a removal the cap dropped anyway drops no other. */
  lemma ForgettingTheDropped(m: Entries, m': Entries, base: nat, k: string)
    requires k in LiveTombs(m, base) && k !in KeptTombs(m, base)
    requires LiveTombs(m', base) == LiveTombs(m, base) - {k}
    ensures KeptTombs(m', base) == KeptTombs(m, base)
  {
    KeptIff(m, base, k);
    forall x
      ensures x in KeptTombs(m', base) <==> x in KeptTombs(m, base)
    {
      if x in LiveTombs(m', base) {
        assert m'[x] == m[x] by { assert LiveTombs(m', base)[x] == LiveTombs(m, base)[x]; }
        KeptIff(m, base, x);
        KeptIff(m', base, x);
        NewerWithout(m, m', base, k, x);
      } else {
        KeptAreLive(m', base);
        KeptAreLive(m, base);
      }
    }
  }

  lemma KeptAreLive(m: Entries, base: nat)
    ensures forall x <- KeptTombs(m, base) :: x in LiveTombs(m, base)
  {
    KeptAreTombs(m, base);
  }

  lemma NewerWithout(m: Entries, m': Entries, base: nat, k: string, x: string)
    requires k in LiveTombs(m, base) && |NewerTombs(m, base, k)| >= MAX_SETTINGS_TOMBSTONES
    requires LiveTombs(m', base) == LiveTombs(m, base) - {k} && x in LiveTombs(m', base)
    ensures |NewerTombs(m', base, x)| < MAX_SETTINGS_TOMBSTONES <==> |NewerTombs(m, base, x)| < MAX_SETTINGS_TOMBSTONES
  {
    var live := LiveTombs(m, base);
    assert forall y <- LiveTombs(m', base) :: y in live && LiveTombs(m', base)[y] == live[y];
    assert NewerTombs(m', base, x) == NewerTombs(m, base, x) - {k};
    if k in NewerTombs(m, base, x) {
      forall y | y in NewerTombs(m, base, k)
        ensures y in NewerTombs(m', base, x)
      {
        BeforeTransitive(m, x, k, y);
        StrLessAsymmetric(k, k);
      }
      SubsetSize(NewerTombs(m, base, k), NewerTombs(m', base, x));
      SubsetSize(NewerTombs(m', base, x), NewerTombs(m, base, x));
    }
  }

  /** A field whose removal the cap dropped, merged with the field it was made on: where the
      removed entry was stamped below the base, the removal stands all the same. */
  lemma SlotDroppedBelowBase(before: Entries, base: nat, key: string, e: Entry, slot: Slot)
    requires SlotShaped(before, slot) && !e.present && e.at > base
    requires Look(before, base, key).present && Look(before, base, key).at < base
    requires key !in Survivors(before[key := e], base)
    ensures var after := before[key := e];
            && Survivors(MergeEntries(Survivors(after, base), base, before, base), base) == Survivors(after, base)
            && Survivors(MergeEntries(before, base, Survivors(after, base), base), base) == Survivors(after, base)
  {
    var after := before[key := e];
    var written := Survivors(after, base);
    var wb, bw := MergeEntries(written, base, before, base), MergeEntries(before, base, written, base);
    forall k | k != key
      ensures Told(Look(wb, base, k), base) == Told(Look(after, base, k), base)
      ensures Told(Look(bw, base, k), base) == Told(Look(after, base, k), base)
    {
      LookMerge(written, base, before, base, k);
      LookMerge(before, base, written, base, k);
      KeyLeftAlone(before, after, base, k, slot);
    }
    LookMerge(written, base, before, base, key);
    LookMerge(before, base, written, base, key);
    ToldButOne(wb, after, base, key);
    ToldButOne(bw, after, base, key);
  }

  lemma PartsButOne(a: Entries, b: Entries, base: nat, key: string)
    requires forall k | k != key :: Told(Look(a, base, k), base) == Told(Look(b, base, k), base)
    requires Told(Look(a, base, key), base) == None && key in LiveTombs(b, base)
    ensures Present(a) == Present(b) && LiveTombs(a, base) == LiveTombs(b, base) - {key}
  {
    forall k
      ensures k in Present(a) <==> k in Present(b)
      ensures k in LiveTombs(a, base) <==> k in LiveTombs(b, base) && k != key
      ensures k in Present(a) || k in LiveTombs(a, base) ==> a[k] == b[k]
    {
      if k != key { assert Told(Look(a, base, k), base) == Told(Look(b, base, k), base); }
    }
  }

  lemma KeptAgree(a: Entries, b: Entries, base: nat, key: string)
    requires LiveTombs(a, base) == LiveTombs(b, base) - {key}
    ensures forall k <- KeptTombs(a, base) :: k in a && k in b && a[k] == b[k]
  {
    hide KeptTombs;
    KeptAreLive(a, base);
    forall k <- KeptTombs(a, base)
      ensures k in a && k in b && a[k] == b[k]
    {
      assert LiveTombs(a, base)[k] == LiveTombs(b, base)[k];
    }
  }

  lemma ToldButOne(a: Entries, b: Entries, base: nat, key: string)
    requires forall k | k != key :: Told(Look(a, base, k), base) == Told(Look(b, base, k), base)
    requires Told(Look(a, base, key), base) == None
    requires key in LiveTombs(b, base) && key !in KeptTombs(b, base)
    ensures Survivors(a, base) == Survivors(b, base)
  {
    hide Told, Look, Present, LiveTombs, KeptTombs, Survivors;
    PartsButOne(a, b, base, key);
    ForgettingTheDropped(b, a, base, key);
    KeptAgree(a, b, base, key);
    SamePartsSurvive(a, b, base);
  }

  lemma EditedSlot(n: Normalized, edit: Edit, nowMs: int, slot: Slot)
    ensures EditNormalized(n, edit, nowMs).slots.At(slot) ==
              if slot == EditSlot(edit) then n.slots.At(slot)[edit.pubkey := EditEntry(n, edit, nowMs)] else n.slots.At(slot)
    ensures EditNormalized(n, edit, nowMs).base == n.base
  {
  }

  /** The edit stands against the document it was made on: it was written, or what it
      removed was stamped below the base. */
  ghost predicate EditStands(n: Normalized, edit: Edit, nowMs: int) {
    EditSurvives(n, edit, nowMs) || Look(n.slots.At(EditSlot(edit)), n.base, edit.pubkey).at < n.base
  }

  lemma SlotStands(n: Normalized, edit: Edit, nowMs: int, slot: Slot)
    requires Shaped(n) && EditStands(n, edit, nowMs)
    requires EditEntry(n, edit, nowMs).present || Look(n.slots.At(EditSlot(edit)), n.base, edit.pubkey).present
    ensures var after := EditNormalized(n, edit, nowMs).slots.At(slot);
            var written := Survivors(after, n.base);
            && Survivors(MergeEntries(written, n.base, n.slots.At(slot), n.base), n.base) == written
            && Survivors(MergeEntries(n.slots.At(slot), n.base, written, n.base), n.base) == written
  {
    var before, after := n.slots.At(slot), EditNormalized(n, edit, nowMs).slots.At(slot);
    var entry := EditEntry(n, edit, nowMs);
    TrimmedIsEmptyOrNot(edit, n, nowMs);
    EditedSlot(n, edit, nowMs, slot);
    assert SlotShaped(before, slot);
    if slot == EditSlot(edit) && !EditSurvives(n, edit, nowMs) {
      SlotDroppedBelowBase(before, n.base, edit.pubkey, entry, slot);
    } else {
      SlotEditWins(before, after, n.base, edit.pubkey, entry, slot);
    }
  }

  /** Merging a published edit that stands with the view it was made on rewrites the edit. */
  lemma EditWins(n: Normalized, r: Normalized, edit: Edit, nowMs: int)
    requires Shaped(n) && EditStands(n, edit, nowMs)
    requires EditEntry(n, edit, nowMs).present || Look(n.slots.At(EditSlot(edit)), n.base, edit.pubkey).present
    requires r.base == n.base && r.oddNotes == n.oddNotes
    requires forall slot: Slot :: r.slots.At(slot) == Survivors(EditNormalized(n, edit, nowMs).slots.At(slot), n.base)
    ensures Denormalize(MergeNormalized(r, n)) == Denormalize(MergeNormalized(n, r)) == Denormalize(EditNormalized(n, edit, nowMs))
  {
    var e := EditNormalized(n, edit, nowMs);
    var rn, nr := MergeNormalized(r, n), MergeNormalized(n, r);
    forall slot: Slot
      ensures Survivors(rn.slots.At(slot), rn.base) == Survivors(e.slots.At(slot), e.base)
      ensures Survivors(nr.slots.At(slot), nr.base) == Survivors(e.slots.At(slot), e.base)
    {
      SlotStands(n, edit, nowMs, slot);
      MergedSlot(r, n, slot);
      MergedSlot(n, r, slot);
    }
    assert n.oddNotes + r.oddNotes == n.oddNotes && r.oddNotes + n.oddNotes == n.oddNotes;
    WriteRespectsSurvivors(rn, e);
    WriteRespectsSurvivors(nr, e);
  }

  lemma MergedSlot(a: Normalized, b: Normalized, slot: Slot)
    ensures MergeNormalized(a, b).slots.At(slot) == MergeEntries(a.slots.At(slot), a.base, b.slots.At(slot), b.base)
  {
  }

  /** A removal the cap dropped is undone by the very document it was made on. */
  lemma DroppedEditLoses(n: Normalized, r: Normalized, e: Normalized, slot: Slot, k: string)
    requires slot == Notes ==> k !in n.oddNotes && k !in r.oddNotes && k !in e.oddNotes
    requires Look(n.slots.At(slot), n.base, k).present
    requires k !in r.slots.At(slot) && r.base == n.base
    requires !Look(e.slots.At(slot), e.base, k).present
    requires Look(n.slots.At(slot), n.base, k).at >= n.base
    ensures Denormalize(MergeNormalized(r, n)) != Denormalize(e)
  {
    LookMerged(r, n, slot, k);
    WrittenAsPresent(MergeNormalized(r, n), slot, k);
    WrittenAsPresent(e, slot, k);
  }

  /** Whether a written document shows an entry: in its list, or among its notes. */
  lemma WrittenAsPresent(n: Normalized, slot: Slot, k: string)
    requires slot == Notes ==> k !in n.oddNotes
    ensures Look(n.slots.At(slot), n.base, k).present <==>
            if slot == Notes then k in Denormalize(n).notes else k in Denormalize(n).List(slot)
  {
  }

  /** An edit beats the document it was made on, even from a device whose clock runs
      behind: merging the two, in either order, republishes the edited document. For every
      document it holds exactly unless the edit is a removal, the document already holds a
      capful of removals stamped later than it, and the entry removed was stamped at or
      above the document's base. */
  lemma EditBeatsItsDocumentIff(d: Stamped, edit: Edit, nowMs: int, publishedAt: int)
    requires NamesPubkey(edit)
    requires edit.Note? && Trim(edit.text) == "" ==> edit.pubkey in d.settings.notes
    ensures var e := Edited(d, edit, nowMs);
            Merged(Stamped(e, publishedAt), d) == Merged(d, Stamped(e, publishedAt)) == e
            <==> EditEntry(Normalize(d), edit, nowMs).present
                 || |NewerRemovals(Normalize(d), edit, nowMs)| < MAX_SETTINGS_TOMBSTONES
                 || ViewOf(d, EditSlot(edit), edit.pubkey).at < BaseOf(d)
  {
    var n := Normalize(d);
    NormalizeShaped(d);
    EditSurvivesIff(n, edit, nowMs);
    if !EditEntry(n, edit, nowMs).present { RemovedWasPresent(d, edit, nowMs); }
    if EditStands(n, edit, nowMs) {
      StandingEditWins(n, edit, nowMs, publishedAt);
    } else {
      DroppedRemovalReturns(n, edit, nowMs, publishedAt);
    }
  }

  lemma StandingEditWins(n: Normalized, edit: Edit, nowMs: int, publishedAt: int)
    requires Shaped(n) && NamesPubkey(edit) && EditStands(n, edit, nowMs)
    requires EditEntry(n, edit, nowMs).present || Look(n.slots.At(EditSlot(edit)), n.base, edit.pubkey).present
    ensures var e := EditNormalized(n, edit, nowMs);
            var r := Normalize(Stamped(Denormalize(e), publishedAt));
            Denormalize(MergeNormalized(r, n)) == Denormalize(MergeNormalized(n, r)) == Denormalize(e)
  {
    var e := EditNormalized(n, edit, nowMs);
    EditKeepsShape(n, edit, nowMs);
    Reread(e, publishedAt);
    EditWins(n, Normalize(Stamped(Denormalize(e), publishedAt)), edit, nowMs);
  }

  lemma DroppedRemovalReturns(n: Normalized, edit: Edit, nowMs: int, publishedAt: int)
    requires Shaped(n) && NamesPubkey(edit) && !EditStands(n, edit, nowMs)
    requires Look(n.slots.At(EditSlot(edit)), n.base, edit.pubkey).present
    ensures var e := EditNormalized(n, edit, nowMs);
            Denormalize(MergeNormalized(Normalize(Stamped(Denormalize(e), publishedAt)), n)) != Denormalize(e)
  {
    var e := EditNormalized(n, edit, nowMs);
    var slot := EditSlot(edit);
    EditKeepsShape(n, edit, nowMs);
    Reread(e, publishedAt);
    var r := Normalize(Stamped(Denormalize(e), publishedAt));
    assert e.slots.At(slot) == n.slots.At(slot)[edit.pubkey := EditEntry(n, edit, nowMs)];
    DroppedEditLoses(n, r, e, slot, edit.pubkey);
  }

  lemma RemovedWasPresent(d: Stamped, edit: Edit, nowMs: int)
    requires NamesPubkey(edit) && !EditEntry(Normalize(d), edit, nowMs).present
    requires edit.Note? ==> edit.pubkey in d.settings.notes
    ensures Look(Normalize(d).slots.At(EditSlot(edit)), BaseOf(d), edit.pubkey).present
  {
    assert Normalize(d).slots.At(Notes) == SlotEntries(d, Notes);
  }

  lemma ListOfSlot(n: Normalized, slot: ListSlot, k: string)
    ensures k in Denormalize(n).List(slot) <==> Look(n.slots.At(slot), n.base, k).present
  {
  }

  lemma PresentInList(d: Stamped, slot: ListSlot, k: string)
    ensures var n := Normalize(d); Look(n.slots.At(slot), n.base, k).present <==> k in d.settings.List(slot)
  {
    assert Normalize(d).slots.At(slot) == SlotEntries(d, slot);
  }

  /** An edit flips exactly the entry it names, and no other entry of any list. */
  lemma EditDoesWhatItSays(d: Stamped, edit: Edit, nowMs: int, slot: ListSlot, k: string)
    ensures k in Edited(d, edit, nowMs).List(slot) <==>
            ((k in d.settings.List(slot)) != (edit.Toggle? && edit.slot == slot && edit.pubkey == k))
  {
    var n := Normalize(d);
    ListOfSlot(EditNormalized(n, edit, nowMs), slot, k);
    PresentInList(d, slot, k);
    EditedSlot(n, edit, nowMs, slot);
  }

  /** The notes written after one entry changed. */
  lemma WrittenNotes(d: Stamped, pubkey: string, e: Entry)
    requires IsHex64(pubkey)
    ensures var notes := OddNotes(d.settings.notes) + TextsOut(SlotEntries(d, Notes)[pubkey := e]);
            && (pubkey in notes <==> e.present) && (pubkey in notes ==> notes[pubkey] == e.text)
            && forall k | k != pubkey :: (k in notes <==> k in d.settings.notes) && (k in notes ==> notes[k] == d.settings.notes[k])
  {
  }

  /** A note edit stores the trimmed text, or clears the note when nothing is left. */
  lemma NoteEditDoesWhatItSays(d: Stamped, pubkey: string, text: string, nowMs: int)
    requires IsHex64(pubkey)
    ensures var notes := Edited(d, Note(pubkey, text), nowMs).notes;
            && (pubkey in notes <==> Trim(text) != "")
            && (pubkey in notes ==> notes[pubkey] == Trim(text))
            && forall k | k != pubkey :: (k in notes <==> k in d.settings.notes) && (k in notes ==> notes[k] == d.settings.notes[k])
  {
    var n := Normalize(d);
    var entry := EditEntry(n, Note(pubkey, text), nowMs);
    EditedSlot(n, Note(pubkey, text), nowMs, Notes);
    WrittenNotes(d, pubkey, entry);
    assert Edited(d, Note(pubkey, text), nowMs).notes == n.oddNotes + TextsOut(n.slots.At(Notes)[pubkey := entry]);
  }

  // ---------------------------------------------------------------- legacy documents

  /** Merging a legacy document written at T keeps exactly the entries stamped after T
      and the legacy view of everything older, add-wins on a tie; in either order. */
  lemma LegacyIsAWholeWrite(stamped: Stamped, legacy: Stamped, slot: ListSlot, k: string)
    requires legacy.settings.clock.None? && legacy.createdAt >= 0
    ensures var at := ViewOf(stamped, slot, k).at;
            var mine, theirs := k in stamped.settings.List(slot), k in legacy.settings.List(slot);
            var kept := if at > legacy.createdAt * 1000 then mine
                        else if at < legacy.createdAt * 1000 then theirs
                        else mine || theirs;
            && (k in Merged(stamped, legacy).List(slot) <==> kept)
            && (k in Merged(legacy, stamped).List(slot) <==> kept)
  {
    var ns, nl := Normalize(stamped), Normalize(legacy);
    LegacyView(legacy, slot, k);
    StampedView(stamped, slot, k);
    ListOfSlot(MergeNormalized(ns, nl), slot, k);
    ListOfSlot(MergeNormalized(nl, ns), slot, k);
    LookMerged(ns, nl, slot, k);
    LookMerged(nl, ns, slot, k);
  }

  lemma StampedView(d: Stamped, slot: ListSlot, k: string)
    ensures ViewOf(d, slot, k).present <==> k in d.settings.List(slot)
    ensures ViewOf(d, slot, k).text == ""
  {
    assert Normalize(d).slots.At(slot) == SlotEntries(d, slot);
  }

  lemma LegacyView(d: Stamped, slot: ListSlot, k: string)
    requires d.settings.clock.None? && d.createdAt >= 0
    ensures ViewOf(d, slot, k) == Entry(k in d.settings.List(slot), d.createdAt * 1000, "")
  {
    assert Normalize(d).slots.At(slot) == SlotEntries(d, slot);
  }

  // ---------------------------------------------------------------- what convergence rests on

  const NoStamps: PerSlot<Stamps> := PerSlot(map[], map[], map[], map[])

  /** A document that lists `k` in one field, stamped at `at`, and says nothing else. */
  function Sole(slot: ListSlot, k: string, at: nat): Stamped {
    Stamped(Settings(if slot == Favorites then [k] else [], if slot == WantToMeet then [k] else [], if slot == Met then [k] else [],
                     map[], Some(NoStamps.With(slot, map[k := at])), Some(0)), 0)
  }

  lemma SoleView(slot: ListSlot, k: string, at: nat)
    ensures ViewOf(Sole(slot, k, at), slot, k) == Entry(true, at, "")
  {
    var d := Sole(slot, k, at);
    assert Normalize(d).slots.At(slot) == SlotEntries(d, slot);
  }

  lemma MergedListing(a: Normalized, b: Normalized, slot: ListSlot, k: string)
    ensures k in Denormalize(MergeNormalized(a, b)).List(slot) <==>
              Win(Look(a.slots.At(slot), a.base, k), Look(b.slots.At(slot), b.base, k)).present
  {
    ListOfSlot(MergeNormalized(a, b), slot, k);
    LookMerged(a, b, slot, k);
  }

  /** Where a written field says something else than was meant, an addition at the older of
      the removal's stamp and the base tells the two apart. */
  lemma AddTellsApart(m: Entries, base: nat, k: string) returns (at: nat)
    requires (forall x <- m :: m[x].text == "") && Look(Survivors(m, base), base, k) != Look(m, base, k)
    ensures Win(Look(Survivors(m, base), base, k), Entry(true, at, "")).present != Win(Look(m, base, k), Entry(true, at, "")).present
  {
    at := if m[k].at < base then m[k].at else base;
  }

  /** What merging two documents lists. */
  ghost predicate Lists(a: Stamped, b: Stamped, slot: ListSlot, k: string) {
    k in Merged(a, b).List(slot)
  }

  /** What the best of three views lists. */
  ghost predicate BestLists(x: Stamped, y: Stamped, z: Stamped, slot: ListSlot, k: string) {
    Win(Win(ViewOf(x, slot, k), ViewOf(y, slot, k)), ViewOf(z, slot, k)).present
  }

  /** Everyone who merges the published merge of `x` and `y` sees what merging the three
      views would list. */
  ghost predicate RegroupsInto(x: Stamped, y: Stamped, slot: ListSlot, publishedAt: int) {
    forall z, k :: Lists(Stamped(Merged(x, y), publishedAt), z, slot, k) <==> BestLists(x, y, z, slot, k)
  }

  lemma PublishedMerge(x: Stamped, y: Stamped, slot: ListSlot, publishedAt: int)
    ensures var m := MergeNormalized(Normalize(x), Normalize(y));
            var r := Normalize(Stamped(Merged(x, y), publishedAt));
            && SlotShaped(m.slots.At(slot), slot)
            && r.base == m.base && r.slots.At(slot) == Survivors(m.slots.At(slot), m.base)
  {
    NormalizeShaped(x);
    NormalizeShaped(y);
    MergeKeepsShape(Normalize(x), Normalize(y));
    Reread(MergeNormalized(Normalize(x), Normalize(y)), publishedAt);
  }

  /** One more document read with the published merge, and with what the merge meant. */
  lemma OneMoreDocument(x: Stamped, y: Stamped, z: Stamped, slot: ListSlot, publishedAt: int, k: string)
    ensures var m := MergeNormalized(Normalize(x), Normalize(y));
            && (Lists(Stamped(Merged(x, y), publishedAt), z, slot, k) <==>
                  Win(Look(Survivors(m.slots.At(slot), m.base), m.base, k), ViewOf(z, slot, k)).present)
            && (BestLists(x, y, z, slot, k) <==> Win(Look(m.slots.At(slot), m.base, k), ViewOf(z, slot, k)).present)
  {
    PublishedMerge(x, y, slot, publishedAt);
    MergedListing(Normalize(Stamped(Merged(x, y), publishedAt)), Normalize(z), slot, k);
    LookMerged(Normalize(x), Normalize(y), slot, k);
  }

  /** Merging two documents first and others later is harmless for a list, whatever the
      others are, if and only if the merge of the two holds no removal stamped below its
      base and no more live removals than the cap. */
  lemma RegroupingIsHarmlessIff(x: Stamped, y: Stamped, slot: ListSlot, publishedAt: int)
    ensures var m := MergeNormalized(Normalize(x), Normalize(y));
            RegroupsInto(x, y, slot, publishedAt) <==> Lossless(m.slots.At(slot), m.base)
  {
    hide Win, Look, Lists, BestLists, Lossless, Survivors, ViewOf, Sole;
    var m := MergeNormalized(Normalize(x), Normalize(y));
    var full, kept := m.slots.At(slot), Survivors(m.slots.At(slot), m.base);
    PublishedMerge(x, y, slot, publishedAt);
    SlotLosslessIff(full, m.base, slot);
    if SlotSameView(kept, m.base, full, m.base) {
      forall z, k
        ensures Lists(Stamped(Merged(x, y), publishedAt), z, slot, k) <==> BestLists(x, y, z, slot, k)
      {
        assert Look(kept, m.base, k) == Look(full, m.base, k);
        OneMoreDocument(x, y, z, slot, publishedAt, k);
      }
    } else {
      var k :| Look(kept, m.base, k) != Look(full, m.base, k);
      var at := AddTellsApart(full, m.base, k);
      SoleView(slot, k, at);
      OneMoreDocument(x, y, Sole(slot, k, at), slot, publishedAt, k);
    }
  }

  lemma MergeWithItself(m: Entries, base: nat)
    ensures MergeEntries(m, base, m, base) == m
  {
  }

  /** Everyone who merges the published merge of `x` with itself sees what `x` would list. */
  ghost predicate RepeatsHarmlessly(x: Stamped, slot: ListSlot, publishedAt: int) {
    forall z, k :: Lists(Stamped(Merged(x, x), publishedAt), z, slot, k) <==> Lists(x, z, slot, k)
  }

  lemma RepeatedListing(x: Stamped, z: Stamped, slot: ListSlot, k: string)
    ensures Lists(x, z, slot, k) <==> BestLists(x, x, z, slot, k)
  {
    MergedListing(Normalize(x), Normalize(z), slot, k);
  }

  lemma RepeatingIsRegrouping(x: Stamped, slot: ListSlot, publishedAt: int)
    ensures RepeatsHarmlessly(x, slot, publishedAt) <==> RegroupsInto(x, x, slot, publishedAt)
  {
    forall z, k
      ensures Lists(x, z, slot, k) <==> BestLists(x, x, z, slot, k)
    {
      RepeatedListing(x, z, slot, k);
    }
  }

  lemma MergedWithItself(x: Stamped, slot: Slot)
    ensures var m := MergeNormalized(Normalize(x), Normalize(x));
            m.slots.At(slot) == SlotEntries(x, slot) && m.base == BaseOf(x)
  {
    var n := Normalize(x);
    assert n.slots.At(slot) == SlotEntries(x, slot);
    MergeWithItself(n.slots.At(slot), n.base);
  }

  /** Merging a document with itself is harmless for a list if and only if it holds no
      removal stamped below its base and no more live removals than the cap. */
  lemma RepeatingIsHarmlessIff(x: Stamped, slot: ListSlot, publishedAt: int)
    ensures RepeatsHarmlessly(x, slot, publishedAt) <==> Lossless(SlotEntries(x, slot), BaseOf(x))
  {
    RepeatingIsRegrouping(x, slot, publishedAt);
    RegroupingIsHarmlessIff(x, x, slot, publishedAt);
    MergedWithItself(x, slot);
  }

  /** So for a list merging associates whenever neither of the two merges made first is lossy. */
  lemma ListMergeAssociates(x: Stamped, y: Stamped, z: Stamped, slot: ListSlot, s: int, t: int, k: string)
    requires var m := MergeNormalized(Normalize(x), Normalize(y)); Lossless(m.slots.At(slot), m.base)
    requires var m := MergeNormalized(Normalize(y), Normalize(z)); Lossless(m.slots.At(slot), m.base)
    ensures Lists(Stamped(Merged(x, y), s), z, slot, k) <==> Lists(x, Stamped(Merged(y, z), t), slot, k)
  {
    var yz := Stamped(Merged(y, z), t);
    RegroupingIsHarmlessIff(x, y, slot, s);
    RegroupingIsHarmlessIff(y, z, slot, t);
    assert Lists(yz, x, slot, k) <==> BestLists(y, z, x, slot, k);
    MergedListing(Normalize(yz), Normalize(x), slot, k);
    MergedListing(Normalize(x), Normalize(yz), slot, k);
    WinCommutes(ViewOf(yz, slot, k), ViewOf(x, slot, k));
    WinCommutes(Win(ViewOf(y, slot, k), ViewOf(z, slot, k)), ViewOf(x, slot, k));
    WinAssociates(ViewOf(x, slot, k), ViewOf(y, slot, k), ViewOf(z, slot, k));
  }

  /** Removed `k` at 5 but claims to know everything up to 10. */
  function BelowBase(k: string): Stamped {
    Stamped(Settings([], [], [], map[], Some(NoStamps.(favorites := map[k := 5])), Some(10)), 0)
  }

  lemma BelowBaseView(k: string)
    ensures var m := SlotEntries(BelowBase(k), Favorites);
            && BaseOf(BelowBase(k)) == 10 && k in m && m[k] == Entry(false, 5, "")
            && !Lossless(m, 10) && k !in Survivors(m, 10)
  {
    var m := SlotEntries(BelowBase(k), Favorites);
    assert m[k] == Entry(false, 5, "");
    KeptAreTombs(m, 10);
  }

  /** A concrete document whose repetition loses an addition made at 7. */
  lemma BelowBaseDiverges(k: string)
    ensures var x, z := BelowBase(k), Sole(Favorites, k, 7);
            && k in Merged(x, z).favorites
            && k !in Merged(Stamped(Merged(x, x), 0), z).favorites
            && !Lossless(SlotEntries(x, Favorites), BaseOf(x))
  {
    hide BelowBase, SlotEntries, Sole, Lossless, Survivors, MergeEntries;
    var x, z := BelowBase(k), Sole(Favorites, k, 7);
    BelowBaseView(k);
    SoleView(Favorites, k, 7);
    RepeatedListing(x, z, Favorites, k);
    OneMoreDocument(x, x, z, Favorites, 0, k);
    MergedWithItself(x, Favorites);
    assert ViewOf(x, Favorites, k) == Entry(false, 5, "");
  }

  lemma ForgottenRemoval(n: Normalized, slot: ListSlot) returns (k: string)
    requires |LiveTombs(n.slots.At(slot), n.base)| > MAX_SETTINGS_TOMBSTONES
    ensures k in LiveTombs(n.slots.At(slot), n.base) && k !in Survivors(n.slots.At(slot), n.base)
  {
    var tombs := LiveTombs(n.slots.At(slot), n.base);
    var listing := Ordered(tombs);
    ListingLength(listing, tombs);
    k := listing[0];
    assert k in tombs by { assert k in listing; }
    OldestIsDropped(listing, tombs);
  }

  /** An addition at the base loses to a live removal, and wins where it was forgotten. */
  lemma OlderAdd(n: Normalized, stale: Normalized, slot: ListSlot, k: string)
    requires Look(stale.slots.At(slot), stale.base, k) == Entry(true, n.base, "")
    ensures k in LiveTombs(n.slots.At(slot), n.base) ==> k !in Denormalize(MergeNormalized(n, stale)).List(slot)
    ensures k !in n.slots.At(slot) ==> k in Denormalize(MergeNormalized(n, stale)).List(slot)
  {
    MergedListing(n, stale, slot, k);
  }

  /** Once the cap bites, a written document forgets a removal, and a stale copy brings back
      an entry that it could not have beaten. */
  lemma OverTheCapResurrects(n: Normalized, publishedAt: int, slot: ListSlot) returns (k: string)
    requires Shaped(n)
    requires |LiveTombs(n.slots.At(slot), n.base)| > MAX_SETTINGS_TOMBSTONES
    ensures var stale := Sole(slot, k, n.base);
            && k !in Denormalize(MergeNormalized(n, Normalize(stale))).List(slot)
            && k in Merged(Stamped(Denormalize(n), publishedAt), stale).List(slot)
  {
    k := ForgottenRemoval(n, slot);
    Reread(n, publishedAt);
    var r := Normalize(Stamped(Denormalize(n), publishedAt));
    assert r.slots.At(slot) == Survivors(n.slots.At(slot), n.base);
    SoleView(slot, k, n.base);
    OlderAdd(n, Normalize(Sole(slot, k, n.base)), slot, k);
    OlderAdd(r, Normalize(Sole(slot, k, n.base)), slot, k);
  }
}
