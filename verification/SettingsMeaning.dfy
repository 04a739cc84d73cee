/** What a settings document says of a key, read off its own fields, and in those terms what
    merges and edits write. */
module SettingsMeaning {
  import opened Wrappers
  import opened Ordering
  import opened Text
  import opened SettingsMerge
  import opened SettingsLaws
  import opened SettingsEdits

  // ---------------------------------------------------------------- what a document says

  predicate Listed(d: Settings, slot: Slot, k: string) {
    match slot
    case Favorites => k in d.favorites
    case WantToMeet => k in d.wantToMeet
    case Met => k in d.met
    case Notes => k in d.notes && IsHex64(k)
  }

  function Clock(d: Settings, slot: Slot): map<string, nat> {
    if d.clock.None? then map[]
    else
      match slot
      case Favorites => d.clock.value.favorites
      case WantToMeet => d.clock.value.wantToMeet
      case Met => d.clock.value.met
      case Notes => d.clock.value.notes
  }

  /** What the clock does not name counts as of here: the base, or the time a legacy
      document was published, in milliseconds. */
  function Ground(d: Stamped): nat {
    if d.settings.clock.None? then (if d.createdAt > 0 then 1000 * d.createdAt else 0)
    else if d.settings.base.Some? then d.settings.base.value else 0
  }

  function StampIn(d: Stamped, slot: Slot, k: string): nat {
    if k in Clock(d.settings, slot) then Clock(d.settings, slot)[k] else Ground(d)
  }

  function Later(a: nat, b: nat): nat {
    if a < b then b else a
  }

  lemma ReadMeans(d: Stamped, slot: Slot, k: string)
    ensures var n := Normalize(d);
            var e := Look(n.slots.At(slot), n.base, k);
            && n.base == Ground(d)
            && (e.present <==> Listed(d.settings, slot, k))
            && e.at == StampIn(d, slot, k)
            && e.text == if slot == Notes && Listed(d.settings, slot, k) then d.settings.notes[k] else ""
  {
    assert Normalize(d).slots.At(slot) == SlotEntries(d, slot);
  }

  // ---------------------------------------------------------------- what a write says

  lemma InLastN(s: seq<string>, n: nat)
    ensures forall i :: 0 <= i < |s| && i >= |s| - n ==> s[i] in LastN(s, n)
  {
    forall i | 0 <= i < |s| && i >= |s| - n
      ensures s[i] in LastN(s, n)
    {
      if |s| > n { assert LastN(s, n)[i - (|s| - n)] == s[i]; }
    }
  }

  /** A removal dropped by the cap is older than each of the 200 kept. */
  lemma DroppedIsOlder(m: Entries, base: nat, k: string)
    requires k in LiveTombs(m, base) && k !in KeptTombs(m, base)
    ensures |KeptTombs(m, base)| == 200
    ensures forall x <- KeptTombs(m, base) :: x in m && Before(m, k, x)
  {
    var tombs := LiveTombs(m, base);
    var s := Ordered(tombs);
    var kept := LastN(s, MAX_SETTINGS_TOMBSTONES);
    SortedDistinct(s, tombs);
    assert forall i, j :: 0 <= i < j < |kept| ==> kept[i] != kept[j];
    DistinctLength(kept);
    var i :| 0 <= i < |s| && s[i] == k;
    InLastN(s, MAX_SETTINGS_TOMBSTONES);
    var cut := |s| - MAX_SETTINGS_TOMBSTONES;
    assert i < cut && kept == s[cut..];
    forall x <- KeptTombs(m, base)
      ensures x in m && Before(m, k, x)
    {
      var j :| 0 <= j < |kept| && kept[j] == x;
      assert s[cut + j] == x && Before(tombs, s[i], s[cut + j]);
      assert x in tombs && tombs[x] == m[x] && tombs[k] == m[k];
    }
  }

  /** The removals a written field still names. */
  ghost function RemovalsIn(d: Settings, slot: Slot): set<string> {
    set x | x in Clock(d, slot) && !Listed(d, slot, x)
  }

  lemma WrittenSlot(n: Normalized, slot: Slot, k: string)
    requires Shaped(n)
    ensures var d, m := Denormalize(n), n.slots.At(slot);
            && (Listed(d, slot, k) <==> k in m && m[k].present)
            && Clock(d, slot) == StampsOut(m, n.base)
            && (slot == Notes && Listed(d, slot, k) ==> d.notes[k] == m[k].text)
  {
    hide StampsOut, Ordered, HexKeys;
    var m := n.slots.At(slot);
    assert SlotShaped(m, slot);
    assert k in Ordered(Present(m)) <==> k in m && m[k].present by {
      assert IsListing(Ordered(Present(m)), Present(m));
    }
  }

  lemma RemovalsAreKept(n: Normalized, slot: Slot)
    requires Shaped(n)
    ensures RemovalsIn(Denormalize(n), slot) == KeptTombs(n.slots.At(slot), n.base)
  {
    var m := n.slots.At(slot);
    KeptAreTombs(m, n.base);
    forall x
      ensures x in RemovalsIn(Denormalize(n), slot) <==> x in KeptTombs(m, n.base)
    {
      WrittenSlot(n, slot, x);
    }
  }

  lemma Writes(n: Normalized)
    ensures Denormalize(n).clock.Some? && Denormalize(n).base == Some(n.base)
  {
  }

  /** A write lists what is present and stamps it; a removal that says more than the base is
      stamped too, unless it is older than each of 200 that are. */
  lemma WriteMeans(n: Normalized, slot: Slot, k: string)
    requires Shaped(n)
    ensures var d, e := Denormalize(n), Look(n.slots.At(slot), n.base, k);
            && d.clock.Some? && d.base == Some(n.base)
            && (Listed(d, slot, k) <==> e.present)
            && (e.present && slot == Notes ==> d.notes[k] == e.text)
            && (e.present ==> k in Clock(d, slot))
            && (k in Clock(d, slot) ==> Clock(d, slot)[k] == e.at && (e.present || e.at > n.base))
            && (k !in Clock(d, slot) && e.at > n.base ==>
                  |RemovalsIn(d, slot)| == 200
                  && forall x <- RemovalsIn(d, slot) ::
                       Clock(d, slot)[x] > e.at || (Clock(d, slot)[x] == e.at && StrLess(k, x)))
  {
    hide Ordered, LastN, Denormalize, Normalize;
    var d, m := Denormalize(n), n.slots.At(slot);
    assert d.clock.Some? && d.base == Some(n.base) by { Writes(n); }
    WrittenSlot(n, slot, k);
    RemovalsAreKept(n, slot);
    KeptAreTombs(m, n.base);
    if k !in Clock(d, slot) && Look(m, n.base, k).at > n.base {
      DroppedIsOlder(m, n.base, k);
    }
  }

  function ListIn(d: Settings, slot: ListSlot): seq<string> {
    match slot
    case Favorites => d.favorites
    case WantToMeet => d.wantToMeet
    case Met => d.met
  }

  /** Stamped, and from the oldest stamp to the newest, ties by key. */
  ghost predicate OldestFirst(listed: seq<string>, clock: map<string, nat>) {
    && (forall k <- listed :: k in clock)
    && forall i, j :: 0 <= i < j < |listed| ==>
         clock[listed[i]] < clock[listed[j]] || (clock[listed[i]] == clock[listed[j]] && StrLess(listed[i], listed[j]))
  }

  lemma WrittenInOrder(n: Normalized, slot: ListSlot)
    requires Shaped(n)
    ensures OldestFirst(ListIn(Denormalize(n), slot), Clock(Denormalize(n), slot))
  {
    hide Ordered, StampsOut, Clock;
    var d, m := Denormalize(n), n.slots.At(slot);
    var listed, clock := ListIn(d, slot), Clock(d, slot);
    assert listed == Ordered(Present(m));
    assert Sorted(listed, Present(m));
    forall k <- listed
      ensures k in Present(m) && k in clock && clock[k] == m[k].at
    {
      InClock(n, slot, k);
    }
    forall i, j | 0 <= i < j < |listed|
      ensures clock[listed[i]] < clock[listed[j]] || (clock[listed[i]] == clock[listed[j]] && StrLess(listed[i], listed[j]))
    {
      assert Before(Present(m), listed[i], listed[j]);
      assert listed[i] in listed && listed[j] in listed;
    }
  }

  lemma InClock(n: Normalized, slot: Slot, k: string)
    requires Shaped(n) && k in Present(n.slots.At(slot))
    ensures k in Clock(Denormalize(n), slot) && Clock(Denormalize(n), slot)[k] == n.slots.At(slot)[k].at
  {
    hide Ordered;
    WriteMeans(n, slot, k);
  }

  // ---------------------------------------------------------------- what a merge says

  /** A merge is last-writer-wins, key by key: the side with the later stamp decides, being
      listed wins a tie, and of two notes of one stamp the greater text. The winning stamp is
      written with whatever is listed; a removal is written with it too if it says more than
      the later of the two bases, unless 200 newer removals are. */
  lemma MergeIsLastWriterWins(a: Stamped, b: Stamped, slot: Slot, k: string)
    ensures var d := Merged(a, b);
            var inA, inB := Listed(a.settings, slot, k), Listed(b.settings, slot, k);
            var atA, atB := StampIn(a, slot, k), StampIn(b, slot, k);
            var base := Later(Ground(a), Ground(b));
            && d.clock.Some? && d.base == Some(base)
            && (Listed(d, slot, k) <==> if atA > atB then inA else if atB > atA then inB else inA || inB)
            && (Listed(d, slot, k) && slot == Notes ==>
                  d.notes[k] == if atA > atB || (atA == atB && !inB) then a.settings.notes[k]
                                else if atB > atA || !inA || StrLess(a.settings.notes[k], b.settings.notes[k]) then b.settings.notes[k]
                                else a.settings.notes[k])
            && (Listed(d, slot, k) ==> k in Clock(d, slot))
            && (k in Clock(d, slot) ==>
                  Clock(d, slot)[k] == Later(atA, atB) && (Listed(d, slot, k) || Later(atA, atB) > base))
            && (k !in Clock(d, slot) && Later(atA, atB) > base ==>
                  |RemovalsIn(d, slot)| == 200
                  && forall x <- RemovalsIn(d, slot) ::
                       Clock(d, slot)[x] > Later(atA, atB) || (Clock(d, slot)[x] == Later(atA, atB) && StrLess(k, x)))
  {
    hide Denormalize, Normalize, MergeNormalized, RemovalsIn, Clock, Listed, Ground, StampIn;
    var na, nb := Normalize(a), Normalize(b);
    NormalizeShaped(a);
    NormalizeShaped(b);
    MergeKeepsShape(na, nb);
    ReadMeans(a, slot, k);
    ReadMeans(b, slot, k);
    LookMerged(na, nb, slot, k);
    WriteMeans(MergeNormalized(na, nb), slot, k);
    MergedBase(na, nb);
    StrLessTotalOn(Look(na.slots.At(slot), na.base, k).text, Look(nb.slots.At(slot), nb.base, k).text);
  }

  lemma MergedBase(a: Normalized, b: Normalized)
    ensures MergeNormalized(a, b).base == Later(a.base, b.base)
  {
  }

  lemma StrLessTotalOn(s: string, t: string)
    ensures s == t || StrLess(s, t) != StrLess(t, s)
    ensures s == t ==> !StrLess(s, t)
  {
    StrLessTotal(s, t);
    StrLessAsymmetric(s, t);
    StrLessAsymmetric(s, s);
  }

  /** Notes under anything but a pubkey are kept from both sides, the first one's text where
      both have one; every merged list runs from the oldest stamp to the newest, ties by key. */
  lemma MergeKeepsTheRest(a: Stamped, b: Stamped, slot: ListSlot, k: string)
    requires !IsHex64(k)
    ensures var d := Merged(a, b);
            && (k in d.notes <==> k in a.settings.notes || k in b.settings.notes)
            && (k in d.notes ==> d.notes[k] == if k in a.settings.notes then a.settings.notes[k] else b.settings.notes[k])
            && OldestFirst(ListIn(d, slot), Clock(d, slot))
  {
    hide Denormalize, MergeEntries, Clock, ListIn;
    var na, nb := Normalize(a), Normalize(b);
    NormalizeShaped(a);
    NormalizeShaped(b);
    MergeKeepsShape(na, nb);
    WrittenInOrder(MergeNormalized(na, nb), slot);
    OddOnesWritten(MergeNormalized(na, nb), k);
  }

  lemma OddOnesWritten(n: Normalized, k: string)
    requires Shaped(n) && !IsHex64(k)
    ensures k in Denormalize(n).notes <==> k in n.oddNotes
    ensures k in n.oddNotes ==> Denormalize(n).notes[k] == n.oddNotes[k]
  {
    hide Ordered, StampsOut;
    assert SlotShaped(n.slots.At(Notes), Notes);
  }

  // ---------------------------------------------------------------- what an edit says

  /** An edit stamps its entry now or, should the document be ahead of the clock, just past
      what it held and its base; every other key keeps its stamp, and the base stays. */
  lemma EditStamps(d: Stamped, edit: Edit, nowMs: nat, slot: Slot, k: string)
    requires edit.Note? ==> IsHex64(edit.pubkey)
    ensures var e := Edited(d, edit, nowMs);
            var named := k == edit.pubkey && slot == if edit.Toggle? then edit.slot else Notes;
            var was := StampIn(d, slot, k);
            && e.base == Some(Ground(d)) && e.clock.Some?
            && (Listed(e, slot, k) ==> k in Clock(e, slot))
            && (k in Clock(e, slot) ==>
                  var at := Clock(e, slot)[k];
                  if named
                  then at >= nowMs && at > was && at > Ground(d) && (at == nowMs || at == was + 1 || at == Ground(d) + 1)
                  else at == was)
  {
    hide Denormalize, Normalize, RemovalsIn, Clock, Listed, Ground, StampIn;
    var n := Normalize(d);
    NormalizeShaped(d);
    EditKeepsShape(n, edit, nowMs);
    ReadMeans(d, slot, k);
    EditedSlot(n, edit, nowMs, slot);
    WriteMeans(EditNormalized(n, edit, nowMs), slot, k);
  }

  lemma TrimStep(s: string)
    ensures s != "" && IsBlank(s[0]) ==> Trim(s) == Trim(s[1..])
    ensures s != "" && !IsBlank(s[0]) && IsBlank(s[|s| - 1]) ==> Trim(s) == Trim(s[..|s| - 1])
    ensures s == "" || (!IsBlank(s[0]) && !IsBlank(s[|s| - 1])) ==> Trim(s) == s
  {
  }

  /** Trimming takes blanks off both ends and nothing else, until neither end is blank. */
  lemma {:induction false} TrimMeans(s: string) returns (before: string, after: string)
    ensures s == before + Trim(s) + after
    ensures forall c <- before + after :: IsBlank(c)
    ensures Trim(s) == "" || (!IsBlank(Trim(s)[0]) && !IsBlank(Trim(s)[|Trim(s)| - 1]))
    decreases |s|
  {
    hide IsBlank, Trim;
    TrimStep(s);
    before, after := "", "";
    if s != "" && IsBlank(s[0]) {
      before, after := TrimMeans(s[1..]);
      Wrap([s[0]], before, Trim(s), after, "");
      before := [s[0]] + before;
      assert s == [s[0]] + s[1..];
    } else if s != "" && IsBlank(s[|s| - 1]) {
      before, after := TrimMeans(s[..|s| - 1]);
      Wrap("", before, Trim(s), after, [s[|s| - 1]]);
      after := after + [s[|s| - 1]];
      assert s == s[..|s| - 1] + [s[|s| - 1]];
    }
  }

  lemma Wrap(head: string, a: string, b: string, c: string, last: string)
    ensures head + (a + b + c) + last == (head + a) + b + (c + last)
    ensures forall x <- (head + a) + (c + last) :: x in head + last || x in a + c
  {
  }
}
