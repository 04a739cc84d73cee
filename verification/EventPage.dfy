/** Interleaving members-only items into a public list by position, and back. */
module EventPage {
  import opened Sequences

  datatype Positioned<T> = Positioned(item: T, pos: int)

  datatype Merged<T> = Merged(item: T, membersOnly: bool)

  datatype Halves<T> = Halves(publicItems: seq<T>, privateItems: seq<Positioned<T>>)

  function Splice<T>(xs: seq<T>, i: nat, x: T): seq<T>
    requires i <= |xs|
  {
    xs[..i] + [x] + xs[i..]
  }

  function Clamp(pos: int, n: nat): (i: nat)
    ensures i <= n
  {
    if pos < 0 then 0 else if pos > n then n else pos
  }

  /** Insert after every item whose position is not greater, as a stable sort does. */
  function Insert<T>(xs: seq<Positioned<T>>, x: Positioned<T>): seq<Positioned<T>> {
    if xs == [] then [x]
    else if x.pos < xs[|xs| - 1].pos then Insert(xs[..|xs| - 1], x) + [xs[|xs| - 1]]
    else xs + [x]
  }

  function SortByPos<T>(xs: seq<Positioned<T>>): seq<Positioned<T>> {
    if xs == [] then [] else Insert(SortByPos(xs[..|xs| - 1]), xs[|xs| - 1])
  }

  function Publics<T>(items: seq<T>): (r: seq<Merged<T>>)
    ensures |r| == |items| && forall i :: 0 <= i < |items| ==> r[i] == Merged(items[i], false)
  {
    seq(|items|, i requires 0 <= i < |items| => Merged(items[i], false))
  }

  /** The private items spliced in, in the order given. */
  function SpliceAll<T>(publicItems: seq<T>, items: seq<Positioned<T>>): seq<Merged<T>> {
    if items == [] then Publics(publicItems)
    else
      var before := SpliceAll(publicItems, items[..|items| - 1]);
      var x := items[|items| - 1];
      Splice(before, Clamp(x.pos, |before|), Merged(x.item, true))
  }

  function Merge<T>(publicItems: seq<T>, privateItems: seq<Positioned<T>>): seq<Merged<T>> {
    SpliceAll(publicItems, SortByPos(privateItems))
  }

  method MergeByPos<T>(publicItems: seq<T>, privateItems: seq<Positioned<T>>) returns (merged: seq<Merged<T>>)
    ensures merged == Merge(publicItems, privateItems)
  {
    var sorted: seq<Positioned<T>> := [];
    for i := 0 to |privateItems|
      invariant sorted == SortByPos(privateItems[..i])
    {
      assert privateItems[..i + 1][..i] == privateItems[..i];
      sorted := Insert(sorted, privateItems[i]);
    }
    assert privateItems[..|privateItems|] == privateItems;
    merged := Publics(publicItems);
    for i := 0 to |sorted|
      invariant merged == SpliceAll(publicItems, sorted[..i])
    {
      assert sorted[..i + 1][..i] == sorted[..i];
      var idx := Clamp(sorted[i].pos, |merged|);
      merged := Splice(merged, idx, Merged(sorted[i].item, true));
    }
    assert sorted[..|sorted|] == sorted;
  }

  function Split<T>(merged: seq<Merged<T>>): Halves<T> {
    if merged == [] then Halves([], [])
    else
      var before := Split(merged[..|merged| - 1]);
      var x := merged[|merged| - 1];
      if x.membersOnly then before.(privateItems := before.privateItems + [Positioned(x.item, |merged| - 1)])
      else before.(publicItems := before.publicItems + [x.item])
  }

  method SplitByPos<T>(merged: seq<Merged<T>>) returns (publicItems: seq<T>, privateItems: seq<Positioned<T>>)
    ensures Halves(publicItems, privateItems) == Split(merged)
  {
    publicItems, privateItems := [], [];
    for i := 0 to |merged|
      invariant Halves(publicItems, privateItems) == Split(merged[..i])
    {
      assert merged[..i + 1][..i] == merged[..i];
      if merged[i].membersOnly {
        privateItems := privateItems + [Positioned(merged[i].item, i)];
      } else {
        publicItems := publicItems + [merged[i].item];
      }
    }
    assert merged[..|merged|] == merged;
  }

  // ---------------------------------------------------------------- lists from the end

  lemma SplitSnoc<T>(merged: seq<Merged<T>>, x: Merged<T>)
    ensures Split(merged + [x]) ==
              (if x.membersOnly then Split(merged).(privateItems := Split(merged).privateItems + [Positioned(x.item, |merged|)])
               else Split(merged).(publicItems := Split(merged).publicItems + [x.item]))
  {
    assert (merged + [x])[..|merged|] == merged;
  }

  lemma SpliceAllSnoc<T>(publicItems: seq<T>, items: seq<Positioned<T>>, x: Positioned<T>)
    ensures var before := SpliceAll(publicItems, items);
            SpliceAll(publicItems, items + [x]) == Splice(before, Clamp(x.pos, |before|), Merged(x.item, true))
  {
    assert (items + [x])[..|items|] == items;
  }

  // ---------------------------------------------------------------- positions in order

  /** Distinct positions in ascending order, each within the list it is spliced into. */
  ghost predicate InPlace<T>(n: nat, items: seq<Positioned<T>>) {
    && (forall i :: 0 <= i < |items| ==> 0 <= items[i].pos <= n + i)
    && (forall i, j :: 0 <= i < j < |items| ==> items[i].pos < items[j].pos)
  }

  lemma InPlaceInit<T>(n: nat, items: seq<Positioned<T>>, x: Positioned<T>)
    requires InPlace(n, items + [x])
    ensures InPlace(n, items) && 0 <= x.pos <= n + |items|
    ensures forall y <- items :: y.pos < x.pos
  {
    var all := items + [x];
    assert all[|items|] == x;
    assert forall i :: 0 <= i < |items| ==> all[i] == items[i];
    forall y <- items
      ensures y.pos < x.pos
    {
      var i :| 0 <= i < |items| && items[i] == y;
      assert all[i].pos < all[|items|].pos;
    }
  }

  lemma {:induction false} SortedStays<T>(n: nat, items: seq<Positioned<T>>)
    requires InPlace(n, items)
    ensures SortByPos(items) == items
    decreases |items|
  {
    if items != [] {
      var init, x := Unsnoc(items);
      InPlaceInit(n, init, x);
      SortedStays(n, init);
      assert items[..|items| - 1] == init;
      if init != [] { assert init[|init| - 1] in init; }
    }
  }

  lemma {:induction false} SpliceAllLength<T>(publicItems: seq<T>, items: seq<Positioned<T>>)
    ensures |SpliceAll(publicItems, items)| == |publicItems| + |items|
  {
    if items != [] { SpliceAllLength(publicItems, items[..|items| - 1]); }
  }

  // ---------------------------------------------------------------- merge inverts split

  lemma {:induction false} SplitIsInPlace<T>(merged: seq<Merged<T>>)
    ensures var h := Split(merged);
            && InPlace(|h.publicItems|, h.privateItems)
            && |h.publicItems| + |h.privateItems| == |merged|
            && forall x <- h.privateItems :: x.pos < |merged|
    decreases |merged|
  {
    if merged != [] {
      var init, x := Unsnoc(merged);
      SplitIsInPlace(init);
      SplitSnoc(init, x);
      var h, h0 := Split(merged), Split(init);
      forall i, j | 0 <= i < j < |h.privateItems|
        ensures h.privateItems[i].pos < h.privateItems[j].pos
      {
        assert h.privateItems[i] == h0.privateItems[i] && h0.privateItems[i] in h0.privateItems;
      }
    }
  }

  lemma {:induction false} NoPrivate<T>(publicItems: seq<T>)
    ensures Split(Publics(publicItems)) == Halves(publicItems, [])
    decreases |publicItems|
  {
    if publicItems != [] {
      var init, x := Unsnoc(publicItems);
      NoPrivate(init);
      assert Publics(publicItems) == Publics(init) + [Merged(x, false)];
      SplitSnoc(Publics(init), Merged(x, false));
    }
  }

  lemma SpliceThenAppend<T>(xs: seq<T>, i: nat, x: T, last: T)
    requires i <= |xs|
    ensures Splice(xs + [last], i, x) == Splice(xs, i, x) + [last]
  {
    assert (xs + [last])[..i] == xs[..i];
    assert (xs + [last])[i..] == xs[i..] + [last];
  }

  /** A public item past every position stays last. */
  lemma {:induction false} TrailingPublic<T>(publicItems: seq<T>, p: T, items: seq<Positioned<T>>)
    requires InPlace(|publicItems|, items)
    ensures SpliceAll(publicItems + [p], items) == SpliceAll(publicItems, items) + [Merged(p, false)]
    decreases |items|
  {
    if items == [] {
      assert Publics(publicItems + [p]) == Publics(publicItems) + [Merged(p, false)];
    } else {
      var init, x := Unsnoc(items);
      InPlaceInit(|publicItems|, init, x);
      TrailingPublic(publicItems, p, init);
      SpliceAllSnoc(publicItems, init, x);
      SpliceAllSnoc(publicItems + [p], init, x);
      SpliceAllLength(publicItems, init);
      SpliceThenAppend(SpliceAll(publicItems, init), x.pos, Merged(x.item, true), Merged(p, false));
    }
  }

  /** Splicing what a split produced gives the list back. */
  lemma {:induction false} SpliceInvertsSplit<T>(merged: seq<Merged<T>>)
    ensures SpliceAll(Split(merged).publicItems, Split(merged).privateItems) == merged
    decreases |merged|
  {
    if merged == [] {
      assert Publics<T>([]) == [];
    } else {
      var init, x := Unsnoc(merged);
      var h := Split(init);
      SpliceInvertsSplit(init);
      SplitIsInPlace(init);
      SplitSnoc(init, x);
      if x.membersOnly {
        SpliceAllSnoc(h.publicItems, h.privateItems, Positioned(x.item, |init|));
        assert Splice(init, |init|, x) == init + [x];
      } else {
        TrailingPublic(h.publicItems, x.item, h.privateItems);
      }
    }
  }

  /** Merging what a split produced gives the list back, for every merged list. */
  lemma MergeInvertsSplit<T>(merged: seq<Merged<T>>)
    ensures Merge(Split(merged).publicItems, Split(merged).privateItems) == merged
  {
    SplitIsInPlace(merged);
    SortedStays(|Split(merged).publicItems|, Split(merged).privateItems);
    SpliceInvertsSplit(merged);
  }

  // ---------------------------------------------------------------- split inverts merge

  lemma ItemsSnoc<T>(xs: seq<Merged<T>>, x: Merged<T>)
    ensures Items(xs + [x]) == Items(xs) + [x.item]
  {
  }

  lemma Grouped<T>(a: seq<T>, b: seq<T>, c: seq<T>)
    ensures (a + b) + c == a + (b + c)
  {
  }

  lemma {:induction false} SplitPrefix<T>(merged: seq<Merged<T>>, tail: seq<Merged<T>>)
    requires forall x <- tail :: !x.membersOnly
    ensures Split(merged + tail) == Halves(Split(merged).publicItems + Items(tail), Split(merged).privateItems)
    decreases |tail|
  {
    var h := Split(merged);
    if tail == [] {
      assert merged + tail == merged;
      assert h.publicItems + Items(tail) == h.publicItems;
    } else {
      var init, x := Unsnoc(tail);
      assert x in tail;
      SplitPrefix(merged, init);
      Grouped(merged, init, [x]);
      SplitSnoc(merged + init, x);
      ItemsSnoc(init, x);
      Grouped(h.publicItems, Items(init), [x.item]);
    }
  }

  function Items<T>(merged: seq<Merged<T>>): (r: seq<T>)
    ensures |r| == |merged| && forall i :: 0 <= i < |merged| ==> r[i] == merged[i].item
  {
    seq(|merged|, i requires 0 <= i < |merged| => merged[i].item)
  }

  lemma LastPrivate<T>(init: seq<Merged<T>>, x: Merged<T>)
    requires x.membersOnly
    ensures Positioned(x.item, |init|) in Split(init + [x]).privateItems
  {
    SplitSnoc(init, x);
  }

  /** Past the last private item everything is public. */
  lemma {:induction false} PublicPast<T>(merged: seq<Merged<T>>, n: nat)
    requires n <= |merged| && forall x <- Split(merged).privateItems :: x.pos < n
    ensures forall i :: n <= i < |merged| ==> !merged[i].membersOnly
    decreases |merged|
  {
    if n < |merged| {
      var init, x := Unsnoc(merged);
      SplitSnoc(init, x);
      if x.membersOnly { LastPrivate(init, x); }
      assert forall y <- Split(init).privateItems :: y in Split(merged).privateItems;
      PublicPast(init, n);
    }
  }

  lemma TailIsPublic<T>(merged: seq<Merged<T>>, pos: nat)
    requires pos <= |merged| && forall x <- Split(merged).privateItems :: x.pos < pos
    ensures forall x <- merged[pos..] :: !x.membersOnly
  {
    PublicPast(merged, pos);
    forall x <- merged[pos..]
      ensures !x.membersOnly
    {
      var i :| 0 <= i < |merged[pos..]| && merged[pos..][i] == x;
      assert merged[pos + i] == x;
    }
  }

  /** Splicing a private item behind the last one. */
  lemma SpliceBehind<T>(merged: seq<Merged<T>>, item: T, pos: nat)
    requires pos <= |merged| && forall x <- Split(merged).privateItems :: x.pos < pos
    ensures Split(Splice(merged, pos, Merged(item, true)))
              == Split(merged).(privateItems := Split(merged).privateItems + [Positioned(item, pos)])
  {
    hide Split;
    var head, tail := merged[..pos], merged[pos..];
    TailIsPublic(merged, pos);
    SpliceBetween(head, tail, item);
    assert head + tail == merged;
    assert |head| == pos && Splice(merged, pos, Merged(item, true)) == head + [Merged(item, true)] + tail;
  }

  lemma SpliceBetween<T>(head: seq<Merged<T>>, tail: seq<Merged<T>>, item: T)
    requires forall x <- tail :: !x.membersOnly
    ensures var h := Split(head + tail);
            Split(head + [Merged(item, true)] + tail) == h.(privateItems := h.privateItems + [Positioned(item, |head|)])
  {
    SplitPrefix(head, tail);
    SplitSnoc(head, Merged(item, true));
    SplitPrefix(head + [Merged(item, true)], tail);
  }

  lemma {:induction false} SplitOfSpliced<T>(publicItems: seq<T>, items: seq<Positioned<T>>)
    requires InPlace(|publicItems|, items)
    ensures Split(SpliceAll(publicItems, items)) == Halves(publicItems, items)
    decreases |items|
  {
    if items == [] {
      NoPrivate(publicItems);
    } else {
      var init, x := Unsnoc(items);
      InPlaceInit(|publicItems|, init, x);
      SplitOfSpliced(publicItems, init);
      SpliceAllSnoc(publicItems, init, x);
      SpliceAllLength(publicItems, init);
      SpliceBehind(SpliceAll(publicItems, init), x.item, x.pos);
    }
  }

  /** Splitting what a merge produced gives both lists back exactly when the positions are
      distinct, ascending and in range. */
  lemma SplitInvertsMergeIff<T>(publicItems: seq<T>, privateItems: seq<Positioned<T>>)
    ensures Split(Merge(publicItems, privateItems)) == Halves(publicItems, privateItems) <==> InPlace(|publicItems|, privateItems)
  {
    if InPlace(|publicItems|, privateItems) {
      SortedStays(|publicItems|, privateItems);
      SplitOfSpliced(publicItems, privateItems);
    }
    SplitIsInPlace(Merge(publicItems, privateItems));
  }

  // ---------------------------------------------------------------- whatever the positions

  function Kept<T>(merged: seq<Merged<T>>, membersOnly: bool): seq<T> {
    if merged == [] then []
    else Kept(merged[..|merged| - 1], membersOnly) + if merged[|merged| - 1].membersOnly == membersOnly then [merged[|merged| - 1].item] else []
  }

  lemma {:induction false} KeptConcat<T>(a: seq<Merged<T>>, b: seq<Merged<T>>, membersOnly: bool)
    ensures Kept(a + b, membersOnly) == Kept(a, membersOnly) + Kept(b, membersOnly)
    decreases |b|
  {
    if b == [] {
      assert a + b == a;
    } else {
      assert (a + b)[..|a + b| - 1] == a + b[..|b| - 1];
      KeptConcat(a, b[..|b| - 1], membersOnly);
    }
  }

  /** A splice adds its item where it belongs: at one place among the kept ones, or not
      at all. */
  lemma KeptSplice<T>(merged: seq<Merged<T>>, i: nat, x: Merged<T>, membersOnly: bool)
    requires i <= |merged|
    ensures var a, b := Kept(merged[..i], membersOnly), Kept(merged[i..], membersOnly);
            && Kept(merged, membersOnly) == a + b
            && Kept(Splice(merged, i, x), membersOnly) == (if x.membersOnly == membersOnly then a + [x.item] + b else a + b)
  {
    var head, tail := merged[..i], merged[i..];
    assert merged == head + tail;
    KeptConcat(head, tail, membersOnly);
    KeptConcat(head, [x], membersOnly);
    KeptConcat(head + [x], tail, membersOnly);
    KeptOne(x, membersOnly);
  }

  lemma KeptOne<T>(x: Merged<T>, membersOnly: bool)
    ensures Kept([x], membersOnly) == if x.membersOnly == membersOnly then [x.item] else []
  {
    assert [x][..0] == [];
  }

  lemma SpliceAddsOne<T>(merged: seq<Merged<T>>, i: nat, item: T)
    requires i <= |merged|
    ensures Kept(Splice(merged, i, Merged(item, true)), false) == Kept(merged, false)
    ensures multiset(Kept(Splice(merged, i, Merged(item, true)), true)) == multiset(Kept(merged, true)) + multiset{item}
  {
    KeptSplice(merged, i, Merged(item, true), false);
    KeptSplice(merged, i, Merged(item, true), true);
    var a, b := Kept(merged[..i], true), Kept(merged[i..], true);
    assert multiset(a + [item] + b) == multiset(a) + multiset{item} + multiset(b);
  }

  function Contents<T>(items: seq<Positioned<T>>): multiset<T> {
    if items == [] then multiset{} else Contents(items[..|items| - 1]) + multiset{items[|items| - 1].item}
  }

  lemma {:induction false} InsertContents<T>(xs: seq<Positioned<T>>, x: Positioned<T>)
    ensures Contents(Insert(xs, x)) == Contents(xs) + multiset{x.item}
    decreases |xs|
  {
    if xs == [] {
      assert [x][..0] == [];
    } else {
      var init, last := Unsnoc(xs);
      assert xs[..|xs| - 1] == init;
      if x.pos < last.pos {
        InsertContents(init, x);
        var r := Insert(init, x);
        assert (r + [last])[..|r|] == r;
      } else {
        assert (xs + [x])[..|xs|] == xs;
      }
    }
  }

  lemma {:induction false} SortContents<T>(xs: seq<Positioned<T>>)
    ensures Contents(SortByPos(xs)) == Contents(xs)
  {
    if xs != [] {
      SortContents(xs[..|xs| - 1]);
      InsertContents(SortByPos(xs[..|xs| - 1]), xs[|xs| - 1]);
    }
  }

  lemma {:induction false} SpliceAllKeeps<T>(publicItems: seq<T>, items: seq<Positioned<T>>)
    ensures Kept(SpliceAll(publicItems, items), false) == publicItems
    ensures multiset(Kept(SpliceAll(publicItems, items), true)) == Contents(items)
    decreases |items|
  {
    if items == [] {
      KeptPublics(publicItems);
    } else {
      var init, x := Unsnoc(items);
      assert items[..|items| - 1] == init;
      SpliceAllKeeps(publicItems, init);
      var before := SpliceAll(publicItems, init);
      SpliceAllSnoc(publicItems, init, x);
      SpliceAddsOne(before, Clamp(x.pos, |before|), x.item);
    }
  }

  lemma {:induction false} KeptPublics<T>(publicItems: seq<T>)
    ensures Kept(Publics(publicItems), false) == publicItems
    ensures Kept(Publics(publicItems), true) == []
    decreases |publicItems|
  {
    if publicItems != [] {
      var init, x := Unsnoc(publicItems);
      KeptPublics(init);
      assert Publics(publicItems)[..|publicItems| - 1] == Publics(init);
    }
  }

  /** Whatever the positions, the public items keep their order and no item is lost or
      duplicated. */
  lemma MergeKeepsItems<T>(publicItems: seq<T>, privateItems: seq<Positioned<T>>)
    ensures Kept(Merge(publicItems, privateItems), false) == publicItems
    ensures multiset(Kept(Merge(publicItems, privateItems), true)) == Contents(privateItems)
  {
    SortContents(privateItems);
    SpliceAllKeeps(publicItems, SortByPos(privateItems));
  }

  // ---------------------------------------------------------------- where each item goes

  function Drop<T>(xs: seq<T>, i: nat): seq<T>
    requires i < |xs|
  {
    xs[..i] + xs[i + 1..]
  }

  /** No position is greater, and of the equal ones it is the last. */
  ghost predicate GreatestAt<T>(xs: seq<Positioned<T>>, i: nat) {
    && i < |xs|
    && (forall j :: 0 <= j < i ==> xs[j].pos <= xs[i].pos)
    && forall j :: i < j < |xs| ==> xs[j].pos < xs[i].pos
  }

  lemma {:induction false} SortedLast<T>(xs: seq<Positioned<T>>, i: nat)
    requires GreatestAt(xs, i)
    ensures SortByPos(xs) == SortByPos(Drop(xs, i)) + [xs[i]]
    decreases |xs|
  {
    var init, y := Unsnoc(xs);
    assert xs[..|xs| - 1] == init;
    if i == |init| {
      assert Drop(xs, i) == init;
      SortAtMost(init, y.pos);
      var sorted := SortByPos(init);
      if sorted != [] { assert sorted[|sorted| - 1] in sorted; }
    } else {
      assert y == xs[|xs| - 1] && y.pos < xs[i].pos && xs[i] == init[i];
      SortedLast(init, i);
      var rest := SortByPos(Drop(init, i));
      assert (rest + [xs[i]])[..|rest|] == rest;
      assert Drop(xs, i) == Drop(init, i) + [y];
      assert (Drop(init, i) + [y])[..|Drop(init, i)|] == Drop(init, i);
    }
  }

  lemma {:induction false} InsertAtMost<T>(xs: seq<Positioned<T>>, x: Positioned<T>, pos: int)
    requires x.pos <= pos && forall y <- xs :: y.pos <= pos
    ensures forall y <- Insert(xs, x) :: y.pos <= pos
  {
    if xs != [] && x.pos < xs[|xs| - 1].pos { InsertAtMost(xs[..|xs| - 1], x, pos); }
  }

  lemma {:induction false} SortAtMost<T>(xs: seq<Positioned<T>>, pos: int)
    requires forall y <- xs :: y.pos <= pos
    ensures forall y <- SortByPos(xs) :: y.pos <= pos
  {
    if xs != [] {
      SortAtMost(xs[..|xs| - 1], pos);
      InsertAtMost(SortByPos(xs[..|xs| - 1]), xs[|xs| - 1], pos);
    }
  }

  lemma {:induction false} SortLength<T>(xs: seq<Positioned<T>>)
    ensures |SortByPos(xs)| == |xs|
  {
    if xs != [] {
      SortLength(xs[..|xs| - 1]);
      InsertLength(SortByPos(xs[..|xs| - 1]), xs[|xs| - 1]);
    }
  }

  lemma {:induction false} InsertLength<T>(xs: seq<Positioned<T>>, x: Positioned<T>)
    ensures |Insert(xs, x)| == |xs| + 1
  {
    if xs != [] && x.pos < xs[|xs| - 1].pos { InsertLength(xs[..|xs| - 1], x); }
  }

  /** A merge without private items is the public list. One with some is the merge without
      the greatest of them, the last of the equal ones, and that one put in at its position:
      at the front for a negative one, at the end for one beyond the list. */
  lemma GreatestGoesIn<T>(publicItems: seq<T>, privateItems: seq<Positioned<T>>, i: nat)
    requires GreatestAt(privateItems, i)
    ensures var before, x := Merge(publicItems, Drop(privateItems, i)), privateItems[i];
            var n := |publicItems| + |privateItems| - 1;
            var at := if x.pos < 0 then 0 else if x.pos < n then x.pos else n;
            && |before| == n
            && Merge(publicItems, privateItems) == before[..at] + [Merged(x.item, true)] + before[at..]
  {
    var rest := SortByPos(Drop(privateItems, i));
    SortedLast(privateItems, i);
    SortLength(Drop(privateItems, i));
    SpliceAllLength(publicItems, rest);
    SpliceAllSnoc(publicItems, rest, privateItems[i]);
  }

  lemma NothingGoesIn<T>(publicItems: seq<T>)
    ensures var m := Merge(publicItems, []);
            |m| == |publicItems| && forall i :: 0 <= i < |m| ==> m[i] == Merged(publicItems[i], false)
  {
  }
}
