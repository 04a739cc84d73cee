/** Greedy front-to-back packing of a list into groups, each with an envelope and a byte
    budget: order kept, budget respected, and no in-order split with fewer groups. */
module Packing {
  import opened Sequences

  /** The envelope of the first group, of every later one, and the size to stay within. */
  datatype Budget = Budget(first: nat, later: nat, target: nat)

  function Envelope(b: Budget, index: nat): nat {
    if index == 0 then b.first else b.later
  }

  function Cost<T>(size: T -> nat, xs: seq<T>): nat {
    if xs == [] then 0 else Cost(size, xs[..|xs| - 1]) + size(xs[|xs| - 1])
  }

  /** A group's budgeted size. */
  function Load<T>(b: Budget, size: T -> nat, index: nat, group: seq<T>): nat {
    Envelope(b, index) + Cost(size, group)
  }

  /** One more entry: appended to the last group, or opening a new one when it would not
      fit and the last one is not empty. */
  function Place<T>(b: Budget, size: T -> nat, groups: seq<seq<T>>, x: T): (r: seq<seq<T>>)
    requires groups != []
    ensures r != []
  {
    var last := groups[|groups| - 1];
    if last != [] && Load(b, size, |groups| - 1, last) + size(x) > b.target then groups + [[x]]
    else groups[..|groups| - 1] + [last + [x]]
  }

  function Pack<T>(b: Budget, size: T -> nat, xs: seq<T>): (groups: seq<seq<T>>)
    ensures groups != []
  {
    if xs == [] then [[]] else Place(b, size, Pack(b, size, xs[..|xs| - 1]), xs[|xs| - 1])
  }

  function Flatten<T>(groups: seq<seq<T>>): seq<T> {
    if groups == [] then [] else Flatten(groups[..|groups| - 1]) + groups[|groups| - 1]
  }

  // ---------------------------------------------------------------- lists from the end

  lemma FlattenSnoc<T>(groups: seq<seq<T>>, g: seq<T>)
    ensures Flatten(groups + [g]) == Flatten(groups) + g
  {
    assert (groups + [g])[..|groups|] == groups;
  }

  lemma CostSnoc<T>(size: T -> nat, xs: seq<T>, x: T)
    ensures Cost(size, xs + [x]) == Cost(size, xs) + size(x)
  {
    assert (xs + [x])[..|xs|] == xs;
  }

  lemma PackSnoc<T>(b: Budget, size: T -> nat, xs: seq<T>, x: T)
    ensures Pack(b, size, xs + [x]) == Place(b, size, Pack(b, size, xs), x)
  {
    assert (xs + [x])[..|xs|] == xs;
  }

  lemma {:induction false} CostConcat<T>(size: T -> nat, xs: seq<T>, ys: seq<T>)
    ensures Cost(size, xs + ys) == Cost(size, xs) + Cost(size, ys)
    decreases |ys|
  {
    if ys == [] {
      assert xs + ys == xs;
    } else {
      var init, y := Unsnoc(ys);
      CostConcat(size, xs, init);
      assert xs + ys == (xs + init) + [y];
      CostSnoc(size, xs + init, y);
      CostSnoc(size, init, y);
    }
  }

  /** The loop: close the current group when the next entry would overflow it. */
  method PackList<T>(b: Budget, size: T -> nat, xs: seq<T>) returns (groups: seq<seq<T>>)
    ensures groups == Pack(b, size, xs)
  {
    groups := [];
    var current: seq<T> := [];
    var overhead := Envelope(b, 0);
    for i := 0 to |xs|
      invariant groups + [current] == Pack(b, size, xs[..i])
      invariant overhead == Load(b, size, |groups|, current)
    {
      var entry := size(xs[i]);
      assert xs[..i + 1] == xs[..i] + [xs[i]];
      PackSnoc(b, size, xs[..i], xs[i]);
      if |current| > 0 && overhead + entry > b.target {
        groups := groups + [current];
        current := [];
        overhead := Envelope(b, |groups|);
      }
      CostSnoc(size, current, xs[i]);
      current := current + [xs[i]];
      overhead := overhead + entry;
    }
    assert xs[..|xs|] == xs;
    groups := groups + [current];
  }

  // ---------------------------------------------------------------- order and budget

  lemma PlaceKeepsOrder<T>(b: Budget, size: T -> nat, groups: seq<seq<T>>, x: T)
    requires groups != []
    ensures Flatten(Place(b, size, groups, x)) == Flatten(groups) + [x]
  {
    var init, last := Unsnoc(groups);
    FlattenSnoc(init, last);
    FlattenSnoc(groups, [x]);
    FlattenSnoc(init, last + [x]);
    assert groups[..|groups| - 1] == init;
  }

  /** Nothing is lost, moved or repeated. */
  lemma {:induction false} PackKeepsOrder<T>(b: Budget, size: T -> nat, xs: seq<T>)
    ensures Flatten(Pack(b, size, xs)) == xs
    decreases |xs|
  {
    if xs == [] {
      FlattenSnoc<T>([], []);
      assert Pack(b, size, xs) == [] + [[]];
    } else {
      var init, x := Unsnoc(xs);
      PackKeepsOrder(b, size, init);
      PackSnoc(b, size, init, x);
      PlaceKeepsOrder(b, size, Pack(b, size, init), x);
    }
  }

  ghost predicate WithinBudget<T>(b: Budget, size: T -> nat, groups: seq<seq<T>>) {
    forall i :: 0 <= i < |groups| ==> Load(b, size, i, groups[i]) <= b.target
  }

  /** The entry fits in any group of its own. */
  ghost predicate FitsAlone<T>(b: Budget, size: T -> nat, x: T) {
    b.first + size(x) <= b.target && b.later + size(x) <= b.target
  }

  lemma {:induction false} PackWithinBudget<T>(b: Budget, size: T -> nat, xs: seq<T>)
    requires b.first <= b.target
    requires forall x <- xs :: FitsAlone(b, size, x)
    ensures WithinBudget(b, size, Pack(b, size, xs))
    decreases |xs|
  {
    if xs != [] {
      var init, x := Unsnoc(xs);
      PackWithinBudget(b, size, init);
      PackSnoc(b, size, init, x);
      assert FitsAlone(b, size, x);
      PlaceWithinBudget(b, size, Pack(b, size, init), x);
    }
  }

  lemma PlaceWithinBudget<T>(b: Budget, size: T -> nat, groups: seq<seq<T>>, x: T)
    requires groups != [] && WithinBudget(b, size, groups) && FitsAlone(b, size, x)
    ensures WithinBudget(b, size, Place(b, size, groups, x))
  {
    var front, last := Unsnoc(groups);
    SplitPrefix(b, size, front, last);
    CostSnoc(size, last, x);
    CostSnoc(size, [], x);
    assert [] + [x] == [x];
    assert groups[|groups| - 1] == last && groups[..|groups| - 1] == front;
    if last != [] && Load(b, size, |front|, last) + size(x) > b.target {
      Extend(b, size, groups, [x]);
    } else {
      Extend(b, size, front, last + [x]);
    }
  }

  lemma Extend<T>(b: Budget, size: T -> nat, groups: seq<seq<T>>, g: seq<T>)
    requires WithinBudget(b, size, groups) && Load(b, size, |groups|, g) <= b.target
    ensures WithinBudget(b, size, groups + [g])
  {
  }

  /** The next group opens only because its first entry would not fit. */
  ghost predicate ClosedWhenFull<T>(b: Budget, size: T -> nat, groups: seq<seq<T>>, i: nat)
    requires i + 1 < |groups|
  {
    groups[i] != [] && groups[i + 1] != [] && Load(b, size, i, groups[i]) + size(groups[i + 1][0]) > b.target
  }

  lemma PlaceClosesWhenFull<T>(b: Budget, size: T -> nat, groups: seq<seq<T>>, x: T, i: nat)
    requires groups != [] && i + 1 < |Place(b, size, groups, x)|
    requires i + 1 < |groups| ==> ClosedWhenFull(b, size, groups, i)
    ensures ClosedWhenFull(b, size, Place(b, size, groups, x), i)
  {
    hide Load;
    var placed := Place(b, size, groups, x);
    if i + 1 < |groups| {
      assert placed[i] == groups[i] && placed[i + 1] != [] && placed[i + 1][0] == groups[i + 1][0];
    }
  }

  lemma {:induction false} PackClosesWhenFull<T>(b: Budget, size: T -> nat, xs: seq<T>)
    ensures var groups := Pack(b, size, xs);
            forall i: nat :: i + 1 < |groups| ==> ClosedWhenFull(b, size, groups, i)
    decreases |xs|
  {
    hide ClosedWhenFull, Place;
    if xs != [] {
      var init, x := Unsnoc(xs);
      PackClosesWhenFull(b, size, init);
      PackSnoc(b, size, init, x);
      forall i: nat | i + 1 < |Pack(b, size, xs)|
        ensures ClosedWhenFull(b, size, Pack(b, size, xs), i)
      {
        PlaceClosesWhenFull(b, size, Pack(b, size, init), x, i);
      }
    }
  }

  lemma PackClosesAt<T>(b: Budget, size: T -> nat, xs: seq<T>, i: nat)
    requires i + 1 < |Pack(b, size, xs)|
    ensures var groups := Pack(b, size, xs);
            && groups[i] != [] && groups[i + 1] != []
            && Envelope(b, i) + Cost(size, groups[i]) + size(groups[i + 1][0]) > b.target
  {
    PackClosesWhenFull(b, size, xs);
    assert ClosedWhenFull(b, size, Pack(b, size, xs), i);
  }

  // ---------------------------------------------------------------- as few groups as can be

  /** Any way of cutting the list, in order, into groups within the same budget. */
  ghost predicate InOrderSplit<T>(b: Budget, size: T -> nat, xs: seq<T>, groups: seq<seq<T>>) {
    Flatten(groups) == xs && WithinBudget(b, size, groups)
  }

  /** Two cuts of one list: the shorter last group costs no more. */
  lemma ShorterSuffixIsLighter<T>(size: T -> nat, a: seq<T>, p: seq<T>, c: seq<T>, q: seq<T>)
    requires a + p == c + q && |p| <= |q|
    ensures Cost(size, p) <= Cost(size, q)
  {
    var extra := q[..|q| - |p|];
    assert |a| == |c| + |extra|;
    assert p == (a + p)[|a|..] == (c + q)[|a|..] == q[|extra|..];
    assert q == extra + p;
    CostConcat(size, extra, p);
  }

  lemma DropLast<T>(b: Budget, size: T -> nat, init: seq<T>, x: T, before: seq<seq<T>>, group: seq<T>)
    returns (shorter: seq<T>)
    requires group != [] && InOrderSplit(b, size, init + [x], before + [group])
    ensures group == shorter + [x]
    ensures InOrderSplit(b, size, init, before + [shorter])
  {
    var y: T;
    shorter, y := Unsnoc(group);
    FlattenSnoc(before, group);
    FlattenSnoc(before, shorter);
    assert init + [x] == (Flatten(before) + shorter) + [y];
    assert init == (init + [x])[..|init|] && x == (init + [x])[|init|];
    assert |init| == |Flatten(before) + shorter|;
    CostSnoc(size, shorter, y);
    var old_, new_ := before + [group], before + [shorter];
    forall i | 0 <= i < |new_|
      ensures Load(b, size, i, new_[i]) <= b.target
    {
      assert Load(b, size, i, old_[i]) <= b.target;
      assert i < |before| ==> new_[i] == old_[i];
    }
  }

  /** Greedy stays ahead: no in-order split has fewer groups, and one with as many has no
      shorter last group. */
  lemma {:induction false} GreedyStaysAhead<T>(b: Budget, size: T -> nat, xs: seq<T>, groups: seq<seq<T>>)
    requires groups != [] && InOrderSplit(b, size, xs, groups)
    ensures var packed := Pack(b, size, xs);
            && |packed| <= |groups|
            && (|packed| == |groups| ==> |packed[|packed| - 1]| <= |groups[|groups| - 1]|)
    decreases |xs| + |groups|
  {
    if xs != [] {
      var before, group := Unsnoc(groups);
      FlattenSnoc(before, group);
      if group == [] {
        SplitPrefix(b, size, before, group);
        assert Flatten(before) == xs;
        GreedyStaysAhead(b, size, xs, before);
      } else {
        var init, x := Unsnoc(xs);
        var shorter := DropLast(b, size, init, x, before, group);
        GreedyStaysAhead(b, size, init, before + [shorter]);
        PackSnoc(b, size, init, x);
        if |Pack(b, size, init)| == |groups| {
          StillRoom(b, size, init, x, before, shorter);
        }
      }
    }
  }

  lemma SplitPrefix<T>(b: Budget, size: T -> nat, before: seq<seq<T>>, group: seq<T>)
    requires WithinBudget(b, size, before + [group])
    ensures WithinBudget(b, size, before)
  {
    forall i | 0 <= i < |before|
      ensures Load(b, size, i, before[i]) <= b.target
    {
      assert Load(b, size, i, (before + [group])[i]) <= b.target;
    }
  }

  /** With as many groups as the other split, the packing's last group is a suffix of the
      other's, so what fits there fits here. */
  lemma StillRoom<T>(b: Budget, size: T -> nat, init: seq<T>, x: T, before: seq<seq<T>>, shorter: seq<T>)
    requires WithinBudget(b, size, before + [shorter + [x]]) && Flatten(before + [shorter]) == init
    requires var packed := Pack(b, size, init); |packed| == |before| + 1 && |packed[|before|]| <= |shorter|
    ensures |Place(b, size, Pack(b, size, init), x)| == |before| + 1
    ensures |Place(b, size, Pack(b, size, init), x)[|before|]| <= |shorter| + 1
  {
    var packed := Pack(b, size, init);
    PackKeepsOrder(b, size, init);
    var front, last := Unsnoc(packed);
    FlattenSnoc(front, last);
    FlattenSnoc(before, shorter);
    ShorterSuffixIsLighter(size, Flatten(front), last, Flatten(before), shorter);
    CostSnoc(size, shorter, x);
    var full := before + [shorter + [x]];
    assert Load(b, size, |before|, full[|before|]) <= b.target;
  }
}
