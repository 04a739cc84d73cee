/** The latest-event rule every replaceable record and command obeys: higher
    `created_at` first, ties to the lexicographically lowest id. */
module Ordering {
  import opened Wrappers

  datatype Event = Event(id: string, createdAt: Option<int>) {
    function At(): int {
      match createdAt case Some(t) => t case None => 0
    }
  }

  datatype RevisionKey = RevisionKey(rev: int, createdAt: int, id: string)

  /** The string order of the source's `<`: the first difference decides, a proper prefix is smaller. */
  predicate StrLess(a: string, b: string) {
    if |b| == 0 then false
    else if |a| == 0 then true
    else if a[0] != b[0] then a[0] < b[0]
    else StrLess(a[1..], b[1..])
  }

  /** Negative when `a` is the current one. */
  function CompareLatest(a: Event, b: Event): int {
    if a.At() != b.At() then b.At() - a.At()
    else if StrLess(a.id, b.id) then -1
    else if StrLess(b.id, a.id) then 1
    else 0
  }

  predicate Supersedes(candidate: Event, current: Event) {
    CompareLatest(candidate, current) < 0
  }

  predicate RevisionSupersedes(candidate: RevisionKey, current: RevisionKey) {
    if candidate.rev != current.rev then candidate.rev > current.rev
    else if candidate.createdAt != current.createdAt then candidate.createdAt > current.createdAt
    else StrLess(candidate.id, current.id)
  }

  // ---- the string order is a strict total order ----

  lemma {:induction false} StrLessAsymmetric(a: string, b: string)
    ensures !(StrLess(a, b) && StrLess(b, a))
  {
    if |a| > 0 && |b| > 0 {
      StrLessAsymmetric(a[1..], b[1..]);
    }
  }

  lemma {:induction false} StrLessTotal(a: string, b: string)
    ensures a == b || StrLess(a, b) || StrLess(b, a)
  {
    if |a| > 0 && |b| > 0 && a[0] == b[0] {
      StrLessTotal(a[1..], b[1..]);
      if a[1..] == b[1..] {
        assert a == [a[0]] + a[1..] && b == [b[0]] + b[1..];
      }
    }
  }

  lemma {:induction false} StrLessTransitive(a: string, b: string, c: string)
    requires StrLess(a, b) && StrLess(b, c)
    ensures StrLess(a, c)
  {
    if |a| > 0 && a[0] == b[0] && b[0] == c[0] {
      StrLessTransitive(a[1..], b[1..], c[1..]);
    }
  }

  /** Where the strings first differ, `a` ends or has the smaller character. */
  ghost predicate SmallerAt(a: string, b: string, i: nat) {
    i <= |a| && i < |b| && a[..i] == b[..i] && (i == |a| || a[i] < b[i])
  }

  /** The string order is decided by the first difference. */
  lemma {:induction false} StrLessMeans(a: string, b: string)
    ensures StrLess(a, b) <==> exists i: nat :: SmallerAt(a, b, i)
  {
    if |a| == 0 || |b| == 0 || a[0] != b[0] {
      if |b| > 0 && (|a| == 0 || a[0] < b[0]) { assert SmallerAt(a, b, 0); }
    } else {
      StrLessMeans(a[1..], b[1..]);
      if i: nat :| SmallerAt(a[1..], b[1..], i) {
        assert a[..i + 1] == [a[0]] + a[1..][..i] && b[..i + 1] == [b[0]] + b[1..][..i];
        assert SmallerAt(a, b, i + 1);
      }
      if i: nat :| SmallerAt(a, b, i) {
        assert i > 0 && a[1..][..i - 1] == a[..i][1..] && b[1..][..i - 1] == b[..i][1..];
        assert SmallerAt(a[1..], b[1..], i - 1);
      }
    }
  }

  // ---- the latest-event order ----

  /** A missing time is 0. */
  function TimeOf(e: Event): int {
    if e.createdAt.Some? then e.createdAt.value else 0
  }

  /** The later time wins, and at one time the smaller id. */
  lemma SupersedesMeans(a: Event, b: Event)
    ensures Supersedes(a, b) <==> TimeOf(a) > TimeOf(b) || (TimeOf(a) == TimeOf(b) && StrLess(a.id, b.id))
  {
    StrLessAsymmetric(a.id, b.id);
  }

  /** The higher revision wins, then the later time, then the smaller id. */
  lemma RevisionSupersedesMeans(a: RevisionKey, b: RevisionKey)
    ensures RevisionSupersedes(a, b) <==>
              || a.rev > b.rev
              || (a.rev == b.rev && a.createdAt > b.createdAt)
              || (a.rev == b.rev && a.createdAt == b.createdAt && StrLess(a.id, b.id))
  {
  }

  /** Two distinct addressed events are always ordered, and never both ways. */
  lemma SupersedesIsTotal(a: Event, b: Event)
    ensures Supersedes(a, b) ==> !Supersedes(b, a)
    ensures !Supersedes(a, b) && !Supersedes(b, a) <==> a.At() == b.At() && a.id == b.id
  {
    StrLessAsymmetric(a.id, b.id);
    StrLessTotal(a.id, b.id);
    StrLessAsymmetric(a.id, a.id);
  }

  lemma SupersedesTransitive(a: Event, b: Event, c: Event)
    requires Supersedes(a, b) && Supersedes(b, c)
    ensures Supersedes(a, c)
  {
    if a.At() == b.At() && b.At() == c.At() {
      StrLessTransitive(a.id, b.id, c.id);
    }
  }

  lemma RevisionSupersedesIsStrictTotalOrder(a: RevisionKey, b: RevisionKey, c: RevisionKey)
    ensures RevisionSupersedes(a, b) ==> !RevisionSupersedes(b, a)
    ensures !RevisionSupersedes(a, b) && !RevisionSupersedes(b, a) <==> a == b
    ensures RevisionSupersedes(a, b) && RevisionSupersedes(b, c) ==> RevisionSupersedes(a, c)
  {
    StrLessAsymmetric(a.id, b.id);
    StrLessTotal(a.id, b.id);
    StrLessAsymmetric(a.id, a.id);
    if StrLess(a.id, b.id) && StrLess(b.id, c.id) {
      StrLessTransitive(a.id, b.id, c.id);
    }
  }

  /** `e` is current among `events`: listed, superseded by none of them. */
  ghost predicate IsLatest(e: Event, events: seq<Event>) {
    e in events && forall x <- events :: !Supersedes(x, e)
  }

  method PickLatest(events: seq<Event>) returns (best: Option<Event>)
    ensures best.None? <==> events == []
    ensures best.Some? ==> IsLatest(best.value, events)
    ensures best.Some? ==> forall x <- events ::
              TimeOf(x) < TimeOf(best.value) || (TimeOf(x) == TimeOf(best.value) && !StrLess(x.id, best.value.id))
  {
    best := None;
    for i := 0 to |events|
      invariant best.None? <==> i == 0
      invariant best.Some? ==> IsLatest(best.value, events[..i])
    {
      var e := events[i];
      assert events[..i + 1] == events[..i] + [e];
      if best.None? || Supersedes(e, best.value) {
        if best.Some? {
          forall x | x in events[..i]
            ensures !Supersedes(x, e)
          {
            SupersedesIsTotal(e, best.value);
            if Supersedes(x, e) {
              SupersedesTransitive(x, e, best.value);
            }
          }
        }
        SupersedesIsTotal(e, e);
        best := Some(e);
      }
    }
    assert events[..|events|] == events;
    if best.Some? { LatestMeans(best.value, events); }
  }

  /** The latest of `events` is as late as any, and of those as late has the smallest id. */
  lemma LatestMeans(e: Event, events: seq<Event>)
    requires IsLatest(e, events)
    ensures forall x <- events :: TimeOf(x) < TimeOf(e) || (TimeOf(x) == TimeOf(e) && !StrLess(x.id, e.id))
  {
    forall x <- events
      ensures TimeOf(x) < TimeOf(e) || (TimeOf(x) == TimeOf(e) && !StrLess(x.id, e.id))
    {
      SupersedesMeans(x, e);
    }
  }

  /** Two readers of the same events, in whatever order and multiplicity the relays
      returned them, name the same record as current. */
  lemma LatestIsUnique(e: Event, f: Event, xs: seq<Event>, ys: seq<Event>)
    requires IsLatest(e, xs) && IsLatest(f, ys)
    requires forall x :: x in xs <==> x in ys
    ensures e.id == f.id && e.At() == f.At()
  {
    SupersedesIsTotal(e, f);
  }
}
