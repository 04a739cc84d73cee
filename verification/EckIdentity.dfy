/** Event content keys (ECK versions): identity is `(id, key)`, the union of two
    holders keeps both keys of an id collision, and every holder of the same set
    picks the same current version. `fp` is the fingerprint of a key. */
module EckIdentity {
  import opened Wrappers
  import opened Ordering

  datatype Version = Version(id: int, key: string)

  type Fingerprint = string -> string

  /** `order(a, b) < 0`. */
  predicate Less(a: Version, b: Version, fp: Fingerprint) {
    if a.id != b.id then a.id < b.id else StrLess(fp(a.key), fp(b.key))
  }

  /** The fingerprint tells the given keys apart. */
  ghost predicate Distinct(vs: set<Version>, fp: Fingerprint) {
    forall a, b :: a in vs && b in vs && fp(a.key) == fp(b.key) ==> a.key == b.key
  }

  ghost function Members(vs: seq<Version>): set<Version> {
    set v <- vs
  }

  function Flatten(lists: seq<seq<Version>>): seq<Version> {
    if lists == [] then [] else Flatten(lists[..|lists| - 1]) + lists[|lists| - 1]
  }

  /** Insert after every element that is not greater, as a stable sort does. */
  function Insert(vs: seq<Version>, v: Version, fp: Fingerprint): seq<Version> {
    if vs == [] then [v]
    else if Less(v, vs[|vs| - 1], fp) then Insert(vs[..|vs| - 1], v, fp) + [vs[|vs| - 1]]
    else vs + [v]
  }

  function StableSort(vs: seq<Version>, fp: Fingerprint): seq<Version> {
    if vs == [] then [] else Insert(StableSort(vs[..|vs| - 1], fp), vs[|vs| - 1], fp)
  }

  /** First occurrences, in order. */
  function Dedup(vs: seq<Version>): seq<Version> {
    if vs == [] then []
    else
      var init := Dedup(vs[..|vs| - 1]);
      if vs[|vs| - 1] in init then init else init + [vs[|vs| - 1]]
  }

  function Union(lists: seq<seq<Version>>, fp: Fingerprint): seq<Version> {
    StableSort(Dedup(Flatten(lists)), fp)
  }

  method UnionEck(lists: seq<seq<Version>>, fp: Fingerprint) returns (r: seq<Version>)
    ensures r == Union(lists, fp)
  {
    var seen := [];
    for i := 0 to |lists|
      invariant seen == Dedup(Flatten(lists[..i]))
    {
      var list := lists[i];
      assert lists[..i + 1][..i] == lists[..i];
      assert Flatten(lists[..i]) + list[..0] == Flatten(lists[..i]);
      for j := 0 to |list|
        invariant seen == Dedup(Flatten(lists[..i]) + list[..j])
      {
        var before := Flatten(lists[..i]) + list[..j];
        assert (before + [list[j]])[..|before|] == before;
        assert Flatten(lists[..i]) + list[..j + 1] == before + [list[j]];
        if list[j] !in seen {
          seen := seen + [list[j]];
        }
      }
      assert list[..|list|] == list;
    }
    assert lists[..|lists|] == lists;
    r := [];
    for i := 0 to |seen|
      invariant r == StableSort(seen[..i], fp)
    {
      assert seen[..i + 1][..i] == seen[..i];
      r := Insert(r, seen[i], fp);
    }
    assert seen[..|seen|] == seen;
  }

  // ---------------------------------------------------------------- the union as a sequence

  ghost predicate StrictlySorted(vs: seq<Version>, fp: Fingerprint) {
    forall i, j :: 0 <= i < j < |vs| ==> Less(vs[i], vs[j], fp)
  }

  lemma LessTransitive(a: Version, b: Version, c: Version, fp: Fingerprint)
    requires Less(a, b, fp) && Less(b, c, fp)
    ensures Less(a, c, fp)
  {
    if a.id == b.id == c.id { StrLessTransitive(fp(a.key), fp(b.key), fp(c.key)); }
  }

  lemma LessAsymmetric(a: Version, b: Version, fp: Fingerprint)
    ensures !(Less(a, b, fp) && Less(b, a, fp))
  {
    StrLessAsymmetric(fp(a.key), fp(b.key));
  }

  lemma LessTotal(a: Version, b: Version, vs: set<Version>, fp: Fingerprint)
    requires a in vs && b in vs && Distinct(vs, fp)
    ensures a == b || Less(a, b, fp) || Less(b, a, fp)
  {
    StrLessTotal(fp(a.key), fp(b.key));
  }

  lemma AppendSorted(vs: seq<Version>, v: Version, fp: Fingerprint)
    requires StrictlySorted(vs, fp)
    requires forall u <- vs :: Less(u, v, fp)
    ensures StrictlySorted(vs + [v], fp)
    ensures Members(vs + [v]) == Members(vs) + {v}
  {
    var r := vs + [v];
    forall i, j | 0 <= i < j < |r|
      ensures Less(r[i], r[j], fp)
    {
      assert i < |vs| ==> r[i] == vs[i] && vs[i] in vs;
    }
  }

  lemma LastIsGreatest(vs: seq<Version>, init: seq<Version>, last: Version, fp: Fingerprint)
    requires vs == init + [last] && StrictlySorted(vs, fp)
    ensures StrictlySorted(init, fp)
    ensures forall u <- init :: Less(u, last, fp)
    ensures Members(vs) == Members(init) + {last}
  {
    assert forall i :: 0 <= i < |init| ==> init[i] == vs[i];
    forall u <- init
      ensures Less(u, last, fp)
    {
      var i :| 0 <= i < |init| && init[i] == u;
      assert Less(vs[i], vs[|init|], fp);
    }
  }

  lemma {:induction false} InsertSorts(vs: seq<Version>, v: Version, all: set<Version>, fp: Fingerprint)
    requires StrictlySorted(vs, fp) && v !in vs
    requires v in all && Members(vs) <= all && Distinct(all, fp)
    ensures StrictlySorted(Insert(vs, v, fp), fp)
    ensures Members(Insert(vs, v, fp)) == Members(vs) + {v}
  {
    if vs == [] {
      AppendSorted([], v, fp);
    } else {
      var init, last := vs[..|vs| - 1], vs[|vs| - 1];
      LastIsGreatest(vs, init, last, fp);
      LessTotal(v, last, all, fp);
      if Less(v, last, fp) {
        InsertSorts(init, v, all, fp);
        var r := Insert(init, v, fp);
        forall u <- r
          ensures Less(u, last, fp)
        {
          assert u in Members(r);
        }
        AppendSorted(r, last, fp);
      } else {
        forall u <- vs
          ensures Less(u, v, fp)
        {
          assert u in Members(vs);
          if u != last { LessTransitive(u, last, v, fp); }
        }
        AppendSorted(vs, v, fp);
      }
    }
  }

  lemma {:induction false} DedupMembers(vs: seq<Version>)
    ensures Members(Dedup(vs)) == Members(vs)
    ensures forall i, j :: 0 <= i < j < |Dedup(vs)| ==> Dedup(vs)[i] != Dedup(vs)[j]
  {
    if vs != [] {
      DedupMembers(vs[..|vs| - 1]);
      assert vs == vs[..|vs| - 1] + [vs[|vs| - 1]];
      assert Members(vs) == Members(vs[..|vs| - 1]) + {vs[|vs| - 1]};
      var init := Dedup(vs[..|vs| - 1]);
      if vs[|vs| - 1] in init {
        assert vs[|vs| - 1] in Members(vs[..|vs| - 1]);
      } else {
        assert forall i :: 0 <= i < |init| ==> init[i] != vs[|vs| - 1];
        assert Members(init + [vs[|vs| - 1]]) == Members(init) + {vs[|vs| - 1]};
      }
    }
  }

  lemma {:induction false} SortSorts(vs: seq<Version>, all: set<Version>, fp: Fingerprint)
    requires forall i, j :: 0 <= i < j < |vs| ==> vs[i] != vs[j]
    requires Members(vs) <= all && Distinct(all, fp)
    ensures StrictlySorted(StableSort(vs, fp), fp)
    ensures Members(StableSort(vs, fp)) == Members(vs)
  {
    if vs != [] {
      var init, last := vs[..|vs| - 1], vs[|vs| - 1];
      assert vs == init + [last];
      SortSorts(init, all, fp);
      assert last !in Members(init);
      InsertSorts(StableSort(init, fp), last, all, fp);
    }
  }

  lemma {:induction false} SortedIsUnique(a: seq<Version>, b: seq<Version>, fp: Fingerprint)
    requires StrictlySorted(a, fp) && StrictlySorted(b, fp) && Members(a) == Members(b)
    ensures a == b
  {
    if a != [] { assert a[0] in Members(b); }
    if b != [] { assert b[0] in Members(a); }
    if a != [] {
      if a[0] != b[0] {
        var i :| 0 <= i < |b| && b[i] == a[0];
        var j :| 0 <= j < |a| && a[j] == b[0];
        LessAsymmetric(a[0], b[0], fp);
        assert false;
      }
      forall v
        ensures v in Members(a[1..]) <==> v in Members(b[1..])
      {
        LessAsymmetric(a[0], a[0], fp);
        assert v in Members(a) <==> v == a[0] || v in a[1..];
        assert v in Members(b) <==> v == b[0] || v in b[1..];
        assert a[0] !in a[1..] && b[0] !in b[1..] by {
          assert forall i :: 0 <= i < |a[1..]| ==> Less(a[0], a[1..][i], fp);
          assert forall i :: 0 <= i < |b[1..]| ==> Less(b[0], b[1..][i], fp);
        }
      }
      SortedIsUnique(a[1..], b[1..], fp);
      assert a == [a[0]] + a[1..] && b == [b[0]] + b[1..];
    }
  }

  /** The union is the strictly ordered listing of everything held: nothing is lost,
      nothing invented, and a second key under an id already held survives. */
  lemma UnionListsAll(lists: seq<seq<Version>>, fp: Fingerprint)
    requires Distinct(Members(Flatten(lists)), fp)
    ensures StrictlySorted(Union(lists, fp), fp)
    ensures var u := Union(lists, fp);
            forall i, j :: 0 <= i < j < |u| ==>
              u[i].id < u[j].id || (u[i].id == u[j].id && StrLess(fp(u[i].key), fp(u[j].key)))
    ensures Members(Union(lists, fp)) == Members(Flatten(lists))
  {
    DedupMembers(Flatten(lists));
    SortSorts(Dedup(Flatten(lists)), Members(Flatten(lists)), fp);
  }

  lemma {:induction false} InsertMembers(vs: seq<Version>, v: Version, fp: Fingerprint)
    ensures Members(Insert(vs, v, fp)) == Members(vs) + {v}
  {
    if vs != [] {
      var init, last := vs[..|vs| - 1], vs[|vs| - 1];
      assert vs == init + [last];
      InsertMembers(init, v, fp);
      var r := Insert(init, v, fp);
      assert Members(r + [last]) == Members(r) + {last};
      assert Members(vs + [v]) == Members(vs) + {v};
    }
  }

  lemma {:induction false} SortMembers(vs: seq<Version>, fp: Fingerprint)
    ensures Members(StableSort(vs, fp)) == Members(vs)
  {
    if vs != [] {
      var init, last := vs[..|vs| - 1], vs[|vs| - 1];
      assert vs == init + [last];
      SortMembers(init, fp);
      InsertMembers(StableSort(init, fp), last, fp);
    }
  }

  /** Whatever the fingerprints, a union holds exactly what its lists hold. */
  lemma UnionHoldsBoth(a: seq<Version>, b: seq<Version>, fp: Fingerprint)
    ensures Members(Union([a, b], fp)) == Members(a) + Members(b)
  {
    FlattenTwo(a, b);
    DedupMembers(Flatten([a, b]));
    SortMembers(Dedup(Flatten([a, b])), fp);
  }

  lemma FlattenTwo(a: seq<Version>, b: seq<Version>)
    ensures Members(Flatten([a, b])) == Members(a) + Members(b)
  {
    assert [a, b][..1] == [a] && [a][..0] == [];
    assert Flatten([a]) == Flatten([]) + a;
    assert Flatten([a, b]) == Flatten([a]) + b;
  }

  /** As a sequence, the union of two lists depends only on what they hold together. */
  lemma UnionIsOfSets(a: seq<Version>, b: seq<Version>, c: seq<Version>, d: seq<Version>, fp: Fingerprint)
    requires Members(a) + Members(b) == Members(c) + Members(d)
    requires Distinct(Members(a) + Members(b), fp)
    ensures Union([a, b], fp) == Union([c, d], fp)
    ensures Members(Union([a, b], fp)) == Members(a) + Members(b)
  {
    FlattenTwo(a, b);
    FlattenTwo(c, d);
    UnionListsAll([a, b], fp);
    UnionListsAll([c, d], fp);
    SortedIsUnique(Union([a, b], fp), Union([c, d], fp), fp);
  }

  /** The union commutes, associates and is idempotent, as a sequence. */
  lemma UnionIsASemilattice(a: seq<Version>, b: seq<Version>, c: seq<Version>, fp: Fingerprint)
    requires Distinct(Members(a) + Members(b) + Members(c), fp)
    ensures Union([a, b], fp) == Union([b, a], fp)
    ensures Union([Union([a, b], fp), c], fp) == Union([a, Union([b, c], fp)], fp)
    ensures Union([Union([a, b], fp), Union([a, b], fp)], fp) == Union([a, b], fp)
  {
    UnionIsOfSets(a, b, b, a, fp);
    UnionIsOfSets(b, c, b, c, fp);
    var ab, bc := Union([a, b], fp), Union([b, c], fp);
    UnionIsOfSets(ab, c, a, bc, fp);
    UnionIsOfSets(ab, ab, a, b, fp);
  }

  // ---------------------------------------------------------------- the current version

  /** Does the source's scan replace `best` by `v`? */
  predicate Better(v: Version, best: Version, fp: Fingerprint) {
    v.id > best.id || (v.id == best.id && Less(v, best, fp))
  }

  function Canonical(vs: seq<Version>, fp: Fingerprint): Option<Version> {
    if vs == [] then None
    else
      var init, v := Canonical(vs[..|vs| - 1], fp), vs[|vs| - 1];
      if init.None? || Better(v, init.value, fp) then Some(v) else init
  }

  method CanonicalEck(versions: seq<Version>, fp: Fingerprint) returns (best: Option<Version>)
    ensures best == Canonical(versions, fp)
  {
    best := None;
    for i := 0 to |versions|
      invariant best == Canonical(versions[..i], fp)
    {
      assert versions[..i + 1][..i] == versions[..i];
      if best.None? || Better(versions[i], best.value, fp) {
        best := Some(versions[i]);
      }
    }
    assert versions[..|versions|] == versions;
  }

  lemma BetterTransitive(a: Version, b: Version, c: Version, fp: Fingerprint)
    requires Better(a, b, fp) && Better(b, c, fp)
    ensures Better(a, c, fp)
  {
    if a.id == b.id == c.id { LessTransitive(a, b, c, fp); }
  }

  /** The canonical version is held, has the highest id, and no holder of the same id
      has a lower fingerprint. */
  lemma {:induction false} CanonicalIsBest(vs: seq<Version>, fp: Fingerprint)
    ensures Canonical(vs, fp).None? <==> vs == []
    ensures vs != [] ==> Canonical(vs, fp).value in vs && forall v <- vs :: !Better(v, Canonical(vs, fp).value, fp)
    ensures vs != [] ==>
              var best := Canonical(vs, fp).value;
              forall v <- vs :: v.id < best.id || (v.id == best.id && !StrLess(fp(v.key), fp(best.key)))
  {
    if vs != [] {
      var init, last := vs[..|vs| - 1], vs[|vs| - 1];
      assert vs == init + [last];
      CanonicalIsBest(init, fp);
      LessAsymmetric(last, last, fp);
      var best := Canonical(vs, fp).value;
      forall v <- vs
        ensures !Better(v, best, fp)
      {
        if v in init && best == last && Better(v, last, fp) {
          BetterTransitive(v, last, Canonical(init, fp).value, fp);
        }
      }
    }
  }

  /** Two holders of the same set agree on the current version. */
  lemma CanonicalIsOfSets(a: seq<Version>, b: seq<Version>, fp: Fingerprint)
    requires Members(a) == Members(b) && Distinct(Members(a), fp)
    ensures Canonical(a, fp) == Canonical(b, fp)
  {
    CanonicalIsBest(a, fp);
    CanonicalIsBest(b, fp);
    if a != [] { assert a[0] in Members(b); }
    if b != [] { assert b[0] in Members(a); }
    if a != [] {
      var x, y := Canonical(a, fp).value, Canonical(b, fp).value;
      assert x in Members(b) && y in Members(a);
      LessTotal(x, y, Members(a), fp);
    }
  }

  /** The canonical version of a union is the better of the two canonicals. */
  lemma CanonicalOfUnion(a: seq<Version>, b: seq<Version>, fp: Fingerprint)
    requires a != [] && b != [] && Distinct(Members(a) + Members(b), fp)
    ensures var ca, cb := Canonical(a, fp).value, Canonical(b, fp).value;
            Canonical(Union([a, b], fp), fp) == Some(if Better(cb, ca, fp) then cb else ca)
  {
    UnionIsOfSets(a, b, a, b, fp);
    var u := Union([a, b], fp);
    CanonicalIsBest(a, fp);
    CanonicalIsBest(b, fp);
    CanonicalIsBest(u, fp);
    var ca, cb := Canonical(a, fp).value, Canonical(b, fp).value;
    var best := if Better(cb, ca, fp) then cb else ca;
    assert ca in Members(a) && cb in Members(b);
    assert best in Members(u);
    assert u != [];
    var cu := Canonical(u, fp).value;
    assert cu in Members(u);
    LessTotal(cu, best, Members(u), fp);
    LessTotal(ca, cb, Members(u), fp);
    if Better(cu, best, fp) {
      if cu in Members(a) {
        if best == cb { BetterTransitive(cu, cb, ca, fp); }
      } else {
        if best == ca && cb != ca { BetterTransitive(cu, ca, cb, fp); }
      }
    }
  }

  function MaxId(vs: seq<Version>): int {
    if vs == [] then 0
    else
      var m := MaxId(vs[..|vs| - 1]);
      if vs[|vs| - 1].id > m then vs[|vs| - 1].id else m
  }

  lemma {:induction false} MaxIdBounds(vs: seq<Version>)
    ensures MaxId(vs) >= 0
    ensures forall v <- vs :: v.id <= MaxId(vs)
  {
    if vs != [] {
      MaxIdBounds(vs[..|vs| - 1]);
      assert vs == vs[..|vs| - 1] + [vs[|vs| - 1]];
    }
  }

  /** Every holder of at least one version holds one under the maximum id, and the
      canonical version is such a one. */
  lemma CurrentIdIsMaxId(vs: seq<Version>, fp: Fingerprint)
    requires vs != [] && forall v <- vs :: v.id > 0
    ensures exists v <- vs :: v.id == MaxId(vs)
    ensures Canonical(vs, fp).Some? && Canonical(vs, fp).value.id == MaxId(vs)
  {
    MaxIdIsHeld(vs);
    MaxIdBounds(vs);
    CanonicalIsBest(vs, fp);
    var best := Canonical(vs, fp).value;
    var v :| v in vs && v.id == MaxId(vs);
    assert !Better(v, best, fp);
  }

  lemma {:induction false} MaxIdIsHeld(vs: seq<Version>)
    requires forall v <- vs :: v.id > 0
    ensures vs != [] ==> exists v <- vs :: v.id == MaxId(vs)
  {
    if vs != [] {
      var init, last := vs[..|vs| - 1], vs[|vs| - 1];
      MaxIdIsHeld(init);
      if last.id > MaxId(init) {
        assert last in vs;
      } else {
        assert init != [];
        var v :| v in init && v.id == MaxId(init);
        assert v in vs;
      }
    }
  }

  /** Minting the maximum id plus one gives the current version, whatever was held. */
  lemma MintIsCanonical(vs: seq<Version>, key: string, fp: Fingerprint)
    ensures Canonical(vs + [Version(MaxId(vs) + 1, key)], fp) == Some(Version(MaxId(vs) + 1, key))
  {
    MaxIdBounds(vs);
    CanonicalIsBest(vs, fp);
    var minted := Version(MaxId(vs) + 1, key);
    assert (vs + [minted])[..|vs|] == vs;
  }

  // ---------------------------------------------------------------- collisions and candidates

  ghost predicate Collides(vs: seq<Version>, id: int) {
    exists a, b :: a in vs && b in vs && a.id == b.id == id && a.key != b.key
  }

  ghost predicate Ascending(ids: seq<int>) {
    forall i, j :: 0 <= i < j < |ids| ==> ids[i] < ids[j]
  }

  function InsertId(ids: seq<int>, id: int): (r: seq<int>)
    requires Ascending(ids) && id !in ids
    ensures Ascending(r)
    ensures forall x :: x in r <==> x in ids || x == id
  {
    if ids == [] then [id]
    else if id < ids[0] then [id] + ids
    else
      var r := InsertId(ids[1..], id);
      assert forall j :: 0 <= j < |r| ==> r[j] in r && (r[j] == id || r[j] in ids[1..]);
      [ids[0]] + r
  }

  /** Ids held under more than one key, ascending. */
  method EckCollisionIds(versions: seq<Version>) returns (ids: seq<int>)
    ensures Ascending(ids)
    ensures forall id :: id in ids <==> Collides(versions, id)
  {
    var keys: map<int, set<string>> := map[];
    for i := 0 to |versions|
      invariant forall id :: id in keys <==> exists v :: v in versions[..i] && v.id == id
      invariant forall id <- keys, k :: k in keys[id] <==> Version(id, k) in versions[..i]
    {
      var v := versions[i];
      assert versions[..i + 1] == versions[..i] + [v];
      keys := keys[v.id := (if v.id in keys then keys[v.id] else {}) + {v.key}];
    }
    assert versions[..|versions|] == versions;
    ids := [];
    var todo := keys.Keys;
    while todo != {}
      invariant todo <= keys.Keys
      invariant Ascending(ids)
      invariant forall id :: id in ids <==> id in keys && id !in todo && |keys[id]| > 1
      decreases todo
    {
      EmptyOrHasMember(todo);
      var id :| id in todo;
      todo := todo - {id};
      if |keys[id]| > 1 {
        ids := InsertId(ids, id);
      }
    }
    forall id
      ensures id in ids <==> Collides(versions, id)
    {
      if id in keys {
        TwoMembers(keys[id]);
        if Collides(versions, id) {
          var a, b :| a in versions && b in versions && a.id == b.id == id && a.key != b.key;
          assert Version(id, a.key) == a && Version(id, b.key) == b;
        }
        if |keys[id]| > 1 {
          var x, y :| x in keys[id] && y in keys[id] && x != y;
          assert Version(id, x) in versions && Version(id, y) in versions;
        }
      }
    }
  }

  lemma EmptyOrHasMember(s: set<int>)
    ensures s == {} || exists x :: x in s
  {
    if forall x :: x !in s {
      assert s == {};
    }
  }

  lemma TwoMembers(s: set<string>)
    ensures |s| > 1 <==> exists x, y :: x in s && y in s && x != y
  {
    if |s| > 1 {
      var x :| x in s;
      var rest := s - {x};
      assert |rest| > 0;
      var y :| y in rest;
      assert x in s && y in s && x != y;
    }
    if x, y :| x in s && y in s && x != y {
      assert {x, y} <= s;
      assert |s - {x, y}| == |s| - |{x, y}|;
    }
  }

  /** A restart unions the stored list with itself: a list once sorted comes back as it was,
      and minting keeps it sorted. */
  lemma RestartKeepsTheList(vs: seq<Version>, key: string, fp: Fingerprint)
    requires StrictlySorted(vs, fp) && Distinct(Members(vs), fp)
    ensures Union([vs, vs], fp) == vs
    ensures StrictlySorted(vs + [Version(MaxId(vs) + 1, key)], fp)
  {
    FlattenTwo(vs, vs);
    UnionListsAll([vs, vs], fp);
    SortedIsUnique(Union([vs, vs], fp), vs, fp);
    MaxIdBounds(vs);
    AppendSorted(vs, Version(MaxId(vs) + 1, key), fp);
  }

  /** A mint heals nothing away and collides with nothing: every older key survives. */
  lemma MintIsFresh(vs: seq<Version>, key: string, id: int)
    ensures Collides(vs + [Version(MaxId(vs) + 1, key)], id) <==> Collides(vs, id)
    ensures Members(vs) <= Members(vs + [Version(MaxId(vs) + 1, key)])
  {
    MaxIdBounds(vs);
    var all := vs + [Version(MaxId(vs) + 1, key)];
    if Collides(all, id) {
      var a, b :| a in all && b in all && a.id == b.id == id && a.key != b.key;
      assert a in vs && b in vs;
    }
    if Collides(vs, id) {
      var a, b :| a in vs && b in vs && a.id == b.id == id && a.key != b.key;
      assert a in all && b in all;
    }
  }

  function Select(vs: seq<Version>, p: Version -> bool): (r: seq<Version>)
    ensures forall v :: v in r <==> v in vs && p(v)
    ensures (forall i, j :: 0 <= i < j < |vs| ==> vs[i] != vs[j]) ==> forall i, j :: 0 <= i < j < |r| ==> r[i] != r[j]
  {
    if vs == [] then []
    else
      var r := Select(vs[1..], p);
      assert forall j :: 0 <= j < |r| ==> r[j] in r;
      (if p(vs[0]) then [vs[0]] else []) + r
  }

  /** The held keys that may decrypt a record tagged `(id, fingerprint?)`, best first. */
  function EckCandidates(vs: seq<Version>, id: int, ref: Option<string>, fp: Fingerprint): seq<Version> {
    var sameId := StableSort(Select(vs, (v: Version) => v.id == id), fp);
    match ref
    case Some(f) => Select(sameId, (v: Version) => fp(v.key) == f)
    case None => sameId
  }

  /** The candidates are exactly the held keys the tag can name, and without a
      fingerprint the first is the canonical one under that id. */
  lemma CandidatesAreTheNamedKeys(vs: seq<Version>, id: int, ref: Option<string>, fp: Fingerprint)
    requires forall i, j :: 0 <= i < j < |vs| ==> vs[i] != vs[j]
    requires Distinct(Members(vs), fp)
    ensures var r := EckCandidates(vs, id, ref, fp);
            && (forall v :: v in r <==> v in vs && v.id == id && (ref.Some? ==> fp(v.key) == ref.value))
            && (ref.None? && r != [] ==> forall v <- vs :: v.id == id ==> !Better(v, r[0], fp))
            && (ref.None? ==> forall i, j :: 0 <= i < j < |r| ==> StrLess(fp(r[i].key), fp(r[j].key)))
  {
    var same := Select(vs, (v: Version) => v.id == id);
    assert Members(same) <= Members(vs);
    SortSorts(same, Members(vs), fp);
    var sorted := StableSort(same, fp);
    forall v
      ensures v in sorted <==> v in vs && v.id == id
    {
      assert v in sorted <==> v in Members(sorted);
      assert v in same <==> v in Members(same);
    }
    if sorted != [] {
      forall v <- vs | v.id == id
        ensures !Better(v, sorted[0], fp)
      {
        assert v in sorted;
        var i :| 0 <= i < |sorted| && sorted[i] == v;
        LessAsymmetric(v, sorted[0], fp);
        assert sorted[0] in sorted;
      }
    }
  }
}
