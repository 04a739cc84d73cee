/** The per-subject promise chain. Callers are numbered in the order they ask; each runs
    after the caller before it on the same key settles, whether it succeeded or failed. */
module SubjectLock {
  import opened Wrappers

  datatype Status = Waiting | Running | Settled(ok: bool)

  /** `prev` is the chain entry the caller found: the one it runs after. */
  datatype Caller = Caller(key: string, prev: Option<nat>, status: Status)

  datatype State = State(callers: seq<Caller>, chains: map<string, nat>)

  datatype Step = Ask(key: string) | Start(id: nat) | Settle(id: nat, ok: bool) | Prune(id: nat)

  predicate CanStart(s: State, id: nat) {
    && id < |s.callers| && s.callers[id].status == Waiting
    && (s.callers[id].prev.Some? ==>
          s.callers[id].prev.value < |s.callers| && s.callers[s.callers[id].prev.value].status.Settled?)
  }

  /** A step that is not possible changes nothing. */
  function Exec(s: State, step: Step): State {
    match step
    case Ask(key) =>
      var prev := if key in s.chains then Some(s.chains[key]) else None;
      State(s.callers + [Caller(key, prev, Waiting)], s.chains[key := |s.callers|])
    case Start(id) =>
      if CanStart(s, id) then s.(callers := s.callers[id := s.callers[id].(status := Running)]) else s
    case Settle(id, ok) =>
      if id < |s.callers| && s.callers[id].status == Running
      then s.(callers := s.callers[id := s.callers[id].(status := Settled(ok))]) else s
    case Prune(id) =>
      if id < |s.callers| && s.callers[id].status.Settled? && s.callers[id].key in s.chains && s.chains[s.callers[id].key] == id
      then s.(chains := s.chains - {s.callers[id].key}) else s
  }

  class Locks {
    var callers: seq<Caller>
    var subjectChains: map<string, nat>

    constructor ()
      ensures Abs() == State([], map[])
    {
      callers, subjectChains := [], map[];
    }

    function Abs(): State
      reads this
    {
      State(callers, subjectChains)
    }

    method WithSubjectLock(key: string) returns (id: nat)
      modifies this
      ensures id == |old(callers)| && Abs() == Exec(old(Abs()), Ask(key))
    {
      id := |callers|;
      var prev: Option<nat> := None;
      if key in subjectChains { prev := Some(subjectChains[key]); }
      callers := callers + [Caller(key, prev, Waiting)];
      subjectChains := subjectChains[key := id];
    }

    /** The chained callback, run when the entry before settles either way. */
    method RunNext(id: nat)
      requires CanStart(Abs(), id)
      modifies `callers
      ensures Abs() == Exec(old(Abs()), Start(id))
    {
      callers := callers[id := callers[id].(status := Running)];
    }

    /** The callback returned or threw; its tail then prunes the entry if it is still the last. */
    method SettleTail(id: nat, ok: bool)
      requires id < |callers| && callers[id].status == Running
      modifies this
      ensures Abs() == Exec(Exec(old(Abs()), Settle(id, ok)), Prune(id))
    {
      callers := callers[id := callers[id].(status := Settled(ok))];
      var key := callers[id].key;
      if key in subjectChains && subjectChains[key] == id {
        subjectChains := subjectChains - {key};
      }
    }
  }

  // ---------------------------------------------------------------- what every step keeps

  ghost predicate SameKey(s: State, i: nat, j: nat) {
    i < |s.callers| && j < |s.callers| && s.callers[i].key == s.callers[j].key
  }

  /** Whoever has started found every earlier caller on the key settled: no two run at
      once, and they start in the order they asked. */
  ghost predicate Exclusive(s: State) {
    forall i: nat, j: nat :: i < j && SameKey(s, i, j) && s.callers[j].status != Waiting ==> s.callers[i].status.Settled?
  }

  /** `j` runs after the caller just before it on its key; if it found no entry, `i` has
      settled. */
  ghost predicate Follows(s: State, i: nat, j: nat)
    requires i < |s.callers| && j < |s.callers|
  {
    if s.callers[j].prev.None? then s.callers[i].status.Settled?
    else i <= s.callers[j].prev.value < j && SameKey(s, s.callers[j].prev.value, j)
  }

  ghost predicate Chained(s: State) {
    forall i: nat, j: nat :: i < j && SameKey(s, i, j) ==> Follows(s, i, j)
  }

  ghost predicate PrevBefore(s: State) {
    forall j: nat :: j < |s.callers| && s.callers[j].prev.Some? ==>
      s.callers[j].prev.value < j && SameKey(s, s.callers[j].prev.value, j)
  }

  /** The entry of a key is its last caller; a key without one has nobody unsettled. */
  ghost predicate TailsAreLast(s: State) {
    && (forall key <- s.chains :: s.chains[key] < |s.callers| && s.callers[s.chains[key]].key == key)
    && (forall i: nat :: i < |s.callers| ==>
          if s.callers[i].key in s.chains then i <= s.chains[s.callers[i].key] else s.callers[i].status.Settled?)
  }

  ghost predicate Inv(s: State) {
    Exclusive(s) && Chained(s) && PrevBefore(s) && TailsAreLast(s)
  }

  lemma AskKeeps(s: State, key: string)
    requires Inv(s)
    ensures Inv(Exec(s, Ask(key)))
  {
    var t := Exec(s, Ask(key));
    forall i: nat, j: nat | i < j && SameKey(t, i, j)
      ensures t.callers[j].status != Waiting ==> t.callers[i].status.Settled?
      ensures Follows(t, i, j)
    {
      if j < |s.callers| { assert SameKey(s, i, j) && Follows(s, i, j); }
    }
    forall j: nat | j < |t.callers| && t.callers[j].prev.Some?
      ensures t.callers[j].prev.value < j && SameKey(t, t.callers[j].prev.value, j)
    {
      if j < |s.callers| { assert SameKey(s, s.callers[j].prev.value, j); }
    }
  }

  /** Only statuses moved, and whoever had settled stays so. */
  ghost predicate OnlyProgress(s: State, t: State) {
    && t.chains == s.chains && |t.callers| == |s.callers|
    && forall i: nat :: i < |s.callers| ==>
         && t.callers[i].key == s.callers[i].key && t.callers[i].prev == s.callers[i].prev
         && (s.callers[i].status.Settled? ==> t.callers[i].status.Settled?)
  }

  lemma ProgressKeepsChains(s: State, t: State)
    requires Inv(s) && OnlyProgress(s, t)
    ensures Chained(t) && PrevBefore(t) && TailsAreLast(t)
  {
    forall i: nat, j: nat | i < j && SameKey(t, i, j)
      ensures Follows(t, i, j)
    {
      assert SameKey(s, i, j) && Follows(s, i, j);
    }
    forall j: nat | j < |t.callers| && t.callers[j].prev.Some?
      ensures t.callers[j].prev.value < j && SameKey(t, t.callers[j].prev.value, j)
    {
      assert SameKey(s, s.callers[j].prev.value, j);
    }
  }

  lemma StartKeeps(s: State, id: nat)
    requires Inv(s)
    ensures Inv(Exec(s, Start(id)))
  {
    if CanStart(s, id) {
      var t := Exec(s, Start(id));
      ProgressKeepsChains(s, t);
      forall i: nat, j: nat | i < j && SameKey(t, i, j) && t.callers[j].status != Waiting
        ensures t.callers[i].status.Settled?
      {
        assert SameKey(s, i, j);
        if j == id { EarlierSettled(s, i, id); }
      }
    }
  }

  lemma EarlierSettled(s: State, i: nat, id: nat)
    requires Inv(s) && CanStart(s, id) && i < id && SameKey(s, i, id)
    ensures s.callers[i].status.Settled?
  {
    assert Follows(s, i, id);
    if s.callers[id].prev.Some? {
      var p := s.callers[id].prev.value;
      if i < p { assert SameKey(s, i, p); }
    }
  }

  lemma SettleKeeps(s: State, id: nat, ok: bool)
    requires Inv(s)
    ensures Inv(Exec(s, Settle(id, ok)))
  {
    var t := Exec(s, Settle(id, ok));
    ProgressKeepsChains(s, t);
    forall i: nat, j: nat | i < j && SameKey(t, i, j) && t.callers[j].status != Waiting
      ensures t.callers[i].status.Settled?
    {
      assert SameKey(s, i, j);
    }
  }

  /** Pruning is safe: the entry goes only when its caller, and with it everyone before,
      has settled and nobody has queued behind. */
  lemma PruneKeeps(s: State, id: nat)
    requires Inv(s)
    ensures Inv(Exec(s, Prune(id)))
  {
    var t := Exec(s, Prune(id));
    assert forall i: nat, j: nat :: SameKey(t, i, j) <==> SameKey(s, i, j);
    if t != s {
      forall i: nat | i < |s.callers| && s.callers[i].key == s.callers[id].key
        ensures s.callers[i].status.Settled?
      {
        if i < id { assert SameKey(s, i, id); }
      }
    }
  }

  function Run(s: State, steps: seq<Step>): State {
    if steps == [] then s else Exec(Run(s, steps[..|steps| - 1]), steps[|steps| - 1])
  }

  /** Under every interleaving of asking, starting, settling and pruning: callers of one
      key never overlap, start in the order they asked, and a pruned entry lets nobody
      overtake. */
  lemma {:induction false} LockIsExclusive(steps: seq<Step>)
    ensures Inv(Run(State([], map[]), steps))
    ensures Exclusive(Run(State([], map[]), steps))
  {
    if steps != [] {
      LockIsExclusive(steps[..|steps| - 1]);
      var s := Run(State([], map[]), steps[..|steps| - 1]);
      match steps[|steps| - 1]
      case Ask(key) => AskKeeps(s, key);
      case Start(id) => StartKeeps(s, id);
      case Settle(id, ok) => SettleKeeps(s, id, ok);
      case Prune(id) => PruneKeeps(s, id);
    }
  }

  /** No caller is ever stuck, however those before it ended: if one waits, someone on its
      key is running or may start now. */
  lemma {:induction false} NobodyIsStuck(s: State, id: nat)
    requires Inv(s) && id < |s.callers| && !s.callers[id].status.Settled?
    ensures exists i: nat :: i <= id && SameKey(s, i, id) && (s.callers[i].status == Running || CanStart(s, i))
    decreases id
  {
    if s.callers[id].status == Waiting && !CanStart(s, id) {
      var p := s.callers[id].prev.value;
      assert SameKey(s, p, id);
      NobodyIsStuck(s, p);
      var i: nat :| i <= p && SameKey(s, i, p) && (s.callers[i].status == Running || CanStart(s, i));
      assert SameKey(s, i, id);
    } else {
      assert SameKey(s, id, id);
    }
  }

  /** A caller may start exactly when it waits and everyone who asked before on its key has
      settled; it then runs. */
  lemma StartsIff(s: State, id: nat)
    requires Inv(s) && id < |s.callers|
    ensures var t := Exec(s, Start(id));
            var free := s.callers[id].status == Waiting && forall i: nat :: i < id && SameKey(s, i, id) ==> s.callers[i].status.Settled?;
            && t.chains == s.chains
            && t.callers == if free then s.callers[id := s.callers[id].(status := Running)] else s.callers
  {
    if CanStart(s, id) {
      forall i: nat | i < id && SameKey(s, i, id)
        ensures s.callers[i].status.Settled?
      {
        EarlierSettled(s, i, id);
      }
    }
    if s.callers[id].prev.Some? { assert SameKey(s, s.callers[id].prev.value, id); }
  }

  /** Once a running caller has settled, as it did, and pruned, its key has an entry exactly
      if someone asked behind it: idle keys leave nothing in the map. */
  lemma TailGoesIff(s: State, id: nat, ok: bool)
    requires Inv(s) && id < |s.callers| && s.callers[id].status == Running
    ensures var t := Exec(Exec(s, Settle(id, ok)), Prune(id));
            && t.callers == s.callers[id := s.callers[id].(status := Settled(ok))]
            && (s.callers[id].key in t.chains <==> exists j: nat :: j > id && SameKey(s, id, j))
            && forall key :: key != s.callers[id].key ==> (key in t.chains <==> key in s.chains) && (key in t.chains ==> t.chains[key] == s.chains[key])
  {
    var key := s.callers[id].key;
    assert key in s.chains && id <= s.chains[key];
    if id < s.chains[key] {
      assert SameKey(s, id, s.chains[key]);
    } else {
      forall j: nat | j > id
        ensures !SameKey(s, id, j)
      {
      }
    }
  }
}
