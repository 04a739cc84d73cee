/** Scoring batches claim directed pairs before paying for them, and release them whatever
    the batch's outcome. One event's pairs. */
module PairClaims {
  import opened Wrappers

  datatype Pair = Pair(a: string, b: string, inputsHash: string)

  /** A directed row of the store: the inputs it stands for, and whether it is scored. */
  datatype Row = Row(inputsHash: string, scored: bool)

  /** A batch from its claim to its release: what it pays for, and what it has recorded. */
  datatype Batch = Batch(todo: seq<Pair>, recorded: set<Pair>)

  datatype State = State(rows: map<(string, string), Row>, inFlight: set<Pair>, batches: map<nat, Batch>, next: nat)

  datatype Step =
    | Start(pairs: seq<Pair>)
    | Record(batch: nat, pair: Pair)
    | Requeue(pair: Pair)
    | Finish(batch: nat)

  predicate Scored(rows: map<(string, string), Row>, p: Pair) {
    (p.a, p.b) in rows && rows[(p.a, p.b)] == Row(p.inputsHash, true)
  }

  /** The pairs a batch claims, in order: neither scored at their inputs nor claimed, by
      another batch or earlier in this one. */
  function Claimed(rows: map<(string, string), Row>, inFlight: set<Pair>, pairs: seq<Pair>): (claimed: seq<Pair>)
    ensures forall p <- claimed :: p in pairs && !Scored(rows, p) && p !in inFlight
    ensures forall p <- pairs :: Scored(rows, p) || p in inFlight || p in claimed
    ensures forall i, j :: 0 <= i < j < |claimed| ==> claimed[i] != claimed[j]
  {
    if pairs == [] then []
    else
      var before := Claimed(rows, inFlight, pairs[..|pairs| - 1]);
      var p := pairs[|pairs| - 1];
      if Scored(rows, p) || p in inFlight || p in before then before else before + [p]
  }

  function Exec(s: State, step: Step): State {
    match step
    case Start(pairs) =>
      var claimed := Claimed(s.rows, s.inFlight, pairs);
      State(s.rows, s.inFlight + (set p <- claimed), s.batches[s.next := Batch(claimed, {})], s.next + 1)
    case Record(id, p) =>
      if id in s.batches && p in s.batches[id].todo
      then s.(rows := s.rows[(p.a, p.b) := Row(p.inputsHash, true)],
              batches := s.batches[id := s.batches[id].(recorded := s.batches[id].recorded + {p})])
      else s
    case Requeue(p) => s.(rows := s.rows[(p.a, p.b) := Row(p.inputsHash, false)])
    case Finish(id) =>
      if id in s.batches
      then s.(inFlight := s.inFlight - (set p <- s.batches[id].todo), batches := s.batches - {id})
      else s
  }

  class Scorer {
    var rows: map<(string, string), Row>
    var pairsInFlight: set<Pair>
    var batches: map<nat, Batch>
    var next: nat

    constructor (rows: map<(string, string), Row>)
      ensures Abs() == State(rows, {}, map[], 0)
    {
      this.rows := rows;
      pairsInFlight, batches, next := {}, map[], 0;
    }

    function Abs(): State
      reads this
    {
      State(rows, pairsInFlight, batches, next)
    }

    method ClaimPendingPairs(pairs: seq<Pair>) returns (claimed: seq<Pair>)
      modifies `pairsInFlight
      ensures claimed == Claimed(rows, old(pairsInFlight), pairs)
      ensures pairsInFlight == old(pairsInFlight) + (set p <- claimed)
    {
      claimed := [];
      for i := 0 to |pairs|
        invariant claimed == Claimed(rows, old(pairsInFlight), pairs[..i])
        invariant pairsInFlight == old(pairsInFlight) + (set p <- claimed)
      {
        var p := pairs[i];
        assert pairs[..i + 1][..i] == pairs[..i];
        var row := if (p.a, p.b) in rows then Some(rows[(p.a, p.b)]) else None;
        if row.Some? && row.value.inputsHash == p.inputsHash && row.value.scored { continue; }
        if p in pairsInFlight { continue; }
        pairsInFlight := pairsInFlight + {p};
        claimed := claimed + [p];
      }
      assert pairs[..|pairs|] == pairs;
    }

    method ReleasePairs(pairs: seq<Pair>)
      modifies `pairsInFlight
      ensures pairsInFlight == old(pairsInFlight) - (set p <- pairs)
    {
      for i := 0 to |pairs|
        invariant pairsInFlight == old(pairsInFlight) - (set p <- pairs[..i])
      {
        assert pairs[..i + 1] == pairs[..i] + [pairs[i]];
        pairsInFlight := pairsInFlight - {pairs[i]};
      }
      assert pairs[..|pairs|] == pairs;
    }

    /** Claim synchronously; the provider calls come after. */
    method ScoreBatchStart(pairs: seq<Pair>) returns (id: nat)
      modifies this
      ensures id == old(next) && Abs() == Exec(old(Abs()), Start(pairs))
    {
      id := next;
      var todo := ClaimPendingPairs(pairs);
      batches := batches[id := Batch(todo, {})];
      next := id + 1;
    }

    /** The `finally` block. */
    method ScoreBatchEnd(id: nat)
      requires id in batches
      modifies this
      ensures Abs() == Exec(old(Abs()), Finish(id))
    {
      ReleasePairs(batches[id].todo);
      batches := batches - {id};
    }
  }

  // ---------------------------------------------------------------- what every step keeps

  /** A pair is in flight exactly while one batch holds it; no two batches hold the same
      one; nothing a batch holds is scored at its inputs, unless that batch scored it. */
  ghost predicate Inv(s: State) {
    && (forall id <- s.batches :: id < s.next && forall p <- s.batches[id].todo :: p in s.inFlight)
    && (forall p <- s.inFlight :: exists id :: id in s.batches && p in s.batches[id].todo)
    && (forall i, j, p :: i in s.batches && j in s.batches && p in s.batches[i].todo && p in s.batches[j].todo ==> i == j)
    && (forall id <- s.batches :: forall i, j :: 0 <= i < j < |s.batches[id].todo| ==> s.batches[id].todo[i] != s.batches[id].todo[j])
    && (forall id <- s.batches :: forall p <- s.batches[id].todo :: Scored(s.rows, p) ==> p in s.batches[id].recorded)
  }

  lemma StartKeeps(s: State, pairs: seq<Pair>)
    requires Inv(s)
    ensures Inv(Exec(s, Start(pairs)))
  {
    var t := Exec(s, Start(pairs));
    forall p <- t.inFlight
      ensures exists id :: id in t.batches && p in t.batches[id].todo
    {
      if p in s.inFlight {
        var id :| id in s.batches && p in s.batches[id].todo;
        assert id in t.batches && p in t.batches[id].todo;
      } else {
        assert s.next in t.batches && p in t.batches[s.next].todo;
      }
    }
  }

  lemma RecordKeeps(s: State, id: nat, p: Pair)
    requires Inv(s)
    ensures Inv(Exec(s, Record(id, p)))
  {
    var t := Exec(s, Record(id, p));
    forall q <- t.inFlight
      ensures exists i :: i in t.batches && q in t.batches[i].todo
    {
      var i :| i in s.batches && q in s.batches[i].todo;
      assert i in t.batches && q in t.batches[i].todo;
    }
    forall i, q | i in t.batches && q in t.batches[i].todo && Scored(t.rows, q)
      ensures q in t.batches[i].recorded
    {
      if t != s && q.a == p.a && q.b == p.b {
        assert q == p;
      } else {
        assert Scored(s.rows, q);
      }
    }
  }

  lemma FinishKeeps(s: State, id: nat)
    requires Inv(s)
    ensures Inv(Exec(s, Finish(id)))
  {
    var t := Exec(s, Finish(id));
    forall q <- t.inFlight
      ensures exists i :: i in t.batches && q in t.batches[i].todo
    {
      var i :| i in s.batches && q in s.batches[i].todo;
      assert i in t.batches && q in t.batches[i].todo;
    }
  }

  function Run(s: State, steps: seq<Step>): State {
    if steps == [] then s else Exec(Run(s, steps[..|steps| - 1]), steps[|steps| - 1])
  }

  /** Under every interleaving of batches starting, recording, ending in any way, and rows
      being requeued: no directed pair is paid for by two batches at once, none already
      scored is in one, and nothing stays claimed once no batch runs. */
  lemma {:induction false} NoPairIsPaidTwice(rows: map<(string, string), Row>, steps: seq<Step>)
    ensures var t := Run(State(rows, {}, map[], 0), steps);
            Inv(t) && (t.batches == map[] ==> t.inFlight == {})
  {
    if steps != [] {
      NoPairIsPaidTwice(rows, steps[..|steps| - 1]);
      var s := Run(State(rows, {}, map[], 0), steps[..|steps| - 1]);
      match steps[|steps| - 1]
      case Start(pairs) => StartKeeps(s, pairs);
      case Record(id, p) => RecordKeeps(s, id, p);
      case Requeue(p) =>
        assert forall q :: Scored(Exec(s, Requeue(p)).rows, q) ==> Scored(s.rows, q);
      case Finish(id) => FinishKeeps(s, id);
    }
  }

  /** A batch claims of the pairs it was given exactly those not recorded as scored at these
      very inputs and not held by another batch, and holds them until it ends. */
  lemma ClaimsExactly(s: State, pairs: seq<Pair>, p: Pair)
    ensures var t := Exec(s, Start(pairs));
            var scored := (p.a, p.b) in s.rows && s.rows[(p.a, p.b)].scored && s.rows[(p.a, p.b)].inputsHash == p.inputsHash;
            && s.next in t.batches && t.rows == s.rows && t.next == s.next + 1
            && (p in t.batches[s.next].todo <==> p in pairs && !scored && p !in s.inFlight)
            && (p in t.inFlight <==> p in s.inFlight || (p in pairs && !scored))
  {
  }

  /** The row of `p`'s members is recorded as scored at `p`'s inputs. */
  ghost predicate OnRecord(s: State, p: Pair) {
    (p.a, p.b) in s.rows && s.rows[(p.a, p.b)].scored && s.rows[(p.a, p.b)].inputsHash == p.inputsHash
  }

  /** The step writes the row of these two members, other than to record `p` again. */
  ghost predicate Overwrites(step: Step, p: Pair) {
    (step.Record? || step.Requeue?) && step.pair.a == p.a && step.pair.b == p.b && (step.Requeue? || step.pair != p)
  }

  /** What a batch has recorded is claimed by no batch again, until its row is requeued or
      written for other inputs. */
  lemma {:induction false} RecordedStays(s: State, batch: nat, p: Pair, steps: seq<Step>, pairs: seq<Pair>)
    requires batch in s.batches && p in s.batches[batch].todo
    requires forall step <- steps :: !Overwrites(step, p)
    ensures var t := Run(Exec(s, Record(batch, p)), steps);
            && OnRecord(t, p)
            && t.next in Exec(t, Start(pairs)).batches && p !in Exec(t, Start(pairs)).batches[t.next].todo
    decreases |steps|
  {
    if steps != [] {
      var init := steps[..|steps| - 1];
      assert steps[|steps| - 1] in steps;
      RecordedStays(s, batch, p, init, pairs);
    }
    ClaimsExactly(Run(Exec(s, Record(batch, p)), steps), pairs, p);
  }

  /** An ended batch lets go of its pairs, and only of those. */
  lemma FinishReleases(s: State, id: nat, p: Pair)
    requires Inv(s) && id in s.batches
    ensures var t := Exec(s, Finish(id));
            && id !in t.batches && t.rows == s.rows
            && (p in t.inFlight <==> exists other :: other != id && other in s.batches && p in s.batches[other].todo)
  {
    if p in s.inFlight {
      var holder :| holder in s.batches && p in s.batches[holder].todo;
    }
  }
}
