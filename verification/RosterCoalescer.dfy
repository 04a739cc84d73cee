/** Coalesced roster publishing: a burst of calls shares one runner that publishes again
    while anyone asked meanwhile. */
module RosterCoalescer {
  import opened Wrappers

  /** What happened, in order. A `Snapshot` is taken when a run starts a publish;
      `Published` and `Failed` end it. Waiters are told together. */
  datatype Entry =
    | Called(call: nat)
    | Snapshot(run: nat)
    | Published(run: nat)
    | Failed(run: nat)
    | Resolved(calls: set<nat>)
    | Rejected(calls: set<nat>)

  /** `since` is where in the log the last snapshot was taken. */
  datatype State = State(dirty: bool, runner: Option<nat>, runs: map<nat, set<nat>>, next: nat, since: nat, log: seq<Entry>)

  datatype Step = Call(call: nat) | Settle(run: nat, ok: bool)

  /** A publish that is not in flight cannot settle. */
  function Exec(s: State, step: Step): State {
    match step
    case Call(c) =>
      var called := s.log + [Called(c)];
      if s.runner.Some? then
        var waiting := if s.runner.value in s.runs then s.runs[s.runner.value] else {};
        s.(dirty := true, runs := s.runs[s.runner.value := waiting + {c}], log := called)
      else State(false, Some(s.next), s.runs[s.next := {c}], s.next + 1, |called|, called + [Snapshot(s.next)])
    case Settle(run, ok) =>
      if run !in s.runs then s
      else if ok && s.dirty then s.(dirty := false, since := |s.log| + 1, log := s.log + [Published(run), Snapshot(run)])
      else
        var told := if ok then [Published(run), Resolved(s.runs[run])] else [Failed(run), Rejected(s.runs[run])];
        s.(runner := None, runs := s.runs - {run}, log := s.log + told)
  }

  class Coalescer {
    var rosterDirty: bool
    var rosterRunner: Option<nat>
    var runs: map<nat, set<nat>>
    var next: nat
    var since: nat
    var log: seq<Entry>

    constructor ()
      ensures Abs() == State(false, None, map[], 0, 0, [])
    {
      rosterDirty, rosterRunner, runs, next, since, log := false, None, map[], 0, 0, [];
    }

    function Abs(): State
      reads this
    {
      State(rosterDirty, rosterRunner, runs, next, since, log)
    }

    method PublishRosterCoalesced(call: nat)
      modifies this
      ensures Abs() == Exec(old(Abs()), Call(call))
    {
      log := log + [Called(call)];
      rosterDirty := true;
      if rosterRunner.Some? {
        var waiting := if rosterRunner.value in runs then runs[rosterRunner.value] else {};
        runs := runs[rosterRunner.value := waiting + {call}];
        return;
      }
      var run := next;
      next := next + 1;
      runs := runs[run := {call}];
      var consumed := TakeDirty();
      assert consumed;
      since := |log|;
      log := log + [Snapshot(run)];
      rosterRunner := Some(run);
    }

    /** `rosterDirty.delete(key)`: consume the flag. */
    method TakeDirty() returns (was: bool)
      modifies `rosterDirty
      ensures was == old(rosterDirty) && !rosterDirty
    {
      was := rosterDirty;
      rosterDirty := false;
    }

    /** The awaited publish of `run` settled. */
    method PublishSettled(run: nat, ok: bool)
      requires run in runs
      modifies this
      ensures Abs() == Exec(old(Abs()), Settle(run, ok))
    {
      if ok {
        log := log + [Published(run)];
        var again := TakeDirty();
        if again {
          since := |log|;
          log := log + [Snapshot(run)];
          assert log == old(log) + [Published(run), Snapshot(run)];
          return;
        }
        log := log + [Resolved(runs[run])];
        assert log == old(log) + [Published(run), Resolved(runs[run])];
      } else {
        log := log + [Failed(run), Rejected(runs[run])];
      }
      rosterRunner := None;
      runs := runs - {run};
    }
  }

  function Run(s: State, steps: seq<Step>): State {
    if steps == [] then s else Exec(Run(s, steps[..|steps| - 1]), steps[|steps| - 1])
  }

  // ---------------------------------------------------------------- what every step keeps

  ghost predicate CalledAt(log: seq<Entry>, i: int, c: nat) {
    0 <= i < |log| && log[i] == Called(c)
  }

  ghost predicate SnapshotAt(log: seq<Entry>, i: int) {
    0 <= i < |log| && log[i].Snapshot?
  }

  /** The publish begun at `i` ended at `k`. */
  ghost predicate EndsAt(log: seq<Entry>, i: int, k: int) {
    SnapshotAt(log, i) && i < k < |log| && (log[k] == Published(log[i].run) || log[k] == Failed(log[i].run))
  }

  /** At position `k` a publish succeeded whose snapshot was taken after `c` was called. */
  ghost predicate CoveredBy(log: seq<Entry>, c: nat, a: int, i: int, k: int) {
    CalledAt(log, a, c) && a < i && EndsAt(log, i, k) && log[k].Published? && forall j :: i < j < k ==> !SnapshotAt(log, j)
  }

  /** Whoever is told "resolved" was covered before. */
  ghost predicate PromisesKept(log: seq<Entry>) {
    forall p, c :: 0 <= p < |log| && log[p].Resolved? && c in log[p].calls ==>
      exists a, i, k :: CoveredBy(log, c, a, i, k) && k < p
  }

  /** Publishes never overlap: each ended before the next began. */
  ghost predicate OneAtATime(log: seq<Entry>) {
    forall i, j :: i < j && SnapshotAt(log, i) && SnapshotAt(log, j) ==> exists k :: EndsAt(log, i, k) && k < j
  }

  ghost predicate AllEnded(log: seq<Entry>) {
    forall i :: SnapshotAt(log, i) ==> exists k :: EndsAt(log, i, k)
  }

  function Calls(log: seq<Entry>): nat {
    if log == [] then 0 else Calls(log[..|log| - 1]) + if log[|log| - 1].Called? then 1 else 0
  }

  function Publishes(log: seq<Entry>): nat {
    if log == [] then 0 else Publishes(log[..|log| - 1]) + if log[|log| - 1].Snapshot? then 1 else 0
  }

  ghost predicate Called1(log: seq<Entry>, c: nat, before: int) {
    exists a :: CalledAt(log, a, c) && a < before
  }

  /** The runner's snapshot is the last one, and every waiter called before it, unless the
      flag says the run goes round again. */
  ghost predicate InFlight(s: State, run: nat) {
    && s.runs.Keys == {run}
    && SnapshotAt(s.log, s.since) && s.log[s.since].run == run
    && (forall j :: SnapshotAt(s.log, j) ==> j <= s.since)
    && (forall c <- s.runs[run] :: Called1(s.log, c, if s.dirty then |s.log| else s.since))
  }

  ghost predicate Inv(s: State) {
    && PromisesKept(s.log) && OneAtATime(s.log)
    && Publishes(s.log) + (if s.dirty then 1 else 0) <= Calls(s.log)
    && if s.runner.None? then s.runs == map[] && AllEnded(s.log) else InFlight(s, s.runner.value)
  }

  // ---------------------------------------------------------------- growing the log

  lemma Grow(log: seq<Entry>, e: Entry)
    ensures forall i, k :: EndsAt(log, i, k) ==> EndsAt(log + [e], i, k)
    ensures forall c, a, i, k :: CoveredBy(log, c, a, i, k) ==> CoveredBy(log + [e], c, a, i, k)
    ensures forall c, n :: Called1(log, c, n) ==> Called1(log + [e], c, n)
    ensures forall i :: SnapshotAt(log + [e], i) <==> SnapshotAt(log, i) || (i == |log| && e.Snapshot?)
    ensures Calls(log + [e]) == Calls(log) + if e.Called? then 1 else 0
    ensures Publishes(log + [e]) == Publishes(log) + if e.Snapshot? then 1 else 0
  {
    var more := log + [e];
    assert more[..|log|] == log;
    forall c, a, i, k | CoveredBy(log, c, a, i, k)
      ensures CoveredBy(more, c, a, i, k)
    {
      assert EndsAt(more, i, k) && CalledAt(more, a, c);
      forall j | i < j < k
        ensures !SnapshotAt(more, j)
      {
        assert !SnapshotAt(log, j);
      }
    }
    forall c, n | Called1(log, c, n)
      ensures Called1(more, c, n)
    {
      var a :| CalledAt(log, a, c) && a < n;
      assert CalledAt(more, a, c);
    }
  }

  lemma PromisesGrow(log: seq<Entry>, e: Entry)
    requires PromisesKept(log)
    requires e.Resolved? ==> forall c <- e.calls :: exists a, i, k :: CoveredBy(log, c, a, i, k)
    ensures PromisesKept(log + [e])
  {
    Grow(log, e);
    var more := log + [e];
    forall p, c | 0 <= p < |more| && more[p].Resolved? && c in more[p].calls
      ensures exists a, i, k :: CoveredBy(more, c, a, i, k) && k < p
    {
      if p < |log| {
        assert log[p].Resolved? && c in log[p].calls;
        var a, i, k :| CoveredBy(log, c, a, i, k) && k < p;
        assert CoveredBy(more, c, a, i, k);
      } else {
        var a, i, k :| CoveredBy(log, c, a, i, k);
        assert CoveredBy(more, c, a, i, k);
      }
    }
  }

  lemma TurnsGrow(log: seq<Entry>, e: Entry)
    requires OneAtATime(log) && (e.Snapshot? ==> AllEnded(log))
    ensures OneAtATime(log + [e])
    ensures !e.Snapshot? && AllEnded(log) ==> AllEnded(log + [e])
  {
    Grow(log, e);
    var more := log + [e];
    forall i, j | i < j && SnapshotAt(more, i) && SnapshotAt(more, j)
      ensures exists k :: EndsAt(more, i, k) && k < j
    {
      assert SnapshotAt(log, i);
      if j < |log| {
        assert SnapshotAt(log, j);
        var k :| EndsAt(log, i, k) && k < j;
        assert EndsAt(more, i, k);
      } else {
        var k :| EndsAt(log, i, k);
        assert EndsAt(more, i, k);
      }
    }
    if !e.Snapshot? && AllEnded(log) {
      forall i | SnapshotAt(more, i)
        ensures exists k :: EndsAt(more, i, k)
      {
        assert SnapshotAt(log, i);
        var k :| EndsAt(log, i, k);
        assert EndsAt(more, i, k);
      }
    }
  }

  /** Ending the publish in flight ends them all, and on success covers every waiter that
      called before its snapshot. */
  lemma EndingEndsAll(s: State, run: nat, e: Entry)
    requires Inv(s) && s.runner == Some(run) && (e == Published(run) || e == Failed(run))
    ensures AllEnded(s.log + [e])
    ensures e.Published? && !s.dirty ==>
              forall c <- s.runs[run] :: exists a, i, k :: CoveredBy(s.log + [e], c, a, i, k)
  {
    Grow(s.log, e);
    var more := s.log + [e];
    forall i | SnapshotAt(more, i)
      ensures exists k :: EndsAt(more, i, k)
    {
      assert SnapshotAt(s.log, i);
      if i < s.since {
        var k :| EndsAt(s.log, i, k) && k < s.since;
        assert EndsAt(more, i, k);
      } else {
        assert EndsAt(more, s.since, |s.log|);
      }
    }
    if e.Published? && !s.dirty {
      forall c <- s.runs[run]
        ensures exists a, i, k :: CoveredBy(more, c, a, i, k)
      {
        var a :| CalledAt(s.log, a, c) && a < s.since;
        assert CalledAt(more, a, c) && EndsAt(more, s.since, |s.log|);
        forall j | s.since < j < |s.log|
          ensures !SnapshotAt(more, j)
        {
        }
        assert CoveredBy(more, c, a, s.since, |s.log|);
      }
    }
  }

  lemma CallJoins(s: State, c: nat)
    requires Inv(s) && s.runner.Some?
    ensures Inv(Exec(s, Call(c)))
  {
    var called := s.log + [Called(c)];
    Grow(s.log, Called(c));
    PromisesGrow(s.log, Called(c));
    TurnsGrow(s.log, Called(c));
    assert CalledAt(called, |s.log|, c);
    var t := Exec(s, Call(c));
    forall w <- t.runs[s.runner.value]
      ensures Called1(t.log, w, |t.log|)
    {
      if w != c {
        var a :| CalledAt(s.log, a, w);
        assert CalledAt(t.log, a, w);
      }
    }
  }

  lemma CallStarts(s: State, c: nat)
    requires Inv(s) && s.runner.None?
    ensures Inv(Exec(s, Call(c)))
  {
    var called := s.log + [Called(c)];
    Grow(s.log, Called(c));
    PromisesGrow(s.log, Called(c));
    TurnsGrow(s.log, Called(c));
    assert CalledAt(called, |s.log|, c);
    assert Called1(called, c, |called|);
    var e := Snapshot(s.next);
    Grow(called, e);
    PromisesGrow(called, e);
    TurnsGrow(called, e);
    assert SnapshotAt(called + [e], |called|);
  }

  lemma CallKeeps(s: State, c: nat)
    requires Inv(s)
    ensures Inv(Exec(s, Call(c)))
  {
    if s.runner.Some? {
      CallJoins(s, c);
    } else {
      CallStarts(s, c);
    }
  }

  lemma SettleKeeps(s: State, run: nat, ok: bool)
    requires Inv(s)
    ensures Inv(Exec(s, Settle(run, ok)))
  {
    if run in s.runs {
      var e := if ok then Published(run) else Failed(run);
      var ended := s.log + [e];
      EndingEndsAll(s, run, e);
      Grow(s.log, e);
      PromisesGrow(s.log, e);
      TurnsGrow(s.log, e);
      var f := if ok && s.dirty then Snapshot(run) else if ok then Resolved(s.runs[run]) else Rejected(s.runs[run]);
      Grow(ended, f);
      PromisesGrow(ended, f);
      TurnsGrow(ended, f);
      var t := Exec(s, Settle(run, ok));
      assert t.log == ended + [f];
      if ok && s.dirty {
        forall c <- t.runs[run]
          ensures Called1(t.log, c, t.since)
        {
          CalledStays(s.log, t.log, c, t.since);
        }
      }
    }
  }

  lemma CalledStays(log: seq<Entry>, more: seq<Entry>, c: nat, n: nat)
    requires log <= more && |log| <= n && Called1(log, c, |log|)
    ensures Called1(more, c, n)
  {
    var a :| CalledAt(log, a, c) && a < |log|;
    assert CalledAt(more, a, c);
  }

  /** Under every interleaving and every failure: whoever is told their call succeeded is
      covered by a publish that succeeded and whose snapshot was taken after they called;
      publishes of one event never overlap, and never outnumber the calls. */
  lemma {:induction false} CoalescingIsSafe(steps: seq<Step>)
    ensures var t := Run(State(false, None, map[], 0, 0, []), steps);
            Inv(t) && PromisesKept(t.log) && OneAtATime(t.log) && |t.runs| <= 1 && Publishes(t.log) <= Calls(t.log)
  {
    if steps != [] {
      CoalescingIsSafe(steps[..|steps| - 1]);
      var s := Run(State(false, None, map[], 0, 0, []), steps[..|steps| - 1]);
      match steps[|steps| - 1]
      case Call(c) => CallKeeps(s, c);
      case Settle(run, ok) => SettleKeeps(s, run, ok);
    }
    var t := Run(State(false, None, map[], 0, 0, []), steps);
    assert |t.runs| == |t.runs.Keys|;
  }

  // ---------------------------------------------------------------- who is told what

  /** Who called and has not been told yet. */
  function Untold(log: seq<Entry>): set<nat> {
    if log == [] then {}
    else
      var before := Untold(log[..|log| - 1]);
      match log[|log| - 1]
      case Called(c) => before + {c}
      case Resolved(calls) => before - calls
      case Rejected(calls) => before - calls
      case _ => before
  }

  /** Has anyone called since the last snapshot? */
  predicate AskedSince(log: seq<Entry>) {
    log != [] && var e := log[|log| - 1]; e.Called? || (!e.Snapshot? && AskedSince(log[..|log| - 1]))
  }

  /** A run waits for someone: its waiters are exactly those not told yet, and the flag says whether someone
      called since its snapshot. */
  ghost predicate Tallies(s: State) {
    if s.runner.None? then s.runs == map[] && Untold(s.log) == {}
    else s.runs == map[s.runner.value := Untold(s.log)] && Untold(s.log) != {} && (s.dirty <==> AskedSince(s.log))
  }

  lemma Append(log: seq<Entry>, e: Entry)
    ensures (log + [e])[..|log + [e]| - 1] == log
  {
  }

  lemma {:induction false} RunTallies(steps: seq<Step>)
    ensures Tallies(Run(State(false, None, map[], 0, 0, []), steps))
  {
    if steps != [] {
      RunTallies(steps[..|steps| - 1]);
      TallyStays(Run(State(false, None, map[], 0, 0, []), steps[..|steps| - 1]), steps[|steps| - 1]);
    }
  }

  lemma TallyStays(s: State, step: Step)
    requires Tallies(s)
    ensures Tallies(Exec(s, step))
  {
    match step
    case Call(c) =>
      Append(s.log, Called(c));
      Append(s.log + [Called(c)], Snapshot(s.next));
      var t := Exec(s, Call(c));
      assert Untold(t.log) == Untold(s.log) + {c};
      if s.runner.Some? {
        assert s.runs[s.runner.value] == Untold(s.log);
        assert t.runs == s.runs[s.runner.value := Untold(s.log) + {c}];
      } else {
        assert t.runs == map[s.next := {c}] && {c} == Untold(s.log) + {c};
      }
    case Settle(run, ok) =>
      if run in s.runs { SettleTells(s, run, ok); }
  }

  lemma SettleTells(s: State, run: nat, ok: bool)
    requires Tallies(s) && run in s.runs
    ensures var t := Exec(s, Settle(run, ok));
            && Tallies(t)
            && t.log == s.log + (if !ok then [Failed(run), Rejected(Untold(s.log))]
                                 else if AskedSince(s.log) then [Published(run), Snapshot(run)]
                                 else [Published(run), Resolved(Untold(s.log))])
            && Untold(t.log) == if ok && AskedSince(s.log) then Untold(s.log) else {}
  {
    var t := Exec(s, Settle(run, ok));
    var e := if ok then Published(run) else Failed(run);
    var f := if !ok then Rejected(Untold(s.log)) else if AskedSince(s.log) then Snapshot(run) else Resolved(Untold(s.log));
    Append(s.log, e);
    Append(s.log + [e], f);
    assert t.log == s.log + [e] + [f];
    assert Untold(s.log + [e]) == Untold(s.log);
  }

  /** Over every run nobody is forgotten: a failed publish rejects exactly those who called
      and were not told yet; a publish that succeeds resolves exactly those, unless someone
      called since its snapshot, and then nobody is told and it goes round again. */
  lemma EveryoneIsTold(steps: seq<Step>, run: nat, ok: bool)
    requires run in Run(State(false, None, map[], 0, 0, []), steps).runs
    ensures var s := Run(State(false, None, map[], 0, 0, []), steps);
            var t := Exec(s, Settle(run, ok));
            && t.log == s.log + (if !ok then [Failed(run), Rejected(Untold(s.log))]
                                 else if AskedSince(s.log) then [Published(run), Snapshot(run)]
                                 else [Published(run), Resolved(Untold(s.log))])
            && Untold(t.log) == (if ok && AskedSince(s.log) then Untold(s.log) else {})
            && (t.runs == map[] <==> Untold(t.log) == {})
  {
    RunTallies(steps);
    var s := Run(State(false, None, map[], 0, 0, []), steps);
    SettleTells(s, run, ok);
  }

  /** Only a call that finds no publish under way starts one; any other joins the waiters. */
  lemma CallStartsOrJoins(steps: seq<Step>, c: nat)
    ensures var s := Run(State(false, None, map[], 0, 0, []), steps);
            var t := Exec(s, Call(c));
            && t.log == s.log + [Called(c)] + (if s.runs == map[] then [Snapshot(s.next)] else [])
            && |t.runs| == 1 && Untold(t.log) == Untold(s.log) + {c}
  {
    RunTallies(steps);
    var s := Run(State(false, None, map[], 0, 0, []), steps);
    TallyStays(s, Call(c));
    Append(s.log, Called(c));
    Append(s.log + [Called(c)], Snapshot(s.next));
    assert s.runner.Some? ==> s.runner.value in s.runs;
  }
}
