/** Latest command wins: over every run of deliveries, in any order, duplicated, failing
    part way and retried, effects start in increasing order and complete at most once. */
module MembershipOrder {
  import opened Wrappers
  import opened Ordering
  import opened Text
  import opened EckIdentity
  import opened Membership

  /** A rumor id names its contents: the command each id stands for. */
  type Registry = map<string, Command>

  ghost predicate Registered(step: Step, reg: Registry) {
    step.Deliver? ==> step.cmd.rumor in reg && reg[step.cmd.rumor] == step.cmd
  }

  ghost predicate Starts(cmd: Command, m: string, createdAt: int, kind: Kind) {
    match cmd
    case Admin(m', at, _, k) => m' == m && at == createdAt && k == kind
    case Withdrawal(m', at, _, deleteData) => m' == m && at == createdAt && kind == Withdraw(deleteData)
    case Join(_, _, _) => false
  }

  function Ev(e: Entry): Event
    requires e.Began?
  {
    Event(e.rumor, Some(e.createdAt))
  }

  function OpEv(op: Op): Event {
    Event(op.rumor, Some(op.createdAt))
  }

  ghost predicate BeganAt(log: seq<Entry>, i: int, m: string) {
    0 <= i < |log| && log[i].Began? && log[i].member == m
  }

  ghost predicate CompletedAt(log: seq<Entry>, i: int, m: string, r: string) {
    0 <= i < |log| && log[i] == Completed(m, r)
  }

  /** Starts of one member never go back, and a later start of another rumor supersedes. */
  ghost predicate StartsIncrease(log: seq<Entry>) {
    forall m, i, j :: i < j && BeganAt(log, i, m) && BeganAt(log, j, m) ==>
      log[i] == log[j] || Supersedes(Ev(log[j]), Ev(log[i]))
  }

  /** A completed rumor never starts again. */
  ghost predicate CompletedNeverRestarts(log: seq<Entry>) {
    forall m, r, i, j :: i < j && CompletedAt(log, i, m, r) && BeganAt(log, j, m) ==> log[j].rumor != r
  }

  ghost predicate StartsAreRegistered(s: State, reg: Registry) {
    forall m, i :: BeganAt(s.log, i, m) ==> s.log[i].rumor in reg && Starts(reg[s.log[i].rumor], m, s.log[i].createdAt, s.log[i].kind)
  }

  ghost predicate WatermarkIsNewest(s: State) {
    && (forall m, i :: BeganAt(s.log, i, m) ==>
         m in s.ops && (s.log[i].rumor == s.ops[m].rumor || Supersedes(OpEv(s.ops[m]), Ev(s.log[i]))))
    && (forall m <- s.ops :: Began(m, s.ops[m].createdAt, s.ops[m].rumor, s.ops[m].kind) in s.log)
  }

  ghost predicate CompletionsAreRecorded(s: State) {
    forall m, r, i :: CompletedAt(s.log, i, m, r) ==>
      && (m in s.ops && s.ops[m].rumor == r ==> s.ops[m].complete)
      && exists j :: BeganAt(s.log, j, m) && s.log[j].rumor == r
  }

  ghost predicate OrderInv(s: State, reg: Registry) {
    && StartsAreRegistered(s, reg)
    && WatermarkIsNewest(s)
    && CompletionsAreRecorded(s)
    && StartsIncrease(s.log)
    && CompletedNeverRestarts(s.log)
  }

  /** Nothing was started or completed, and every watermark names the same command. */
  ghost predicate SameCommands(s: State, t: State) {
    && s.log <= t.log
    && (forall m, i :: BeganAt(t.log, i, m) <==> BeganAt(s.log, i, m))
    && (forall m, r, i :: CompletedAt(t.log, i, m, r) <==> CompletedAt(s.log, i, m, r))
    && t.ops.Keys == s.ops.Keys
    && (forall m <- s.ops :: t.ops[m].(rotation := None) == s.ops[m].(rotation := None))
  }

  lemma QuietEffect(s: State, e: Effect)
    requires !e.Begin? && !e.Complete?
    ensures SameCommands(s, Apply(s, e))
  {
  }

  lemma SameCommandsKeepOrder(s: State, t: State, reg: Registry)
    requires OrderInv(s, reg) && SameCommands(s, t)
    ensures OrderInv(t, reg)
  {
    forall m <- t.ops
      ensures Began(m, t.ops[m].createdAt, t.ops[m].rumor, t.ops[m].kind) in t.log
      ensures t.ops[m].createdAt == s.ops[m].createdAt && t.ops[m].rumor == s.ops[m].rumor
      ensures t.ops[m].kind == s.ops[m].kind && t.ops[m].complete == s.ops[m].complete
    {
      assert t.ops[m].(rotation := None) == s.ops[m].(rotation := None);
      assert Began(m, s.ops[m].createdAt, s.ops[m].rumor, s.ops[m].kind) in s.log;
    }
    forall m, r, i | CompletedAt(t.log, i, m, r)
      ensures exists j :: BeganAt(t.log, j, m) && t.log[j].rumor == r
    {
      assert CompletedAt(s.log, i, m, r);
      var j :| BeganAt(s.log, j, m) && s.log[j].rumor == r;
      assert BeganAt(t.log, j, m);
    }
  }

  lemma QuietEffectKeepsOrder(s: State, e: Effect, reg: Registry)
    requires OrderInv(s, reg) && !e.Begin? && !e.Complete?
    ensures OrderInv(Apply(s, e), reg)
  {
    QuietEffect(s, e);
    SameCommandsKeepOrder(s, Apply(s, e), reg);
  }

  lemma CompleteKeepsOrder(s: State, m: string, r: string, reg: Registry)
    requires OrderInv(s, reg)
    ensures OrderInv(Apply(s, Complete(m, r)), reg)
  {
    var s' := Apply(s, Complete(m, r));
    if m in s.ops && s.ops[m].rumor == r {
      forall n, i
        ensures BeganAt(s'.log, i, n) <==> BeganAt(s.log, i, n)
      {
      }
      assert Began(m, s.ops[m].createdAt, r, s.ops[m].kind) in s.log;
      var b :| 0 <= b < |s.log| && s.log[b] == Began(m, s.ops[m].createdAt, r, s.ops[m].kind);
      assert BeganAt(s'.log, b, m);
      forall n, q, i | CompletedAt(s'.log, i, n, q)
        ensures n in s'.ops && s'.ops[n].rumor == q ==> s'.ops[n].complete
        ensures exists j :: BeganAt(s'.log, j, n) && s'.log[j].rumor == q
      {
        if i < |s.log| {
          assert CompletedAt(s.log, i, n, q);
          var j :| BeganAt(s.log, j, n) && s.log[j].rumor == q;
          assert BeganAt(s'.log, j, n);
        }
      }
      forall n, q, i, j | i < j && CompletedAt(s'.log, i, n, q) && BeganAt(s'.log, j, n)
        ensures s'.log[j].rumor != q
      {
        assert CompletedAt(s.log, i, n, q) && BeganAt(s.log, j, n);
      }
      forall n <- s'.ops
        ensures Began(n, s'.ops[n].createdAt, s'.ops[n].rumor, s'.ops[n].kind) in s'.log
      {
        assert Began(n, s.ops[n].createdAt, s.ops[n].rumor, s.ops[n].kind) in s.log;
      }
      forall n, i | BeganAt(s'.log, i, n)
        ensures n in s'.ops && (s'.log[i].rumor == s'.ops[n].rumor || Supersedes(OpEv(s'.ops[n]), Ev(s'.log[i])))
      {
        assert BeganAt(s.log, i, n);
      }
    }
  }

  /** A rumor that passes the gate is at least as new as every start of its member, and
      has not been completed. */
  lemma GateFacts(s: State, m: string, at: int, r: string, kind: Kind, reg: Registry)
    requires OrderInv(s, reg) && !Skips(s, m, at, r)
    requires r in reg && Starts(reg[r], m, at, kind)
    ensures forall i :: BeganAt(s.log, i, m) ==>
              s.log[i] == Began(m, at, r, kind) || Supersedes(Event(r, Some(at)), Ev(s.log[i]))
    ensures forall i :: !CompletedAt(s.log, i, m, r)
  {
    forall i | BeganAt(s.log, i, m)
      ensures s.log[i] == Began(m, at, r, kind) || Supersedes(Event(r, Some(at)), Ev(s.log[i]))
    {
      var op := s.ops[m];
      if op.rumor == r {
        assert Began(m, op.createdAt, op.rumor, op.kind) in s.log;
        var b :| 0 <= b < |s.log| && s.log[b] == Began(m, op.createdAt, op.rumor, op.kind);
        assert BeganAt(s.log, b, m);
      } else if s.log[i].rumor != op.rumor {
        SupersedesTransitive(Event(r, Some(at)), OpEv(op), Ev(s.log[i]));
      } else {
        assert Began(m, op.createdAt, op.rumor, op.kind) in s.log;
        var b :| 0 <= b < |s.log| && s.log[b] == Began(m, op.createdAt, op.rumor, op.kind);
        assert BeganAt(s.log, b, m);
      }
    }
    forall i
      ensures !CompletedAt(s.log, i, m, r)
    {
      if CompletedAt(s.log, i, m, r) {
        var j :| BeganAt(s.log, j, m) && s.log[j].rumor == r;
        assert s.log[j] == Began(m, at, r, kind);
        SupersedesIsTotal(Event(r, Some(at)), OpEv(s.ops[m]));
        assert false;
      }
    }
  }

  lemma BeginKeepsOrder(s: State, m: string, at: int, r: string, kind: Kind, reg: Registry)
    requires OrderInv(s, reg) && !Skips(s, m, at, r)
    requires r in reg && Starts(reg[r], m, at, kind)
    ensures OrderInv(Apply(s, Begin(m, at, r, kind)), reg)
  {
    GateFacts(s, m, at, r, kind, reg);
    var s' := Apply(s, Begin(m, at, r, kind));
    forall n, i
      ensures BeganAt(s'.log, i, n) <==> BeganAt(s.log, i, n) || (i == |s.log| && n == m)
    {
    }
    forall n, q, i
      ensures CompletedAt(s'.log, i, n, q) <==> CompletedAt(s.log, i, n, q)
    {
    }
    forall n, q, i | CompletedAt(s'.log, i, n, q)
      ensures n in s'.ops && s'.ops[n].rumor == q ==> s'.ops[n].complete
      ensures exists j :: BeganAt(s'.log, j, n) && s'.log[j].rumor == q
    {
      assert CompletedAt(s.log, i, n, q);
      var j :| BeganAt(s.log, j, n) && s.log[j].rumor == q;
      assert BeganAt(s'.log, j, n);
    }
    forall n <- s'.ops
      ensures Began(n, s'.ops[n].createdAt, s'.ops[n].rumor, s'.ops[n].kind) in s'.log
    {
      if n != m {
        assert Began(n, s.ops[n].createdAt, s.ops[n].rumor, s.ops[n].kind) in s.log;
      } else {
        assert s'.log[|s.log|] == Began(m, at, r, kind);
      }
    }
    BeginKeepsWatermark(s, m, at, r, kind, reg);
    BeginKeepsIncrease(s, m, at, r, kind, reg);
  }

  lemma BeginKeepsWatermark(s: State, m: string, at: int, r: string, kind: Kind, reg: Registry)
    requires OrderInv(s, reg)
    requires forall i :: BeganAt(s.log, i, m) ==>
               s.log[i] == Began(m, at, r, kind) || Supersedes(Event(r, Some(at)), Ev(s.log[i]))
    ensures var s' := Apply(s, Begin(m, at, r, kind));
            forall n, i :: BeganAt(s'.log, i, n) ==>
              n in s'.ops && (s'.log[i].rumor == s'.ops[n].rumor || Supersedes(OpEv(s'.ops[n]), Ev(s'.log[i])))
  {
    var s' := Apply(s, Begin(m, at, r, kind));
    forall n, i | BeganAt(s'.log, i, n)
      ensures n in s'.ops && (s'.log[i].rumor == s'.ops[n].rumor || Supersedes(OpEv(s'.ops[n]), Ev(s'.log[i])))
    {
      if i < |s.log| { assert BeganAt(s.log, i, n); }
    }
  }

  lemma BeginKeepsIncrease(s: State, m: string, at: int, r: string, kind: Kind, reg: Registry)
    requires OrderInv(s, reg)
    requires forall i :: BeganAt(s.log, i, m) ==>
               s.log[i] == Began(m, at, r, kind) || Supersedes(Event(r, Some(at)), Ev(s.log[i]))
    requires forall i :: !CompletedAt(s.log, i, m, r)
    ensures StartsIncrease(Apply(s, Begin(m, at, r, kind)).log)
    ensures CompletedNeverRestarts(Apply(s, Begin(m, at, r, kind)).log)
  {
    var s' := Apply(s, Begin(m, at, r, kind));
    forall n, i, j | i < j && BeganAt(s'.log, i, n) && BeganAt(s'.log, j, n)
      ensures s'.log[i] == s'.log[j] || Supersedes(Ev(s'.log[j]), Ev(s'.log[i]))
    {
      assert BeganAt(s.log, i, n);
      if j < |s.log| { assert BeganAt(s.log, j, n); }
    }
    forall n, q, i, j | i < j && CompletedAt(s'.log, i, n, q) && BeganAt(s'.log, j, n)
      ensures s'.log[j].rumor != q
    {
      assert CompletedAt(s.log, i, n, q);
      if j < |s.log| { assert BeganAt(s.log, j, n); }
    }
  }

  // ---------------------------------------------------------------- plans start at most once

  ghost predicate NoBegin(es: seq<Effect>) {
    forall e <- es :: !e.Begin?
  }

  lemma {:induction false} RegrantsDoNotBegin(members: seq<string>)
    ensures NoBegin(RegrantAll(members))
  {
    if members != [] { RegrantsDoNotBegin(members[1..]); }
  }

  lemma RevokeDoesNotBegin(s: State, m: string, r: string, byOrganizer: bool, key: string)
    ensures NoBegin(PlanRevoke(s, m, r, byOrganizer, key))
  {
    RegrantsDoNotBegin(ApprovedAttendees(Run(s, PlanRemoval(s, m, r, byOrganizer, key))));
  }

  lemma {:induction false} SeedDoesNotBegin(s: State, pubkeys: seq<string>)
    ensures NoBegin(PlanSeed(s, pubkeys))
    decreases |pubkeys|
  {
    if pubkeys != [] {
      var m := pubkeys[0];
      var es := [Tomb(m)] + (if HasStatus(s, m, Approved) then [SetStatus(m, Revoked)] else []);
      SeedDoesNotBegin(Run(s, es), pubkeys[1..]);
    }
  }

  lemma {:induction false} AdoptDoesNotBegin(s: State, roster: seq<string>)
    ensures NoBegin(PlanAdopt(s, roster))
    decreases |roster|
  {
    if roster != [] {
      var m := roster[0];
      if HasStatus(s, m, Approved) || m in s.tombs {
        AdoptDoesNotBegin(s, roster[1..]);
      } else if !AtCap(s) {
        AdoptDoesNotBegin(Apply(s, SetStatus(m, Approved)), roster[1..]);
      }
    }
  }

  lemma ApproveDoesNotBegin(s: State, m: string, r: string, env: Env)
    ensures NoBegin(PlanApprove(s, m, r, env))
  {
    if m !in s.status && IsHex64(m) && !AtCap(s) {
      ApproveRowDoesNotBegin(Apply(s, SetStatus(m, Pending)), m, r, env);
    } else if m in s.status {
      ApproveRowDoesNotBegin(s, m, r, env);
    }
  }

  lemma ApproveRowDoesNotBegin(s: State, m: string, r: string, env: Env)
    requires m in s.status
    ensures NoBegin(PlanApproveRow(s, m, r, env))
  {
  }

  lemma JoinDoesNotBegin(s: State, m: string, at: int, r: string, env: Env)
    ensures NoBegin(PlanJoin(s, m, at, r, env))
  {
    forall s1: State, existed, wasRevoked, full
      ensures NoBegin(PlanDecision(s1, m, existed, wasRevoked, full, env))
    {
    }
  }

  /** The plan starts with the one start the gate allowed, and with no other. */
  ghost predicate StartsOnce(s: State, cmd: Command, plan: seq<Effect>) {
    && plan != [] && plan[0].Begin? && NoBegin(plan[1..])
    && plan[0].rumor == cmd.rumor
    && !Skips(s, plan[0].member, plan[0].createdAt, plan[0].rumor)
    && Starts(cmd, plan[0].member, plan[0].createdAt, plan[0].kind)
  }

  lemma AdminShape(s: State, m: string, at: int, r: string, kind: Kind, env: Env)
    requires !kind.Withdraw?
    ensures var plan := PlanAdmin(s, m, at, r, kind, env);
            plan == [] || StartsOnce(s, Admin(m, at, r, kind), plan)
  {
    var begin := Begin(m, at, r, kind);
    var s1 := Apply(s, begin);
    RevokeDoesNotBegin(s1, m, r, true, env.freshKey);
    ApproveDoesNotBegin(s1, m, r, env);
    var plan := PlanAdmin(s, m, at, r, kind, env);
    if plan != [] {
      var rest := match kind
                  case Approve => PlanApprove(s1, m, r, env)
                  case Revoke => (if m == "" then [] else PlanRevoke(s1, m, r, true, env.freshKey)) + [Complete(m, r)]
                  case Reprocess => [Publish, Complete(m, r)];
      assert plan == [begin] + rest;
      assert plan[1..] == rest;
    }
  }

  lemma WithdrawShape(s: State, m: string, at: int, r: string, deleteData: bool, env: Env)
    ensures var plan := PlanWithdraw(s, m, at, r, deleteData, env);
            plan == [] || StartsOnce(s, Withdrawal(m, at, r, deleteData), plan)
  {
    var s1 := Apply(s, Begin(m, at, r, Withdraw(deleteData)));
    RevokeDoesNotBegin(s1, m, r, false, env.freshKey);
  }

  /** A plan is silent on starts, or starts its own command once. */
  lemma PlanShape(s: State, step: Step)
    requires ValidStep(step)
    ensures NoBegin(Plan(s, step)) || (step.Deliver? && StartsOnce(s, step.cmd, Plan(s, step)))
  {
    match step
    case Seed(pubkeys, _) => SeedDoesNotBegin(s, pubkeys);
    case Bootstrap(roster, _) =>
      AdoptDoesNotBegin(s, roster);
      RegrantsDoNotBegin(ApprovedAttendees(Run(s, PlanAdopt(s, roster))));
    case Reissue(_, _) => GrantAllGrants(ApprovedAttendees(s));
    case Evict(idle, _) => EvictionsArePending(s, idle);
    case Deliver(cmd, env, _) =>
      if cmd.rumor !in s.seen {
        match cmd
        case Admin(m, at, r, kind) => AdminShape(s, m, at, r, kind, env);
        case Withdrawal(m, at, r, deleteData) => WithdrawShape(s, m, at, r, deleteData, env);
        case Join(m, at, r) => JoinDoesNotBegin(s, m, at, r, env);
      }
  }

  lemma {:induction false} QuietRunKeepsOrder(s: State, es: seq<Effect>, reg: Registry)
    requires OrderInv(s, reg) && NoBegin(es)
    ensures OrderInv(Run(s, es), reg)
    decreases |es|
  {
    if es != [] {
      var e := es[0];
      if e.Complete? {
        CompleteKeepsOrder(s, e.member, e.rumor, reg);
      } else {
        QuietEffectKeepsOrder(s, e, reg);
      }
      QuietRunKeepsOrder(Apply(s, e), es[1..], reg);
    }
  }

  lemma ExecKeepsOrder(s: State, step: Step, reg: Registry)
    requires ValidStep(step) && Registered(step, reg) && OrderInv(s, reg)
    ensures OrderInv(Exec(s, step), reg)
  {
    PlanShape(s, step);
    var es := Take(Plan(s, step), step.budget);
    if es != [] && es[0].Begin? {
      var b := es[0];
      assert forall e <- es[1..] :: e in Plan(s, step)[1..];
      BeginKeepsOrder(s, b.member, b.createdAt, b.rumor, b.kind, reg);
      QuietRunKeepsOrder(Apply(s, b), es[1..], reg);
    } else {
      assert NoBegin(es);
      QuietRunKeepsOrder(s, es, reg);
    }
    var s1 := Run(s, es);
    assert OrderInv(s1, reg) ==> OrderInv(s1.(seen := s1.seen + if step.Deliver? then {step.cmd.rumor} else {}), reg);
  }

  /** Over every run: the effects of one member's commands start in increasing order, a
      rumor restarts only until it completes or another overtakes it, and a completed
      one never starts again. */
  lemma {:induction false} LatestCommandWins(s: State, steps: seq<Step>, reg: Registry)
    requires OrderInv(s, reg)
    requires forall step <- steps :: ValidStep(step) && Registered(step, reg)
    ensures OrderInv(RunAll(s, steps), reg)
    ensures StartsIncrease(RunAll(s, steps).log)
    ensures CompletedNeverRestarts(RunAll(s, steps).log)
    ensures forall m, i, j, k :: i < j < k && BeganAt(RunAll(s, steps).log, i, m) && BeganAt(RunAll(s, steps).log, j, m)
              && BeganAt(RunAll(s, steps).log, k, m) && RunAll(s, steps).log[i].rumor == RunAll(s, steps).log[k].rumor
              ==> RunAll(s, steps).log[j].rumor == RunAll(s, steps).log[i].rumor
  {
    if steps != [] {
      LatestCommandWins(s, steps[..|steps| - 1], reg);
      ExecKeepsOrder(RunAll(s, steps[..|steps| - 1]), steps[|steps| - 1], reg);
    }
    var log := RunAll(s, steps).log;
    forall m, i, j, k | i < j < k && BeganAt(log, i, m) && BeganAt(log, j, m) && BeganAt(log, k, m) && log[i].rumor == log[k].rumor
      ensures log[j].rumor == log[i].rumor
    {
      if log[j].rumor != log[i].rumor {
        assert BeganAt(log, i, m) && BeganAt(log, k, m);
        assert log[i].createdAt == log[k].createdAt;
        SupersedesIsTotal(Ev(log[j]), Ev(log[i]));
        assert false;
      }
    }
  }

  /** An event that nothing has happened to yet, holding `eck`. */
  function Installed(eck: seq<Version>): State {
    State([], map[], {}, map[], eck, {}, [])
  }

  lemma InstalledIsOrdered(eck: seq<Version>, reg: Registry)
    ensures OrderInv(Installed(eck), reg)
  {
  }

  /** Every run from an install is ordered. */
  lemma EveryRunIsOrdered(eck: seq<Version>, steps: seq<Step>, reg: Registry)
    requires forall step <- steps :: ValidStep(step) && Registered(step, reg)
    ensures var t := RunAll(Installed(eck), steps);
            OrderInv(t, reg) && StartsIncrease(t.log) && CompletedNeverRestarts(t.log)
  {
    InstalledIsOrdered(eck, reg);
    LatestCommandWins(Installed(eck), steps, reg);
  }
}
