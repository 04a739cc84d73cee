/** Where the membership protocol's guarantees end: exactly which steps break them, and that
    those states are reached. */
module MembershipHazards {
  import opened Wrappers
  import opened Ordering
  import opened Text
  import opened EckIdentity
  import opened Membership
  import opened MembershipOrder
  import opened MembershipSafety
  import opened MembershipRotation

  // ---------------------------------------------------------------- a reprocess takes a revoke over

  lemma {:induction false} LogOnlyGrows(s: State, steps: seq<Step>)
    requires forall step <- steps :: ValidStep(step)
    ensures s.log <= RunAll(s, steps).log
  {
    if steps != [] {
      var t := RunAll(s, steps[..|steps| - 1]);
      LogOnlyGrows(s, steps[..|steps| - 1]);
      LogGrows(t, Take(Plan(t, steps[|steps| - 1]), steps[|steps| - 1].budget));
    }
  }

  /** A command overtaken by a newer start on its member is refused in every later state. */
  lemma OvertakenForGood(s: State, later: seq<Step>, reg: Registry, m: string, at: int, r: string, kind: Kind, i: int)
    requires OrderInv(s, reg) && forall step <- later :: ValidStep(step) && Registered(step, reg)
    requires r in reg && Starts(reg[r], m, at, kind)
    requires BeganAt(s.log, i, m) && Supersedes(Ev(s.log[i]), Event(r, Some(at)))
    ensures Skips(RunAll(s, later), m, at, r)
  {
    var t := RunAll(s, later);
    LatestCommandWins(s, later, reg);
    LogOnlyGrows(s, later);
    assert BeganAt(t.log, i, m);
    var op := t.ops[m];
    assert Began(m, op.createdAt, op.rumor, op.kind) in t.log;
    var b :| 0 <= b < |t.log| && t.log[b] == Began(m, op.createdAt, op.rumor, op.kind);
    assert BeganAt(t.log, b, m);
    if op.rumor != t.log[i].rumor { SupersedesTransitive(OpEv(op), Ev(t.log[i]), Event(r, Some(at))); }
    SupersedesIsTotal(OpEv(op), Event(r, Some(at)));
  }

  /** A revoke cut short right after its tombstone. */
  lemma RevokeCutAfterTomb(s: State, m: string, at: int, r: string, env: Env)
    requires m != "" && r !in s.seen && !env.expired && !Skips(s, m, at, r)
    ensures Exec(s, Deliver(Admin(m, at, r, Revoke), env, 2)) == Apply(Apply(s, Begin(m, at, r, Revoke)), Tomb(m))
  {
    var begin := Begin(m, at, r, Revoke);
    var s1 := Apply(s, begin);
    var plan := PlanAdmin(s, m, at, r, Revoke, env);
    assert plan == [begin] + (PlanRevoke(s1, m, r, true, env.freshKey) + [Complete(m, r)]);
    assert plan[..2] == [begin, Tomb(m)];
    RunTwo(s, begin, Tomb(m));
  }

  /** From a safe state: a revoke of an approved member is cut short after its tombstone,
      and a newer reprocess of that member runs to its end. The member is left revoked yet
      approved with nothing unfinished, and the revoke does nothing in any later state. */
  lemma ReprocessLosesARevoke(s: State, reg: Registry, revoke: Command, env: Env, reprocess: Command, env': Env,
                              later: seq<Step>, again: Env, budget: nat)
    requires AllSafe(s) && OrderInv(s, reg)
    requires revoke.Admin? && revoke.kind == Revoke && reprocess.Admin? && reprocess.kind == Reprocess
    requires revoke.member == reprocess.member != "" && HasStatus(s, revoke.member, Approved)
    requires Supersedes(Event(reprocess.rumor, Some(reprocess.createdAt)), Event(revoke.rumor, Some(revoke.createdAt)))
    requires revoke.rumor !in s.seen && reprocess.rumor !in s.seen && !env.expired && !env'.expired
    requires !Skips(s, revoke.member, revoke.createdAt, revoke.rumor)
    requires Registered(Deliver(revoke, env, 2), reg) && Registered(Deliver(reprocess, env', 3), reg)
    requires forall step <- later :: ValidStep(step) && Registered(step, reg)
    ensures var m := revoke.member;
            var cut := Exec(s, Deliver(revoke, env, 2));
            var t := Exec(cut, Deliver(reprocess, env', 3));
            && AllSafe(cut) && TakesOver(cut, Deliver(reprocess, env', 3))
            && m in t.tombs && HasStatus(t, m, Approved) && !Unfinished(ViewOf(t, m))
            && Plan(RunAll(t, later), Deliver(revoke, again, budget)) == []
  {
    var m, at, r := reprocess.member, reprocess.createdAt, reprocess.rumor;
    var first, second := Deliver(revoke, env, 2), Deliver(reprocess, env', 3);
    var cut := Exec(s, first);
    var t := Exec(cut, second);
    RevokeCutAfterTomb(s, m, revoke.createdAt, revoke.rumor, env);
    StepKeepsAllSafeIff(s, first, reg);
    ExecKeepsOrder(s, first, reg);
    WholeReprocess(cut, m, at, r, env');
    ExecKeepsOrder(cut, second, reg);
    hide OrderInv, AllSafe, RunAll, Exec;
    OvertakenForGood(t, later, reg, m, revoke.createdAt, revoke.rumor, Revoke, |cut.log|);
  }

  /** A reprocess that runs to its end starts, completes, and changes nothing else of its member. */
  lemma WholeReprocess(s: State, m: string, at: int, r: string, env: Env)
    requires r !in s.seen && !env.expired && !Skips(s, m, at, r)
    ensures var t := Exec(s, Deliver(Admin(m, at, r, Reprocess), env, 3));
            && (m in t.tombs <==> m in s.tombs) && ViewOf(t, m).status == ViewOf(s, m).status
            && !Unfinished(ViewOf(t, m))
            && |s.log| < |t.log| && t.log[|s.log|] == Began(m, at, r, Reprocess)
  {
    AdminReprocessEnds(s, m, at, r, env);
    var plan := PlanAdmin(s, m, at, r, Reprocess, env);
    RunViewIsRun(s, plan, m);
    RunConcat(s, [plan[0]], plan[1..]);
    assert plan == [plan[0]] + plan[1..];
    RunOne(s, plan[0]);
    LogGrows(Apply(s, plan[0]), plan[1..]);
  }

  // ---------------------------------------------------------------- a revoke's retry lapses

  lemma {:induction false} SeenOnlyGrows(s: State, steps: seq<Step>)
    requires forall step <- steps :: ValidStep(step)
    ensures s.seen <= RunAll(s, steps).seen
  {
    if steps != [] {
      var t := RunAll(s, steps[..|steps| - 1]);
      var last := steps[|steps| - 1];
      SeenOnlyGrows(s, steps[..|steps| - 1]);
      SeenStays(t, Take(Plan(t, last), last.budget));
    }
  }

  /** From a safe state: a revoke of an approved member is cut short after its tombstone,
      and its retry arrives past the command's horizon. The retry is dropped and seen: the
      member is left revoked yet approved with nothing in progress, and the revoke does
      nothing in any later state. */
  lemma ExpiredRetryLosesARevoke(s: State, reg: Registry, revoke: Command, env: Env, late: Env, n: nat,
                                 later: seq<Step>, again: Env, budget: nat)
    requires AllSafe(s) && OrderInv(s, reg) && Registered(Deliver(revoke, env, 2), reg)
    requires revoke.Admin? && revoke.kind == Revoke && revoke.member != "" && HasStatus(s, revoke.member, Approved)
    requires revoke.rumor !in s.seen && !env.expired && late.expired
    requires !Skips(s, revoke.member, revoke.createdAt, revoke.rumor)
    requires forall step <- later :: ValidStep(step)
    ensures var m := revoke.member;
            var cut := Exec(s, Deliver(revoke, env, 2));
            var t := Exec(cut, Deliver(revoke, late, n));
            && AllSafe(cut) && InProgress(cut, m) && Lapses(cut, Deliver(revoke, late, n))
            && m in t.tombs && HasStatus(t, m, Approved) && !InProgress(t, m)
            && Plan(RunAll(t, later), Deliver(revoke, again, budget)) == []
  {
    var m := revoke.member;
    var cut := Exec(s, Deliver(revoke, env, 2));
    RevokeCutAfterTomb(s, m, revoke.createdAt, revoke.rumor, env);
    StepKeepsAllSafeIff(s, Deliver(revoke, env, 2), reg);
    var t := Exec(cut, Deliver(revoke, late, n));
    assert t == cut.(seen := cut.seen + {revoke.rumor});
    SeenOnlyGrows(t, later);
  }

  // ---------------------------------------------------------------- who re-grants a member being removed

  /** The step re-grants `m`, if it gets that far: a handover, a hierarchy re-issue, the
      accepted revoke of another member, the accepted withdrawal of another that rotates,
      or an accepted approve of `m`. */
  predicate Regrants(s: State, step: Step, m: string) {
    match step
    case Seed(_, _) => false
    case Bootstrap(_, _) => true
    case Reissue(linked, _) => linked
    case Evict(_, _) => false
    case Deliver(cmd, env, _) =>
      cmd.rumor !in s.seen &&
      match cmd
      case Join(_, _, _) => false
      case Admin(x, at, r, kind) =>
        && !env.expired && !Skips(s, x, at, r)
        && ((kind == Revoke && x != m && x != "") || (kind == Approve && x == m && env.live))
      case Withdrawal(x, at, r, _) =>
        && !Skips(s, x, at, r)
        && x != m && x in s.status && (s.status[x] == Approved || RotationRecorded(s, x, r))
  }

  lemma {:induction false} RegrantAllGrants(members: seq<string>, m: string)
    ensures Grant(m) in RegrantAll(members) <==> m in members
  {
    if members != [] { RegrantAllGrants(members[1..], m); }
  }

  lemma ApprovedAreListed(s: State, m: string)
    requires RowsListed(s)
    ensures m in ApprovedAttendees(s) <==> HasStatus(s, m, Approved)
  {
    if HasStatus(s, m, Approved) { ApprovedListsAll(s, s.rows, m); }
  }

  /** A revoke of anyone else re-grants every approved member. */
  lemma RevokeRegrants(s: State, x: string, r: string, byOrganizer: bool, key: string, m: string)
    requires RowsListed(s) && StillOwns(s, x, r)
    ensures Grant(m) in PlanRevoke(s, x, r, byOrganizer, key) <==> x != m && HasStatus(s, m, Approved)
  {
    var removal := PlanRemoval(s, x, r, byOrganizer, key);
    var t := Run(s, removal);
    RunKeepsRows(s, removal);
    RemovalStatus(s, x, r, byOrganizer, key, m);
    ApprovedAreListed(t, m);
    RegrantAllGrants(ApprovedAttendees(t), m);
    assert Grant(m) !in removal;
  }

  lemma RemovalStatus(s: State, x: string, r: string, byOrganizer: bool, key: string, m: string)
    ensures HasStatus(Run(s, PlanRemoval(s, x, r, byOrganizer, key)), m, Approved) <==> x != m && HasStatus(s, m, Approved)
  {
    var removal := PlanRemoval(s, x, r, byOrganizer, key);
    var init := removal[..|removal| - 1];
    assert removal == init + [SetStatus(x, Revoked)];
    RunConcat(s, init, [SetStatus(x, Revoked)]);
    RunOne(Run(s, init), SetStatus(x, Revoked));
    StatusKept(s, init);
  }

  lemma {:induction false} StatusKept(s: State, es: seq<Effect>)
    requires forall e <- es :: !e.SetStatus? && !e.Purge?
    ensures Run(s, es).status == s.status
    decreases |es|
  {
    if es != [] {
      assert es[0] in es;
      StatusKept(Apply(s, es[0]), es[1..]);
    }
  }

  lemma AdminRegrantsIff(s: State, x: string, at: int, r: string, kind: Kind, env: Env, m: string)
    requires !kind.Withdraw? && RowsListed(s) && m in s.tombs && HasStatus(s, m, Approved)
    requires !env.expired && !Skips(s, x, at, r)
    ensures Grant(m) in PlanAdmin(s, x, at, r, kind, env) <==>
              (kind == Revoke && x != m && x != "") || (kind == Approve && x == m && env.live)
  {
    var begin := Begin(x, at, r, kind);
    var s1 := Apply(s, begin);
    match kind
    case Approve =>
      assert PlanAdmin(s, x, at, r, kind, env) == [begin] + PlanApprove(s1, x, r, env);
      if x == m {
        assert Grant(m) in PlanGrant(Apply(s1, Untomb(m)), m, env.live) <==> env.live by {
          if env.live { assert PlanGrant(Apply(s1, Untomb(m)), m, env.live)[0] == Grant(m); }
        }
        assert PlanApprove(s1, m, r, env) == [Untomb(m)] + [] + PlanGrant(Apply(s1, Untomb(m)), m, env.live) + [Complete(m, r)];
      } else {
        AdminOfOther(s, x, at, r, kind, env, m);
      }
    case Revoke =>
      RevokeRegrants(s1, x, r, true, env.freshKey, m);
      var revoke := if x == "" then [] else PlanRevoke(s1, x, r, true, env.freshKey);
      assert PlanAdmin(s, x, at, r, kind, env) == [begin] + (revoke + [Complete(x, r)]);
    case Reprocess =>
  }

  lemma WithdrawalRegrantsIff(s: State, x: string, at: int, r: string, deleteData: bool, env: Env, m: string)
    requires RowsListed(s) && m in s.tombs && HasStatus(s, m, Approved) && !Skips(s, x, at, r)
    ensures Grant(m) in PlanWithdraw(s, x, at, r, deleteData, env) <==>
              x != m && x in s.status && (s.status[x] == Approved || RotationRecorded(s, x, r))
  {
    var begin := Begin(x, at, r, Withdraw(deleteData));
    var s1 := Apply(s, begin);
    RevokeRegrants(s1, x, r, false, env.freshKey, m);
    if x in s1.status {
      var leave := PlanLeave(s1, x, r, env.freshKey);
      var rest := (if deleteData then [Purge(x)] else []) + [Complete(x, r)];
      assert PlanWithdraw(s, x, at, r, deleteData, env) == [begin] + (leave + rest);
    }
  }

  /** Exactly which steps re-grant a member whose revocation stands while they are still
      listed as approved. */
  lemma RegrantsIff(s: State, step: Step, m: string)
    requires ValidStep(step) && RowsListed(s) && m in s.tombs && HasStatus(s, m, Approved)
    ensures Grant(m) in Plan(s, step) <==> Regrants(s, step, m)
  {
    match step
    case Seed(pubkeys, _) => SeedHarmless(s, pubkeys, m);
    case Bootstrap(roster, _) =>
      var adopt := PlanAdopt(s, roster);
      var t := Run(s, adopt);
      RunKeepsRows(s, adopt);
      AdoptKeepsApproved(s, roster, m);
      ApprovedAreListed(t, m);
      RegrantAllGrants(ApprovedAttendees(t), m);
    case Reissue(_, _) =>
      ApprovedAreListed(s, m);
      GrantAllGrants(ApprovedAttendees(s));
    case Evict(idle, _) => EvictionsArePending(s, idle);
    case Deliver(cmd, env, _) =>
      if cmd.rumor !in s.seen {
        match cmd
        case Admin(x, at, r, kind) =>
          if !env.expired && !Skips(s, x, at, r) { AdminRegrantsIff(s, x, at, r, kind, env, m); }
        case Withdrawal(x, at, r, deleteData) =>
          if !Skips(s, x, at, r) { WithdrawalRegrantsIff(s, x, at, r, deleteData, env, m); }
        case Join(x, at, r) => JoinMintless(s, x, at, r, env, m);
      }
  }

  lemma {:induction false} AdoptKeepsApproved(s: State, roster: seq<string>, m: string)
    requires HasStatus(s, m, Approved)
    ensures HasStatus(Run(s, PlanAdopt(s, roster)), m, Approved)
    decreases |roster|
  {
    if roster != [] {
      var x := roster[0];
      if HasStatus(s, x, Approved) || x in s.tombs {
        AdoptKeepsApproved(s, roster[1..], m);
      } else if !AtCap(s) {
        AdoptKeepsApproved(Apply(s, SetStatus(x, Approved)), roster[1..], m);
      }
    }
  }

  ghost predicate SentSince(log: seq<Entry>, from: nat, m: string) {
    !NoGrantSince(log, from, m)
  }

  lemma {:induction false} SentIffPerformed(s: State, es: seq<Effect>, m: string)
    ensures SentSince(Run(s, es).log, |s.log|, m) <==> Grant(m) in es
    decreases |es|
  {
    if es != [] {
      var s1 := Apply(s, es[0]);
      var log := Run(s1, es[1..]).log;
      SentIffPerformed(s1, es[1..], m);
      LogGrows(s1, es[1..]);
      assert Grant(m) in es <==> es[0] == Grant(m) || Grant(m) in es[1..];
      if es[0] == Grant(m) { assert log[|s.log|] == s1.log[|s.log|]; }
      if Grant(m) in es[1..] {
        var i :| |s1.log| <= i < |log| && log[i].Granted? && log[i].member == m;
        assert |s.log| <= i;
      }
    }
  }

  /** While a member's revocation stands and they are still listed as approved, a step sends
      them a key if and only if it is one of those, performed as far as that grant. */
  lemma SentAKeyIff(s: State, step: Step, m: string)
    requires ValidStep(step) && RowsListed(s) && m in s.tombs && HasStatus(s, m, Approved)
    ensures SentSince(Exec(s, step).log, |s.log|, m) <==>
              Regrants(s, step, m) && Grant(m) in Take(Plan(s, step), step.budget)
  {
    var es := Take(Plan(s, step), step.budget);
    assert forall e <- es :: e in Plan(s, step);
    RegrantsIff(s, step, m);
    SentIffPerformed(s, es, m);
  }

  // ---------------------------------------------------------------- a re-issue overlaps a revoke

  lemma {:induction false} GrantAllReaches(s: State, members: seq<string>, a: string)
    requires a in members
    ensures var t := Run(s, GrantAll(members)); t.eck == s.eck && GrantedSince(t.log, |s.log|, a, s.eck)
    decreases |members|
  {
    var s1 := Apply(s, Grant(members[0]));
    var rest := GrantAll(members[1..]);
    assert GrantAll(members)[1..] == rest;
    if a in members[1..] {
      GrantAllReaches(s1, members[1..], a);
    } else {
      assert s1.log[|s.log|] == Granted(a, s.eck);
      LogGrows(s1, rest);
      KeysStay(s1, rest, members[1..]);
    }
  }

  lemma {:induction false} KeysStay(s: State, es: seq<Effect>, members: seq<string>)
    requires es == GrantAll(members)
    ensures Run(s, es).eck == s.eck
    decreases |members|
  {
    if members != [] { KeysStay(Apply(s, es[0]), es[1..], members[1..]); }
  }

  /** From any state: a revoke of `m` is cut short once its new version is installed, and
      before its retry the hierarchy sweep re-issues everyone approved their grant. The
      member being removed is sent the version minted to keep them out. */
  lemma ReissueLeaks(s: State, m: string, at: int, r: string, env: Env)
    requires RowsListed(s) && HasStatus(s, m, Approved) && m != ""
    requires r !in s.seen && !env.expired && !Skips(s, m, at, r) && !RotationRecorded(s, m, r)
    ensures var cut := Exec(s, Deliver(Admin(m, at, r, Revoke), env, 4));
            var t := Exec(cut, Reissue(true, |PlanReissue(cut, true)|));
            && m in cut.tombs && t.eck == s.eck + [Version(MaxId(s.eck) + 1, env.freshKey)]
            && GrantedSince(t.log, |s.log|, m, t.eck)
  {
    var cut := Exec(s, Deliver(Admin(m, at, r, Revoke), env, 4));
    RevokeCutAfterMint(s, m, at, r, env);
    assert RowsListed(cut) && HasStatus(cut, m, Approved);
    ApprovedAreListed(cut, m);
    GrantAllReaches(cut, ApprovedAttendees(cut), m);
    var t := Exec(cut, Reissue(true, |PlanReissue(cut, true)|));
    SinceEarlier(t.log, |s.log|, |cut.log|, m, t.eck);
  }

  // ---------------------------------------------------------------- two revokes overlap

  /** The first four effects of a revoke that mints. */
  lemma RevokeOpening(s: State, m: string, at: int, r: string, env: Env)
    requires m != "" && !env.expired && !Skips(s, m, at, r) && !RotationRecorded(s, m, r)
    ensures var record := SetRotation(m, r, Rotation(MaxId(s.eck) + 1, env.freshKey, MaxId(s.eck)));
            var opening := [Begin(m, at, r, Revoke)] + [Tomb(m), record, AddEck(Version(MaxId(s.eck) + 1, env.freshKey))];
            var plan := PlanAdmin(s, m, at, r, Revoke, env);
            |plan| > 4 && plan[..4] == opening
  {
    var begin := Begin(m, at, r, Revoke);
    var s1 := Apply(s, begin);
    assert PlanAdmin(s, m, at, r, Revoke, env) == [begin] + (PlanRevoke(s1, m, r, true, env.freshKey) + [Complete(m, r)]);
  }

  /** A revoke cut short right after its new version was installed. */
  lemma RevokeCutAfterMint(s: State, m: string, at: int, r: string, env: Env)
    requires m != "" && r !in s.seen && !env.expired && !Skips(s, m, at, r) && !RotationRecorded(s, m, r)
    ensures var t := Exec(s, Deliver(Admin(m, at, r, Revoke), env, 4));
            && t.eck == s.eck + [Version(MaxId(s.eck) + 1, env.freshKey)]
            && t.tombs == s.tombs + {m} && t.status == s.status && t.rows == s.rows && t.seen == s.seen
            && (forall x | x != m :: ViewOf(t, x) == ViewOf(s, x)) && |s.log| <= |t.log|
  {
    var begin := Begin(m, at, r, Revoke);
    var newId := MaxId(s.eck) + 1;
    var record := SetRotation(m, r, Rotation(newId, env.freshKey, MaxId(s.eck)));
    var add := AddEck(Version(newId, env.freshKey));
    RevokeOpening(s, m, at, r, env);
    RunConcat(s, [begin], [Tomb(m), record, add]);
    RunOne(s, begin);
    RunThree(Apply(s, begin), Tomb(m), record, add);
    hide PlanAdmin;
  }

  /** A whole revoke of `x`: the start, the removal, then the re-grants read after it. */
  lemma WholeRevoke(s: State, x: string, at: int, r: string, env: Env)
    requires x != "" && !env.expired && !Skips(s, x, at, r)
    ensures var s1 := Apply(s, Begin(x, at, r, Revoke));
            var s2 := Run(s1, PlanRemoval(s1, x, r, true, env.freshKey));
            Run(s, PlanAdmin(s, x, at, r, Revoke, env))
              == Run(s2, RegrantAll(ApprovedAttendees(s2)) + [Publish, Publish, Complete(x, r)])
  {
    var begin := Begin(x, at, r, Revoke);
    var s1 := Apply(s, begin);
    var removal := PlanRemoval(s1, x, r, true, env.freshKey);
    var finish := RegrantAll(ApprovedAttendees(Run(s1, removal))) + [Publish, Publish, Complete(x, r)];
    assert PlanAdmin(s, x, at, r, Revoke, env) == [begin] + (removal + finish);
    RunConcat(s, [begin], removal + finish);
    RunOne(s, begin);
    RunConcat(s1, removal, finish);
  }

  /** The removal of `x` installs a version of its own and leaves `m` approved. */
  lemma RemovalOfOther(s: State, x: string, r: string, key: string, m: string)
    requires x != m && RotationOf(s, x).None? && HasStatus(s, m, Approved) && RowsListed(s)
    ensures var t := Run(s, PlanRemoval(s, x, r, true, key));
            && t.eck == s.eck + [Version(MaxId(s.eck) + 1, key)]
            && m in ApprovedAttendees(t) && |s.log| <= |t.log|
  {
    var removal := PlanRemoval(s, x, r, true, key);
    RemovalMints(s, x, r, key);
    RemovalStatus(s, x, r, true, key, m);
    RunKeepsRows(s, removal);
    ApprovedAreListed(Run(s, removal), m);
    LogGrows(s, removal);
  }

  /** It sends the list to everyone else approved, whether or not they are being removed. */
  lemma RemovalThenRegrants(s: State, x: string, r: string, key: string, m: string)
    requires x != m && RotationOf(s, x).None? && HasStatus(s, m, Approved) && RowsListed(s)
    ensures var s2 := Run(s, PlanRemoval(s, x, r, true, key));
            var t := Run(s2, RegrantAll(ApprovedAttendees(s2)) + [Publish, Publish, Complete(x, r)]);
            && t.eck == s.eck + [Version(MaxId(s.eck) + 1, key)]
            && GrantedSince(t.log, |s.log|, m, t.eck)
  {
    var s2 := Run(s, PlanRemoval(s, x, r, true, key));
    RemovalOfOther(s, x, r, key, m);
    RegrantThenFinish(s2, m, x, r);
    var t := Run(s2, RegrantAll(ApprovedAttendees(s2)) + [Publish, Publish, Complete(x, r)]);
    SinceEarlier(t.log, |s.log|, |s2.log|, m, t.eck);
  }

  lemma SinceEarlier(log: seq<Entry>, from: nat, later: nat, m: string, keys: seq<Version>)
    requires from <= later && GrantedSince(log, later, m, keys)
    ensures GrantedSince(log, from, m, keys)
  {
  }

  lemma StartOfRevoke(s: State, x: string, at: int, r: string, m: string)
    requires !RotationRecorded(s, x, r) && HasStatus(s, m, Approved) && RowsListed(s)
    ensures var s1 := Apply(s, Begin(x, at, r, Revoke));
            && RotationOf(s1, x).None? && HasStatus(s1, m, Approved) && RowsListed(s1)
            && s1.eck == s.eck && |s.log| <= |s1.log|
  {
  }

  lemma WholeRevokeRegrants(s: State, x: string, at: int, r: string, env: Env, m: string)
    requires x != m && x != "" && !env.expired && !Skips(s, x, at, r) && !RotationRecorded(s, x, r)
    requires HasStatus(s, m, Approved) && RowsListed(s)
    ensures var t := Run(s, PlanAdmin(s, x, at, r, Revoke, env));
            && t.eck == s.eck + [Version(MaxId(s.eck) + 1, env.freshKey)]
            && GrantedSince(t.log, |s.log|, m, t.eck)
  {
    hide *;
    var s1 := Apply(s, Begin(x, at, r, Revoke));
    StartOfRevoke(s, x, at, r, m);
    WholeRevoke(s, x, at, r, env);
    RemovalThenRegrants(s1, x, r, env.freshKey, m);
    SinceEarlier(Run(s, PlanAdmin(s, x, at, r, Revoke, env)).log, |s.log|, |s1.log|, m, s1.eck + [Version(MaxId(s1.eck) + 1, env.freshKey)]);
  }

  lemma RegrantThenFinish(s: State, m: string, x: string, r: string)
    requires m in ApprovedAttendees(s)
    ensures var t := Run(s, RegrantAll(ApprovedAttendees(s)) + [Publish, Publish, Complete(x, r)]);
            t.eck == s.eck && GrantedSince(t.log, |s.log|, m, s.eck)
  {
    var grants := RegrantAll(ApprovedAttendees(s));
    var s1 := Run(s, grants);
    RunConcat(s, grants, [Publish, Publish, Complete(x, r)]);
    RegrantsReach(s, ApprovedAttendees(s), m);
    RegrantsChangeLog(s, ApprovedAttendees(s));
    RunThree(s1, Publish, Publish, Complete(x, r));
    LogGrows(s1, [Publish, Publish, Complete(x, r)]);
  }

  lemma RemovalMints(s: State, x: string, r: string, key: string)
    requires RotationOf(s, x).None?
    ensures Run(s, PlanRemoval(s, x, r, true, key)).eck == s.eck + [Version(MaxId(s.eck) + 1, key)]
  {
    var newId := MaxId(s.eck) + 1;
    var head := [Tomb(x), SetRotation(x, r, Rotation(newId, key, MaxId(s.eck))), AddEck(Version(newId, key))];
    var leave := [Delete(x, DeletionId(s, x)), SetStatus(x, Revoked)];
    assert PlanRemoval(s, x, r, true, key) == head + leave;
    RunConcat(s, head, leave);
    RunThree(s, head[0], head[1], head[2]);
    RunTwo(Run(s, head), leave[0], leave[1]);
  }

  lemma MaxIdOfMint(held: seq<Version>, key: string)
    ensures MaxId(held + [Version(MaxId(held) + 1, key)]) == MaxId(held) + 1
  {
    var more := held + [Version(MaxId(held) + 1, key)];
    assert more[..|more| - 1] == held;
  }

  /** From a safe state: a revoke of `m` is cut short once its new version is installed, and
      a revoke of `x` then runs to its end. The member being removed is sent both versions
      minted to keep them out: the exclusion is per member, not per event. */
  lemma InterleavedRevokeLeaks(s: State, reg: Registry, m: string, at: int, r: string, env: Env, x: string, at': int, r': string, env': Env)
    requires AllSafe(s) && OrderInv(s, reg) && RowsListed(s) && HasStatus(s, m, Approved) && m != "" && x != "" && x != m
    requires r in reg && reg[r] == Admin(m, at, r, Revoke) && r' in reg && reg[r'] == Admin(x, at', r', Revoke)
    requires r !in s.seen && !env.expired && !Skips(s, m, at, r) && !RotationRecorded(s, m, r)
    requires r' !in s.seen && !env'.expired && !Skips(s, x, at', r') && !RotationRecorded(s, x, r')
    ensures var cut := Exec(s, Deliver(Admin(m, at, r, Revoke), env, 4));
            var t := Exec(cut, WholeDelivery(cut, x, at', r', env'));
            && AllSafe(cut) && AllSafe(t) && m in t.tombs
            && t.eck == s.eck + [Version(MaxId(s.eck) + 1, env.freshKey), Version(MaxId(s.eck) + 2, env'.freshKey)]
            && GrantedSince(t.log, |s.log|, m, t.eck)
  {
    hide Exec, Skips, AllSafe, OrderInv, RotationRecorded, RowsListed, GrantedSince;
    var cut := Exec(s, Deliver(Admin(m, at, r, Revoke), env, 4));
    RevokeCutAfterMint(s, m, at, r, env);
    RevokeIsSafe(s, reg, m, at, r, env, 4);
    StillOpen(s, cut, m, x, at', r');
    OverlappedRevoke(cut, reg, x, at', r', env', m);
    MaxIdOfMint(s.eck, env.freshKey);
    var first, second := Version(MaxId(s.eck) + 1, env.freshKey), Version(MaxId(s.eck) + 2, env'.freshKey);
    assert s.eck + [first] + [second] == s.eck + [first, second];
    var t := Exec(cut, WholeDelivery(cut, x, at', r', env'));
    SinceEarlier(t.log, |s.log|, |cut.log|, m, t.eck);
  }

  lemma RevokeIsSafe(s: State, reg: Registry, m: string, at: int, r: string, env: Env, budget: nat)
    requires AllSafe(s) && OrderInv(s, reg) && r in reg && reg[r] == Admin(m, at, r, Revoke) && !env.expired
    ensures var t := Exec(s, Deliver(Admin(m, at, r, Revoke), env, budget)); AllSafe(t) && OrderInv(t, reg)
  {
    StepKeepsAllSafeIff(s, Deliver(Admin(m, at, r, Revoke), env, budget), reg);
    ExecKeepsOrder(s, Deliver(Admin(m, at, r, Revoke), env, budget), reg);
  }

  lemma StillOpen(s: State, cut: State, m: string, x: string, at: int, r: string)
    requires ViewOf(cut, x) == ViewOf(s, x) && !Skips(s, x, at, r) && !RotationRecorded(s, x, r)
    requires RowsListed(s) && HasStatus(s, m, Approved) && cut.status == s.status && cut.rows == s.rows
    ensures !Skips(cut, x, at, r) && !RotationRecorded(cut, x, r) && RowsListed(cut) && HasStatus(cut, m, Approved)
  {
    SameOp(s, cut, x);
  }

  /** The revoke of `x` delivered with nothing going wrong. */
  function WholeDelivery(s: State, x: string, at: int, r: string, env: Env): Step {
    Deliver(Admin(x, at, r, Revoke), env, |PlanAdmin(s, x, at, r, Revoke, env)|)
  }

  lemma OverlappedRevoke(s: State, reg: Registry, x: string, at: int, r: string, env: Env, m: string)
    requires AllSafe(s) && OrderInv(s, reg) && r in reg && reg[r] == Admin(x, at, r, Revoke)
    requires RowsListed(s) && m in s.tombs && HasStatus(s, m, Approved)
    requires x != m && x != "" && r !in s.seen && !env.expired && !Skips(s, x, at, r) && !RotationRecorded(s, x, r)
    ensures var t := Exec(s, WholeDelivery(s, x, at, r, env));
            && AllSafe(t) && m in t.tombs
            && t.eck == s.eck + [Version(MaxId(s.eck) + 1, env.freshKey)]
            && GrantedSince(t.log, |s.log|, m, t.eck)
  {
    var step := WholeDelivery(s, x, at, r, env);
    RevokeIsSafe(s, reg, x, at, r, env, step.budget);
    WholeRevokeRegrants(s, x, at, r, env, m);
    CommandActsOn(s, step.cmd, env);
    BystanderKeeps(s, Plan(s, step), x, m);
    assert ViewOf(Run(s, Plan(s, step)), m).tomb;
  }
}
