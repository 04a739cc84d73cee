/** A standing organizer revocation is never undone by anything but an admitted organizer
    approve, and a completed command leaves the status it says. */
module MembershipSafety {
  import opened Wrappers
  import opened Ordering
  import opened Text
  import opened EckIdentity
  import opened Membership
  import opened MembershipOrder

  // ---------------------------------------------------------------- a tombstoned member stays out

  ghost predicate ShutOut(s: State, m: string) {
    m in s.tombs && !HasStatus(s, m, Approved)
  }

  ghost predicate Harmless(e: Effect, m: string) {
    && e != Untomb(m)
    && e != SetStatus(m, Approved)
    && e != Grant(m)
  }

  ghost predicate AllHarmless(es: seq<Effect>, m: string) {
    forall e <- es :: Harmless(e, m)
  }

  /** Nothing logged from position `from` on grants `m` a key. */
  ghost predicate NoGrantSince(log: seq<Entry>, from: nat, m: string) {
    forall i :: from <= i < |log| ==> !(log[i].Granted? && log[i].member == m)
  }

  lemma {:induction false} HarmlessRun(s: State, es: seq<Effect>, m: string)
    requires ShutOut(s, m) && AllHarmless(es, m)
    ensures ShutOut(Run(s, es), m)
    ensures s.log <= Run(s, es).log && NoGrantSince(Run(s, es).log, |s.log|, m)
    decreases |es|
  {
    if es != [] {
      var s1 := Apply(s, es[0]);
      assert Harmless(es[0], m);
      HarmlessRun(s1, es[1..], m);
    }
  }

  lemma {:induction false} RegrantsHarmless(members: seq<string>, m: string)
    requires m !in members
    ensures AllHarmless(RegrantAll(members), m)
  {
    if members != [] { RegrantsHarmless(members[1..], m); }
  }

  lemma RevokeHarmless(s: State, x: string, r: string, byOrganizer: bool, key: string, m: string)
    requires ShutOut(s, m)
    ensures AllHarmless(PlanRevoke(s, x, r, byOrganizer, key), m)
  {
    var removal := PlanRemoval(s, x, r, byOrganizer, key);
    HarmlessRun(s, removal, m);
    RegrantsHarmless(ApprovedAttendees(Run(s, removal)), m);
  }

  lemma {:induction false} SeedHarmless(s: State, pubkeys: seq<string>, m: string)
    ensures AllHarmless(PlanSeed(s, pubkeys), m)
    decreases |pubkeys|
  {
    if pubkeys != [] {
      var x := pubkeys[0];
      var es := [Tomb(x)] + (if HasStatus(s, x, Approved) then [SetStatus(x, Revoked)] else []);
      SeedHarmless(Run(s, es), pubkeys[1..], m);
    }
  }

  lemma {:induction false} AdoptHarmless(s: State, roster: seq<string>, m: string)
    requires ShutOut(s, m)
    ensures AllHarmless(PlanAdopt(s, roster), m)
    decreases |roster|
  {
    if roster != [] {
      var x := roster[0];
      if HasStatus(s, x, Approved) || x in s.tombs {
        AdoptHarmless(s, roster[1..], m);
      } else if !AtCap(s) {
        AdoptHarmless(Apply(s, SetStatus(x, Approved)), roster[1..], m);
      }
    }
  }

  lemma JoinHarmless(s: State, x: string, at: int, r: string, env: Env, m: string)
    requires ShutOut(s, m)
    ensures AllHarmless(PlanJoin(s, x, at, r, env), m)
  {
    if x != m {
      forall s1: State, existed, wasRevoked, full
        ensures AllHarmless(PlanDecision(s1, x, existed, wasRevoked, full, env), m)
      {
      }
    }
  }

  /** An organizer approve of `m` that the roster admits. */
  ghost predicate AdmittedApprove(step: Step, m: string) {
    && step.Deliver? && step.cmd.Admin? && step.cmd.kind == Approve && step.cmd.member == m
    && step.env.admits && !step.env.expired
  }

  lemma ApproveRowHarmless(s: State, x: string, r: string, env: Env, m: string)
    requires x in s.status
    requires x == m ==> !env.admits && s.status[x] != Approved
    ensures AllHarmless(PlanApproveRow(s, x, r, env), m)
  {
  }

  lemma ApproveHarmless(s: State, x: string, r: string, env: Env, m: string)
    requires ShutOut(s, m) && (x == m ==> !env.admits)
    ensures AllHarmless(PlanApprove(s, x, r, env), m)
  {
    if x in s.status {
      ApproveRowHarmless(s, x, r, env, m);
    } else if IsHex64(x) && !AtCap(s) {
      ApproveRowHarmless(Apply(s, SetStatus(x, Pending)), x, r, env, m);
    }
  }

  lemma AdminHarmless(s: State, x: string, at: int, r: string, kind: Kind, env: Env, m: string)
    requires !kind.Withdraw? && ShutOut(s, m)
    requires kind == Approve && x == m ==> !env.admits || env.expired
    ensures AllHarmless(PlanAdmin(s, x, at, r, kind, env), m)
  {
    if !env.expired && !Skips(s, x, at, r) {
      var begin := Begin(x, at, r, kind);
      var s1 := Apply(s, begin);
      match kind {
        case Approve =>
          ApproveHarmless(s1, x, r, env, m);
          assert PlanAdmin(s, x, at, r, kind, env) == [begin] + PlanApprove(s1, x, r, env);
        case Revoke =>
          RevokeHarmless(s1, x, r, true, env.freshKey, m);
          var revoke := if x == "" then [] else PlanRevoke(s1, x, r, true, env.freshKey);
          assert PlanAdmin(s, x, at, r, kind, env) == [begin] + (revoke + [Complete(x, r)]);
        case Reprocess =>
      }
    }
  }

  lemma WithdrawHarmless(s: State, x: string, at: int, r: string, deleteData: bool, env: Env, m: string)
    requires ShutOut(s, m)
    ensures AllHarmless(PlanWithdraw(s, x, at, r, deleteData, env), m)
  {
    var s1 := Apply(s, Begin(x, at, r, Withdraw(deleteData)));
    RevokeHarmless(s1, x, r, false, env.freshKey, m);
    if x in s1.status {
      assert AllHarmless(PlanLeave(s1, x, r, env.freshKey), m);
      assert AllHarmless(PlanDeparture(s1, x, r, deleteData, env.freshKey), m);
    }
  }

  lemma CommandHarmless(s: State, cmd: Command, env: Env, m: string)
    requires cmd.Admin? ==> !cmd.kind.Withdraw?
    requires ShutOut(s, m)
    requires !(cmd.Admin? && cmd.kind == Approve && cmd.member == m && env.admits && !env.expired)
    ensures AllHarmless(PlanCommand(s, cmd, env), m)
  {
    match cmd
    case Admin(x, at, r, kind) => AdminHarmless(s, x, at, r, kind, env, m);
    case Withdrawal(x, at, r, deleteData) => WithdrawHarmless(s, x, at, r, deleteData, env, m);
    case Join(x, at, r) => JoinHarmless(s, x, at, r, env, m);
  }

  /** No step but an admitted organizer approve, not a join in any mode, not a
      withdrawal that erases the row, not a grant's revocation set, not a handover, not a
      hierarchy re-issue, and not another member's revoke, makes a shut-out member approved or sends them a
      key, however far the step gets. */
  lemma RevocationStands(s: State, step: Step, m: string)
    requires ValidStep(step) && ShutOut(s, m) && !AdmittedApprove(step, m)
    ensures ShutOut(Exec(s, step), m)
    ensures s.log <= Exec(s, step).log && NoGrantSince(Exec(s, step).log, |s.log|, m)
  {
    match step {
      case Deliver(cmd, env, _) => CommandHarmless(s, cmd, env, m);
      case Seed(pubkeys, _) => SeedHarmless(s, pubkeys, m);
      case Bootstrap(roster, _) =>
        AdoptHarmless(s, roster, m);
        var adopt := PlanAdopt(s, roster);
        HarmlessRun(s, adopt, m);
        RegrantsHarmless(ApprovedAttendees(Run(s, adopt)), m);
      case Reissue(_, _) => GrantAllGrants(ApprovedAttendees(s));
      case Evict(idle, _) => EvictionsArePending(s, idle);
    }
    var es := Take(Plan(s, step), step.budget);
    assert AllHarmless(es, m);
    HarmlessRun(s, es, m);
  }

  /** The same over any run. */
  lemma {:induction false} RevocationStandsOverRuns(s: State, steps: seq<Step>, m: string)
    requires ShutOut(s, m)
    requires forall step <- steps :: ValidStep(step) && !AdmittedApprove(step, m)
    ensures ShutOut(RunAll(s, steps), m)
    ensures s.log <= RunAll(s, steps).log && NoGrantSince(RunAll(s, steps).log, |s.log|, m)
  {
    if steps != [] {
      var init := steps[..|steps| - 1];
      RevocationStandsOverRuns(s, init, m);
      RevocationStands(RunAll(s, init), steps[|steps| - 1], m);
    }
  }

  // ---------------------------------------------------------------- one member's view

  datatype View = View(tomb: bool, status: Option<Status>, op: Option<Op>)

  function ViewOf(s: State, m: string): View {
    View(m in s.tombs,
         if m in s.status then Some(s.status[m]) else None,
         if m in s.ops then Some(s.ops[m]) else None)
  }

  function ApplyView(v: View, e: Effect, m: string): View {
    match e
    case Begin(x, at, r, kind) =>
      if x != m then v
      else v.(op := Some(Op(at, r, kind, false,
                            if v.op.Some? && v.op.value.rumor == r then v.op.value.rotation else None)))
    case Tomb(x) => if x == m then v.(tomb := true) else v
    case Untomb(x) => if x == m then v.(tomb := false) else v
    case SetRotation(x, r, rot) =>
      if x == m && v.op.Some? && v.op.value.rumor == r then v.(op := Some(v.op.value.(rotation := Some(rot)))) else v
    case SetStatus(x, st) => if x == m then v.(status := Some(st)) else v
    case Purge(x) => if x == m then v.(status := None) else v
    case Complete(x, r) =>
      if x == m && v.op.Some? && v.op.value.rumor == r then v.(op := Some(v.op.value.(complete := true))) else v
    case _ => v
  }

  function RunView(v: View, es: seq<Effect>, m: string): View
    decreases |es|
  {
    if es == [] then v else RunView(ApplyView(v, es[0], m), es[1..], m)
  }

  lemma RunViewOne(v: View, e: Effect, m: string)
    ensures RunView(v, [e], m) == ApplyView(v, e, m)
  {
    assert [e][1..] == [];
  }

  lemma RunViewTwo(v: View, e: Effect, f: Effect, m: string)
    ensures RunView(v, [e, f], m) == ApplyView(ApplyView(v, e, m), f, m)
  {
    assert [e, f][1..] == [f];
    RunViewOne(ApplyView(v, e, m), f, m);
  }

  lemma ApplyViewIsApply(s: State, e: Effect, m: string)
    ensures ViewOf(Apply(s, e), m) == ApplyView(ViewOf(s, m), e, m)
  {
  }

  lemma {:induction false} RunViewIsRun(s: State, es: seq<Effect>, m: string)
    ensures ViewOf(Run(s, es), m) == RunView(ViewOf(s, m), es, m)
    decreases |es|
  {
    if es != [] {
      ApplyViewIsApply(s, es[0], m);
      RunViewIsRun(Apply(s, es[0]), es[1..], m);
    }
  }

  lemma {:induction false} RunViewConcat(v: View, a: seq<Effect>, b: seq<Effect>, m: string)
    ensures RunView(v, a + b, m) == RunView(RunView(v, a, m), b, m)
    decreases |a|
  {
    if a == [] {
      assert a + b == b;
    } else {
      assert (a + b)[0] == a[0] && (a + b)[1..] == a[1..] + b;
      RunViewConcat(ApplyView(v, a[0], m), a[1..], b, m);
    }
  }

  /** The effect leaves what is known of `m` alone. */
  ghost predicate Quiet(e: Effect, m: string) {
    e.AddEck? || e.Grant? || e.Delete? || e.Publish? || e.member != m
  }

  lemma {:induction false} QuietRun(v: View, es: seq<Effect>, m: string)
    requires forall e <- es :: Quiet(e, m)
    ensures RunView(v, es, m) == v
    decreases |es|
  {
    if es != [] {
      assert Quiet(es[0], m);
      QuietRun(ApplyView(v, es[0], m), es[1..], m);
    }
  }

  // ---------------------------------------------------------------- the invariant of one member

  ghost predicate Unfinished(v: View) {
    v.op.Some? && !v.op.value.complete
  }

  /** The organizer's revocation stands, yet the member is listed as approved. */
  ghost predicate Exposed(v: View) {
    v.tomb && v.status == Some(Approved)
  }

  /** What a completed organizer command left behind. An approve may since have been
      overridden by a grant that lists the member as revoked. */
  ghost predicate Settled(v: View, m: string) {
    v.op.Some? && v.op.value.complete ==>
      match v.op.value.kind
      case Revoke => v.tomb && v.status == Some(Revoked)
      case Approve => IsHex64(m) ==> if v.tomb then v.status == Some(Revoked) else v.status == Some(Approved)
      case Reprocess => true
      case Withdraw(_) => true
  }

  ghost predicate MemberInv(v: View, m: string) {
    Settled(v, m) && (Exposed(v) ==> Unfinished(v))
  }

  lemma {:induction false} UnfinishedRun(v: View, es: seq<Effect>, m: string)
    requires Unfinished(v) && forall e <- es :: !(e.Complete? && e.member == m)
    ensures Unfinished(RunView(v, es, m))
    ensures RunView(v, es, m).op.value.kind == v.op.value.kind || exists e <- es :: e.Begin? && e.member == m
    decreases |es|
  {
    if es != [] {
      UnfinishedRun(ApplyView(v, es[0], m), es[1..], m);
      assert forall e <- es[1..] :: e in es;
      assert es[0] in es;
    }
  }

  /** A plan that starts a command and reaches at most one completion, its last effect. */
  ghost predicate OneCompletion(plan: seq<Effect>, m: string) {
    && plan != [] && plan[0].Begin? && plan[0].member == m
    && forall i :: 0 <= i < |plan| - 1 ==> !(plan[i].Complete? && plan[i].member == m)
  }

  /** Short of completing, a command leaves its member unfinished. */
  lemma ShortOfTheEnd(v: View, plan: seq<Effect>, budget: nat, m: string)
    requires MemberInv(v, m) && OneCompletion(plan, m) && budget < |plan|
    ensures MemberInv(RunView(v, Take(plan, budget), m), m)
  {
    var es := Take(plan, budget);
    if es != [] {
      assert forall e <- es[1..] :: !(e.Complete? && e.member == m);
      UnfinishedRun(ApplyView(v, es[0], m), es[1..], m);
    }
  }

  // ---------------------------------------------------------------- how each command ends

  /** What a command that ran to its end leaves: its word kept, and nobody exposed. */
  ghost predicate Ended(v: View, m: string) {
    Settled(v, m) && !Exposed(v)
  }

  lemma {:induction false} RegrantsQuiet(members: seq<string>, m: string)
    ensures forall e <- RegrantAll(members) :: e.Grant? || e.Publish?
    ensures forall e <- RegrantAll(members) :: Quiet(e, m)
  {
    if members != [] { RegrantsQuiet(members[1..], m); }
  }

  lemma RemovalEnds(s: State, m: string, r: string, byOrganizer: bool, key: string, v: View)
    requires v == ViewOf(s, m) && Unfinished(v) && v.op.value.rumor == r
    ensures var w := RunView(v, PlanRemoval(s, m, r, byOrganizer, key), m);
            && Unfinished(w) && w.op.value.rumor == r && w.op.value.kind == v.op.value.kind
            && w.status == Some(Revoked) && w.tomb == (v.tomb || byOrganizer)
    ensures forall e <- PlanRemoval(s, m, r, byOrganizer, key) :: !e.Complete?
  {
    var tomb := if byOrganizer then [Tomb(m)] else [];
    var rot := PlanRotation(s, m, r, key);
    var last := [Delete(m, DeletionId(s, m)), SetStatus(m, Revoked)];
    assert PlanRemoval(s, m, r, byOrganizer, key) == tomb + (rot + last);
    RunViewOne(v, Tomb(m), m);
    var v1 := v.(tomb := v.tomb || byOrganizer);
    assert RunView(v, tomb, m) == v1;
    RotationView(s, m, r, key, v1);
    RemovalInThree(v, tomb, rot, m, v1, DeletionId(s, m));
  }

  lemma RemovalInThree(v: View, tomb: seq<Effect>, rot: seq<Effect>, m: string, v1: View, id: int)
    requires RunView(v, tomb, m) == v1
    ensures RunView(v, tomb + (rot + [Delete(m, id), SetStatus(m, Revoked)]), m)
              == RunView(v1, rot, m).(status := Some(Revoked))
  {
    var last := [Delete(m, id), SetStatus(m, Revoked)];
    RunViewConcat(v, tomb, rot + last, m);
    RunViewConcat(v1, rot, last, m);
    RunViewTwo(RunView(v1, rot, m), last[0], last[1], m);
  }

  lemma RotationView(s: State, m: string, r: string, key: string, v: View)
    requires Unfinished(v) && v.op.value.rumor == r
    ensures var w := RunView(v, PlanRotation(s, m, r, key), m);
            && Unfinished(w) && w.op.value.rumor == r && w.op.value.kind == v.op.value.kind
            && w.status == v.status && w.tomb == v.tomb
  {
    var newId := MaxId(s.eck) + 1;
    match RotationOf(s, m)
    case Some(rot) => RunViewOne(v, AddEck(Version(rot.newId, rot.newKey)), m);
    case None => RunViewTwo(v, SetRotation(m, r, Rotation(newId, key, MaxId(s.eck))), AddEck(Version(newId, key)), m);
  }

  lemma RevokeEnds(s: State, m: string, r: string, byOrganizer: bool, key: string, v: View)
    requires v == ViewOf(s, m) && Unfinished(v) && v.op.value.rumor == r
    ensures var plan := PlanRevoke(s, m, r, byOrganizer, key);
            var w := RunView(v, plan, m);
            && Unfinished(w) && w.op.value.rumor == r && w.op.value.kind == v.op.value.kind
            && w.status == Some(Revoked) && w.tomb == (v.tomb || byOrganizer)
            && forall e <- plan :: !e.Complete?
  {
    var removal := PlanRemoval(s, m, r, byOrganizer, key);
    var members := ApprovedAttendees(Run(s, removal));
    assert PlanRevoke(s, m, r, byOrganizer, key) == removal + (RegrantAll(members) + [Publish, Publish]);
    RemovalEnds(s, m, r, byOrganizer, key, v);
    RemovalThenRegrant(v, removal, members, m);
  }

  lemma RemovalThenRegrant(v: View, removal: seq<Effect>, members: seq<string>, m: string)
    requires forall e <- removal :: !e.Complete?
    ensures var plan := removal + (RegrantAll(members) + [Publish, Publish]);
            RunView(v, plan, m) == RunView(v, removal, m) && forall e <- plan :: !e.Complete?
  {
    RegrantTail(RunView(v, removal, m), members, m);
    RunViewConcat(v, removal, RegrantAll(members) + [Publish, Publish], m);
  }

  lemma RegrantTail(v: View, members: seq<string>, m: string)
    ensures RunView(v, RegrantAll(members) + [Publish, Publish], m) == v
    ensures forall e <- RegrantAll(members) + [Publish, Publish] :: !e.Complete?
  {
    RegrantsQuiet(members, m);
    QuietRun(v, RegrantAll(members) + [Publish, Publish], m);
  }

  lemma CompletionLast(v: View, plan: seq<Effect>, m: string, r: string)
    requires Unfinished(v) && forall e <- plan :: !e.Complete?
    requires Unfinished(RunView(v, plan, m)) && RunView(v, plan, m).op.value.rumor == r
    ensures var w := RunView(v, plan, m);
            RunView(v, plan + [Complete(m, r)], m) == w.(op := Some(w.op.value.(complete := true)))
  {
    RunViewConcat(v, plan, [Complete(m, r)], m);
  }

  lemma BeginView(s: State, m: string, at: int, r: string, kind: Kind)
    ensures var v := ViewOf(Apply(s, Begin(m, at, r, kind)), m);
            Unfinished(v) && v.op.value.rumor == r && v.op.value.kind == kind
            && v.tomb == (m in s.tombs) && v.status == ViewOf(s, m).status
  {
  }

  lemma ConcatStart(s: State, begin: Effect, rest: seq<Effect>, m: string)
    ensures RunView(ViewOf(s, m), [begin] + rest, m) == RunView(ViewOf(Apply(s, begin), m), rest, m)
  {
    RunViewConcat(ViewOf(s, m), [begin], rest, m);
    ApplyViewIsApply(s, begin, m);
  }

  lemma AdminRevokeEnds(s: State, m: string, at: int, r: string, env: Env)
    requires m != ""
    ensures var plan := PlanAdmin(s, m, at, r, Revoke, env);
            plan == [] || (OneCompletion(plan, m) && Ended(RunView(ViewOf(s, m), plan, m), m))
  {
    var begin := Begin(m, at, r, Revoke);
    var s1 := Apply(s, begin);
    BeginView(s, m, at, r, Revoke);
    RevokeEnds(s1, m, r, true, env.freshKey, ViewOf(s1, m));
    var rest := PlanRevoke(s1, m, r, true, env.freshKey);
    CompletionLast(ViewOf(s1, m), rest, m, r);
    ConcatStart(s, begin, rest + [Complete(m, r)], m);
    assert [begin] + (rest + [Complete(m, r)]) == [begin] + rest + [Complete(m, r)];
  }

  lemma GrantQuiet(s: State, x: string, live: bool, m: string)
    ensures forall e <- PlanGrant(s, x, live) :: Quiet(e, m) && !e.Complete?
  {
  }

  lemma ApproveTail(v: View, head: seq<Effect>, grant: seq<Effect>, m: string, r: string, w: View)
    requires RunView(v, head, m) == w && Unfinished(w) && w.op.value.rumor == r
    requires forall e <- head :: !e.Complete?
    requires forall e <- grant :: Quiet(e, m) && !e.Complete?
    ensures RunView(v, head + grant + [Complete(m, r)], m) == w.(op := Some(w.op.value.(complete := true)))
    ensures forall i :: 0 <= i < |head| + |grant| ==> !(head + grant + [Complete(m, r)])[i].Complete?
  {
    RunViewConcat(v, head, grant, m);
    QuietRun(w, grant, m);
    RunViewConcat(v, head + grant, [Complete(m, r)], m);
    RunViewOne(w, Complete(m, r), m);
  }

  lemma ApproveRowEnds(s: State, m: string, r: string, env: Env, v: View)
    requires v == ViewOf(s, m) && Unfinished(v) && v.op.value.rumor == r && m in s.status
    ensures var plan := PlanApproveRow(s, m, r, env);
            var w := RunView(v, plan, m);
            && (forall i :: 0 <= i < |plan| - 1 ==> !plan[i].Complete?)
            && ((Unfinished(w) && w.status != Some(Approved)) || (w.status == Some(Approved) && !w.tomb))
  {
    if s.status[m] == Approved || env.admits {
      var set_ := if s.status[m] != Approved then [SetStatus(m, Approved)] else [];
      var grant := PlanGrant(Apply(s, Untomb(m)), m, env.live);
      GrantQuiet(Apply(s, Untomb(m)), m, env.live, m);
      var head := [Untomb(m)] + set_;
      RunViewOne(v, Untomb(m), m);
      RunViewTwo(v, Untomb(m), SetStatus(m, Approved), m);
      assert head == if s.status[m] != Approved then [Untomb(m), SetStatus(m, Approved)] else [Untomb(m)];
      var w := v.(tomb := false, status := Some(Approved));
      assert RunView(v, head, m) == w;
      ApproveTail(v, head, grant, m, r, w);
    }
  }

  lemma ApproveEnds(s: State, m: string, r: string, env: Env, v: View)
    requires v == ViewOf(s, m) && Unfinished(v) && v.op.value.rumor == r
    ensures var plan := PlanApprove(s, m, r, env);
            var w := RunView(v, plan, m);
            && (forall i :: 0 <= i < |plan| - 1 ==> !plan[i].Complete?)
            && ((Unfinished(w) && w.status != Some(Approved)) || (w.status == Some(Approved) && !w.tomb) || (!IsHex64(m) && w.status == None))
  {
    if m in s.status {
      ApproveRowEnds(s, m, r, env, v);
    } else if IsHex64(m) && !AtCap(s) {
      var s1 := Apply(s, SetStatus(m, Pending));
      ApplyViewIsApply(s, SetStatus(m, Pending), m);
      ApproveRowEnds(s1, m, r, env, ViewOf(s1, m));
      var row := PlanApproveRow(s1, m, r, env);
      assert PlanApprove(s, m, r, env) == [SetStatus(m, Pending)] + row;
      ConcatStart(s, SetStatus(m, Pending), row, m);
      forall i | 0 <= i < |row|
        ensures ([SetStatus(m, Pending)] + row)[i + 1] == row[i]
      {
      }
    }
  }

  lemma AdminApproveEnds(s: State, m: string, at: int, r: string, env: Env)
    ensures var plan := PlanAdmin(s, m, at, r, Approve, env);
            plan == [] || (OneCompletion(plan, m) && Ended(RunView(ViewOf(s, m), plan, m), m))
  {
    var begin := Begin(m, at, r, Approve);
    var s1 := Apply(s, begin);
    BeginView(s, m, at, r, Approve);
    ApproveEnds(s1, m, r, env, ViewOf(s1, m));
    var rest := PlanApprove(s1, m, r, env);
    ConcatStart(s, begin, rest, m);
    ApproveKind(s1, m, r, env);
    UnchangedKind(ViewOf(s1, m), rest, m);
    forall i | 0 <= i < |rest|
      ensures ([begin] + rest)[i + 1] == rest[i]
    {
    }
  }

  lemma ApproveKind(s: State, m: string, r: string, env: Env)
    ensures forall e <- PlanApprove(s, m, r, env) :: !e.Begin?
  {
    if m in s.status {
      assert forall e <- PlanApproveRow(s, m, r, env) :: !e.Begin?;
    } else if IsHex64(m) && !AtCap(s) {
      assert forall e <- PlanApproveRow(Apply(s, SetStatus(m, Pending)), m, r, env) :: !e.Begin?;
    }
  }

  lemma {:induction false} UnchangedKind(v: View, es: seq<Effect>, m: string)
    requires v.op.Some? && forall e <- es :: !e.Begin?
    ensures var w := RunView(v, es, m); w.op.Some? && w.op.value.kind == v.op.value.kind && w.op.value.rumor == v.op.value.rumor
    decreases |es|
  {
    if es != [] { UnchangedKind(ApplyView(v, es[0], m), es[1..], m); }
  }

  /** A reprocess that runs to its end completes and changes nothing else. */
  lemma AdminReprocessEnds(s: State, m: string, at: int, r: string, env: Env)
    requires !env.expired && !Skips(s, m, at, r)
    ensures var plan := PlanAdmin(s, m, at, r, Reprocess, env);
            var w := RunView(ViewOf(s, m), plan, m);
            && |plan| == 3 && OneCompletion(plan, m)
            && w.tomb == (m in s.tombs) && w.status == ViewOf(s, m).status
            && w.op.Some? && w.op.value.complete && w.op.value.kind == Reprocess
  {
    var begin := Begin(m, at, r, Reprocess);
    BeginView(s, m, at, r, Reprocess);
    ConcatStart(s, begin, [Publish, Complete(m, r)], m);
    RunViewTwo(ViewOf(Apply(s, begin), m), Publish, Complete(m, r), m);
  }

  lemma LeaveEnds(s1: State, m: string, r: string, deleteData: bool, key: string, v: View)
    requires m in s1.status && v == ViewOf(s1, m) && Unfinished(v) && v.op.value.rumor == r
    ensures var leave := PlanLeave(s1, m, r, key) + (if deleteData then [Purge(m)] else []);
            var w := RunView(v, leave, m);
            && Unfinished(w) && w.op.value.rumor == r && w.op.value.kind == v.op.value.kind
            && w.status != Some(Approved)
            && forall e <- leave :: !e.Complete?
  {
    var leave := PlanLeave(s1, m, r, key);
    var purge := if deleteData then [Purge(m)] else [];
    RevokeEnds(s1, m, r, false, key, v);
    RunViewOne(v, Purge(m), m);
    var w := RunView(v, leave, m);
    RunViewOne(w, Purge(m), m);
    RunViewConcat(v, leave, purge, m);
  }

  /** A started command whose effects leave the member out, then completes, settles. */
  lemma StartedWithdrawalSettles(s: State, begin: Effect, rest: seq<Effect>, m: string)
    requires begin.Begin? && begin.member == m && begin.kind.Withdraw?
    requires var w := RunView(ViewOf(Apply(s, begin), m), rest, m);
             Unfinished(w) && w.op.value.rumor == begin.rumor && w.op.value.kind == begin.kind && w.status != Some(Approved)
    requires forall e <- rest :: !e.Complete?
    ensures var plan := [begin] + (rest + [Complete(m, begin.rumor)]);
            OneCompletion(plan, m) && Ended(RunView(ViewOf(s, m), plan, m), m)
  {
    CompletionLast(ViewOf(Apply(s, begin), m), rest, m, begin.rumor);
    ConcatStart(s, begin, rest + [Complete(m, begin.rumor)], m);
  }

  lemma WithdrawEnds(s: State, m: string, at: int, r: string, deleteData: bool, env: Env)
    ensures var plan := PlanWithdraw(s, m, at, r, deleteData, env);
            plan == [] || (OneCompletion(plan, m) && Ended(RunView(ViewOf(s, m), plan, m), m))
  {
    var begin := Begin(m, at, r, Withdraw(deleteData));
    var s1 := Apply(s, begin);
    BeginView(s, m, at, r, Withdraw(deleteData));
    if Skips(s, m, at, r) {
    } else if m !in s.status {
      StartedWithdrawalSettles(s, begin, [], m);
      assert [Complete(m, r)] == [] + [Complete(m, r)];
    } else {
      LeaveEnds(s1, m, r, deleteData, env.freshKey, ViewOf(s1, m));
      var leave := PlanLeave(s1, m, r, env.freshKey) + (if deleteData then [Purge(m)] else []);
      StartedWithdrawalSettles(s, begin, leave, m);
      assert PlanWithdraw(s, m, at, r, deleteData, env) == [begin] + (leave + [Complete(m, r)]);
    }
  }

  // ---------------------------------------------------------------- every step keeps every member's invariant

  /** A command on `m` has started, is not complete, and will still be delivered. */
  ghost predicate InProgress(s: State, m: string) {
    m in s.ops && !s.ops[m].complete && s.ops[m].rumor !in s.seen
  }

  /** A standing revocation of someone still approved is being worked on, and the newest
      command, once complete, has left what it says. */
  ghost predicate Kept(s: State, m: string) {
    Settled(ViewOf(s, m), m) && (Exposed(ViewOf(s, m)) ==> InProgress(s, m))
  }

  ghost predicate AllSafe(s: State) {
    forall m | m != "" :: Kept(s, m)
  }

  ghost predicate ActsOn(es: seq<Effect>, x: string) {
    forall e <- es, m: string | m != x :: Quiet(e, m)
  }

  lemma BystanderKeeps(s: State, es: seq<Effect>, x: string, m: string)
    requires ActsOn(es, x) && m != x
    ensures ViewOf(Run(s, es), m) == ViewOf(s, m)
  {
    RunViewIsRun(s, es, m);
    forall e <- es
      ensures Quiet(e, m)
    {
    }
    QuietRun(ViewOf(s, m), es, m);
  }

  lemma RevokeActsOn(s: State, x: string, r: string, byOrganizer: bool, key: string)
    ensures ActsOn(PlanRevoke(s, x, r, byOrganizer, key), x)
  {
    RegrantsQuiet(ApprovedAttendees(Run(s, PlanRemoval(s, x, r, byOrganizer, key))), x);
  }

  lemma CommandActsOn(s: State, cmd: Command, env: Env)
    requires cmd.Admin? ==> !cmd.kind.Withdraw?
    ensures ActsOn(PlanCommand(s, cmd, env), cmd.member)
  {
    match cmd
    case Admin(x, at, r, kind) =>
      var s1 := Apply(s, Begin(x, at, r, kind));
      RevokeActsOn(s1, x, r, true, env.freshKey);
      ApproveActsOn(s1, x, r, env);
    case Withdrawal(x, at, r, deleteData) =>
      RevokeActsOn(Apply(s, Begin(x, at, r, Withdraw(deleteData))), x, r, false, env.freshKey);
    case Join(x, at, r) =>
      forall s1: State, existed, wasRevoked, full
        ensures ActsOn(PlanDecision(s1, x, existed, wasRevoked, full, env), x)
      {
      }
  }

  lemma ApproveActsOn(s: State, x: string, r: string, env: Env)
    ensures ActsOn(PlanApprove(s, x, r, env), x)
  {
    if x in s.status {
      assert ActsOn(PlanApproveRow(s, x, r, env), x);
    } else if IsHex64(x) && !AtCap(s) {
      assert ActsOn(PlanApproveRow(Apply(s, SetStatus(x, Pending)), x, r, env), x);
    }
  }

  /** A join acts only on a member with no standing revocation, and never lowers an approval. */
  lemma JoinKeepsView(v: View, es: seq<Effect>, m: string)
    requires MemberInv(v, m) && !v.tomb
    requires v.status == Some(Approved) ==> forall e <- es :: Quiet(e, m)
    requires forall e <- es :: Quiet(e, m) || ((e.SetStatus? || e.Purge?) && e.member == m)
    ensures MemberInv(RunView(v, es, m), m)
    decreases |es|
  {
    if v.status == Some(Approved) {
      QuietRun(v, es, m);
    } else {
      StatusRun(v, es, m);
    }
  }

  lemma {:induction false} StatusRun(v: View, es: seq<Effect>, m: string)
    requires forall e <- es :: Quiet(e, m) || ((e.SetStatus? || e.Purge?) && e.member == m)
    ensures var w := RunView(v, es, m); w.tomb == v.tomb && w.op == v.op
    decreases |es|
  {
    if es != [] {
      assert es[0] in es;
      StatusRun(ApplyView(v, es[0], m), es[1..], m);
    }
  }

  lemma JoinEffects(s: State, m: string, at: int, r: string, env: Env)
    ensures forall e <- PlanJoin(s, m, at, r, env) :: Quiet(e, m) || ((e.SetStatus? || e.Purge?) && e.member == m)
    ensures HasStatus(s, m, Approved) ==> forall e <- PlanJoin(s, m, at, r, env) :: Quiet(e, m)
    ensures m in s.tombs ==> PlanJoin(s, m, at, r, env) == []
  {
    forall s1: State, existed, wasRevoked, full
      ensures forall e <- PlanDecision(s1, m, existed, wasRevoked, full, env) :: Quiet(e, m) || (e.SetStatus? && e.member == m) || e == Purge(m)
    {
      GrantQuiet(s1, m, true, m);
    }
    GrantQuiet(s, m, env.live, m);
  }

  /** A reprocess is accepted, and gets to its completion, on a member whose organizer
      revocation stands but who is still approved. */
  predicate TakesOver(s: State, step: Step) {
    && step.Deliver? && step.cmd.Admin? && step.cmd.kind == Reprocess && step.cmd.member != ""
    && step.cmd.rumor !in s.seen && !step.env.expired
    && !Skips(s, step.cmd.member, step.cmd.createdAt, step.cmd.rumor)
    && step.cmd.member in s.tombs && HasStatus(s, step.cmd.member, Approved)
    && step.budget >= 3
  }

  /** The next write of `plan` would demote a member no command is in progress on. */
  ghost predicate DemotionNext(s: State, plan: seq<Effect>, budget: nat) {
    && budget < |plan| && plan[budget].SetStatus? && plan[budget].member != ""
    && !InProgress(s, plan[budget].member)
  }

  /** A grant's revocation set stops between a member's tombstone and their demotion. */
  ghost predicate CutsShort(s: State, step: Step)
    requires ValidStep(step)
  {
    step.Seed? && DemotionNext(s, Plan(s, step), step.budget)
  }

  /** The command a member is exposed by comes back after its horizon: it is dropped as
      expired, and never delivered again. */
  predicate Lapses(s: State, step: Step) {
    && step.Deliver? && step.cmd.Admin? && step.cmd.member != ""
    && step.cmd.rumor !in s.seen && step.env.expired
    && step.cmd.member in s.ops && s.ops[step.cmd.member].rumor == step.cmd.rumor
    && step.cmd.member in s.tombs && HasStatus(s, step.cmd.member, Approved)
  }

  ghost predicate Orderly(s: State, step: Step) {
    ValidStep(step) && !TakesOver(s, step) && !CutsShort(s, step) && !Lapses(s, step)
  }

  // ---------------------------------------------------------------- deliveries

  /** The recorded command of a member is the one its rumor names. */
  lemma OpIsItsCommand(s: State, reg: Registry, cmd: Command, m: string)
    requires OrderInv(s, reg) && cmd.rumor in reg && reg[cmd.rumor] == cmd
    requires m in s.ops && s.ops[m].rumor == cmd.rumor
    ensures Starts(cmd, m, s.ops[m].createdAt, s.ops[m].kind) && cmd.member == m
  {
    var op := s.ops[m];
    assert Began(m, op.createdAt, op.rumor, op.kind) in s.log;
    var i :| 0 <= i < |s.log| && s.log[i] == Began(m, op.createdAt, op.rumor, op.kind);
    assert BeganAt(s.log, i, m);
  }

  /** A delivery that plans nothing is seen, and that is all. */
  lemma NothingPlanned(s: State, cmd: Command, env: Env, budget: nat, reg: Registry)
    requires ValidStep(Deliver(cmd, env, budget)) && OrderInv(s, reg) && Registered(Deliver(cmd, env, budget), reg)
    requires cmd.member != "" && cmd.rumor !in s.seen && Kept(s, cmd.member) && PlanCommand(s, cmd, env) == []
    ensures var step := Deliver(cmd, env, budget);
            !TakesOver(s, step) && (Kept(Exec(s, step), cmd.member) <==> !Lapses(s, step))
  {
    var m := cmd.member;
    var t := Exec(s, Deliver(cmd, env, budget));
    assert t == s.(seen := s.seen + {cmd.rumor});
    assert ViewOf(t, m) == ViewOf(s, m);
    if m in s.ops && s.ops[m].rumor == cmd.rumor { OpIsItsCommand(s, reg, cmd, m); }
  }

  /** The first effect of a command performed at all records it, unfinished. */
  lemma StartedCommand(s: State, cmd: Command, env: Env, n: nat)
    requires ValidStep(Deliver(cmd, env, n)) && !cmd.Join? && cmd.rumor !in s.seen
    requires 0 < n <= |PlanCommand(s, cmd, env)|
    ensures var w := RunView(ViewOf(s, cmd.member), PlanCommand(s, cmd, env)[..n], cmd.member);
            w.op.Some? && w.op.value.rumor == cmd.rumor
  {
    var plan := PlanCommand(s, cmd, env);
    PlanShape(s, Deliver(cmd, env, n));
    assert Plan(s, Deliver(cmd, env, n)) == plan && plan[0] == plan[..n][0];
    CommandBegins(s, cmd, env);
    assert forall e <- plan[..n][1..] :: e in plan[1..];
    UnchangedKind(ApplyView(ViewOf(s, cmd.member), plan[0], cmd.member), plan[..n][1..], cmd.member);
  }

  lemma CommandBegins(s: State, cmd: Command, env: Env)
    requires (cmd.Admin? ==> !cmd.kind.Withdraw?) && !cmd.Join?
    ensures PlanCommand(s, cmd, env) != [] ==> PlanCommand(s, cmd, env)[0].Begin?
  {
  }

  /** How a command's whole plan ends, reprocess aside. */
  lemma CommandEnds(s: State, cmd: Command, env: Env)
    requires (cmd.Admin? ==> !cmd.kind.Withdraw? && cmd.kind != Reprocess) && !cmd.Join? && cmd.member != ""
    ensures var plan := PlanCommand(s, cmd, env);
            plan != [] ==> OneCompletion(plan, cmd.member) && Ended(RunView(ViewOf(s, cmd.member), plan, cmd.member), cmd.member)
  {
    match cmd
    case Admin(m, at, r, kind) =>
      if kind == Approve { AdminApproveEnds(s, m, at, r, env); } else { AdminRevokeEnds(s, m, at, r, env); }
    case Withdrawal(m, at, r, deleteData) => WithdrawEnds(s, m, at, r, deleteData, env);
  }

  lemma CommandCutKeeps(s: State, cmd: Command, env: Env, budget: nat)
    requires ValidStep(Deliver(cmd, env, budget)) && !cmd.Join? && cmd.member != "" && cmd.rumor !in s.seen
    requires Kept(s, cmd.member) && budget < |PlanCommand(s, cmd, env)|
    ensures var step := Deliver(cmd, env, budget);
            !TakesOver(s, step) && !Lapses(s, step) && Kept(Exec(s, step), cmd.member)
  {
    var m := cmd.member;
    var plan := PlanCommand(s, cmd, env);
    RunViewIsRun(s, Take(plan, budget), m);
    SeenStays(s, Take(plan, budget));
    if cmd.Admin? && cmd.kind == Reprocess {
      AdminReprocessEnds(s, m, cmd.createdAt, cmd.rumor, env);
    } else {
      CommandEnds(s, cmd, env);
    }
    ShortOfTheEnd(ViewOf(s, m), plan, budget, m);
    if budget > 0 { StartedCommand(s, cmd, env, budget); }
  }

  lemma WholeCommandKeepsIff(s: State, cmd: Command, env: Env, budget: nat)
    requires ValidStep(Deliver(cmd, env, budget)) && !cmd.Join? && cmd.member != "" && cmd.rumor !in s.seen
    requires PlanCommand(s, cmd, env) != [] && budget >= |PlanCommand(s, cmd, env)|
    ensures var step := Deliver(cmd, env, budget);
            !Lapses(s, step) && (Kept(Exec(s, step), cmd.member) <==> !TakesOver(s, step))
  {
    var m := cmd.member;
    var t := Exec(s, Deliver(cmd, env, budget));
    RunViewIsRun(s, PlanCommand(s, cmd, env), m);
    assert ViewOf(t, m) == RunView(ViewOf(s, m), PlanCommand(s, cmd, env), m);
    if cmd.Admin? && cmd.kind == Reprocess {
      AdminReprocessEnds(s, m, cmd.createdAt, cmd.rumor, env);
    } else {
      CommandEnds(s, cmd, env);
    }
  }

  lemma JoinKeeps(s: State, cmd: Command, env: Env, budget: nat)
    requires cmd.Join? && cmd.rumor !in s.seen && Kept(s, cmd.member) && PlanCommand(s, cmd, env) != []
    ensures Kept(Exec(s, Deliver(cmd, env, budget)), cmd.member)
  {
    var m := cmd.member;
    var es := Take(PlanCommand(s, cmd, env), budget);
    assert forall e <- es :: e in PlanCommand(s, cmd, env);
    JoinEffects(s, m, cmd.createdAt, cmd.rumor, env);
    RunViewIsRun(s, es, m);
    assert ViewOf(Exec(s, Deliver(cmd, env, budget)), m) == RunView(ViewOf(s, m), es, m);
    JoinKeepsView(ViewOf(s, m), es, m);
    StatusRun(ViewOf(s, m), es, m);
  }

  lemma DeliveryKeepsOwnIff(s: State, cmd: Command, env: Env, budget: nat, reg: Registry)
    requires ValidStep(Deliver(cmd, env, budget)) && OrderInv(s, reg) && Registered(Deliver(cmd, env, budget), reg)
    requires cmd.member != "" && cmd.rumor !in s.seen && Kept(s, cmd.member)
    ensures var step := Deliver(cmd, env, budget);
            Kept(Exec(s, step), cmd.member) <==> !TakesOver(s, step) && !Lapses(s, step)
  {
    if PlanCommand(s, cmd, env) == [] {
      NothingPlanned(s, cmd, env, budget, reg);
    } else if cmd.Join? {
      JoinKeeps(s, cmd, env, budget);
    } else if budget < |PlanCommand(s, cmd, env)| {
      CommandCutKeeps(s, cmd, env, budget);
    } else {
      WholeCommandKeepsIff(s, cmd, env, budget);
    }
  }

  /** A delivery to one member leaves every other as it was, its own rumor being no other's. */
  lemma DeliveryKeepsOthers(s: State, cmd: Command, env: Env, budget: nat, reg: Registry, m: string)
    requires ValidStep(Deliver(cmd, env, budget)) && OrderInv(s, reg) && Registered(Deliver(cmd, env, budget), reg)
    requires cmd.rumor !in s.seen && m != cmd.member && Kept(s, m)
    ensures Kept(Exec(s, Deliver(cmd, env, budget)), m)
  {
    var es := Take(PlanCommand(s, cmd, env), budget);
    var t := Exec(s, Deliver(cmd, env, budget));
    CommandActsOn(s, cmd, env);
    assert forall e <- es :: e in PlanCommand(s, cmd, env);
    BystanderKeeps(s, es, cmd.member, m);
    SeenStays(s, es);
    assert ViewOf(t, m) == ViewOf(s, m);
    if m in s.ops && s.ops[m].rumor == cmd.rumor { OpIsItsCommand(s, reg, cmd, m); }
    SameOp(s, t, m);
  }

  lemma {:induction false} SeenStays(s: State, es: seq<Effect>)
    ensures Run(s, es).seen == s.seen
    decreases |es|
  {
    if es != [] { SeenStays(Apply(s, es[0]), es[1..]); }
  }

  lemma SameOp(s: State, t: State, m: string)
    requires ViewOf(t, m) == ViewOf(s, m)
    ensures m in t.ops <==> m in s.ops
    ensures m in s.ops ==> t.ops[m] == s.ops[m]
  {
    assert ViewOf(t, m).op == ViewOf(s, m).op;
  }

  lemma DeliveryKeepsIff(s: State, cmd: Command, env: Env, budget: nat, reg: Registry)
    requires ValidStep(Deliver(cmd, env, budget)) && OrderInv(s, reg) && Registered(Deliver(cmd, env, budget), reg)
    requires AllSafe(s)
    ensures var step := Deliver(cmd, env, budget);
            AllSafe(Exec(s, step)) <==> !TakesOver(s, step) && !Lapses(s, step)
  {
    var t := Exec(s, Deliver(cmd, env, budget));
    if cmd.rumor in s.seen {
      assert t == s;
    } else {
      forall m | m != "" && m != cmd.member
        ensures Kept(t, m)
      {
        DeliveryKeepsOthers(s, cmd, env, budget, reg, m);
      }
      if cmd.member != "" { DeliveryKeepsOwnIff(s, cmd, env, budget, reg); }
    }
  }

  // ---------------------------------------------------------------- the other steps

  /** One member of a revocation set, written whole. */
  lemma SeedOneKeeps(s: State, x: string)
    requires AllSafe(s)
    ensures var s1 := Run(s, [Tomb(x)] + (if HasStatus(s, x, Approved) then [SetStatus(x, Revoked)] else []));
            AllSafe(s1) && s1.ops == s.ops && s1.seen == s.seen
  {
    RunOne(s, Tomb(x));
    RunTwo(s, Tomb(x), SetStatus(x, Revoked));
    var es := [Tomb(x)] + (if HasStatus(s, x, Approved) then [SetStatus(x, Revoked)] else []);
    assert es == if HasStatus(s, x, Approved) then [Tomb(x), SetStatus(x, Revoked)] else [Tomb(x)];
    forall m | m != ""
      ensures Kept(Run(s, es), m)
    {
      assert Kept(s, m);
    }
  }

  /** Cut right after the tombstone of an approved member, it is a command in progress
      alone that keeps them safe. */
  lemma SeedCutIff(s: State, x: string)
    requires AllSafe(s) && HasStatus(s, x, Approved)
    ensures AllSafe(Apply(s, Tomb(x))) <==> x == "" || InProgress(s, x)
  {
    var t := Apply(s, Tomb(x));
    assert x != "" && !InProgress(s, x) ==> !Kept(t, x);
    forall m | m != "" && (m != x || InProgress(s, x))
      ensures Kept(t, m)
    {
      assert Kept(s, m);
    }
  }

  lemma PastTheFirst(s: State, es: seq<Effect>, rest: seq<Effect>, budget: nat)
    requires budget >= |es| && Run(s, es).ops == s.ops && Run(s, es).seen == s.seen
    ensures Run(s, Take(es + rest, budget)) == Run(Run(s, es), Take(rest, budget - |es|))
    ensures DemotionNext(s, es + rest, budget) <==> DemotionNext(Run(s, es), rest, budget - |es|)
  {
    assert Take(es + rest, budget) == es + Take(rest, budget - |es|);
    RunConcat(s, es, Take(rest, budget - |es|));
    assert budget < |es + rest| ==> (es + rest)[budget] == rest[budget - |es|];
  }

  /** A revocation set keeps every member's invariant, however far it gets, unless it stops
      between a tombstone and a demotion that no command in progress excuses. */
  lemma {:induction false} SeedKeepsIff(s: State, pubkeys: seq<string>, budget: nat)
    requires AllSafe(s)
    ensures AllSafe(Run(s, Take(PlanSeed(s, pubkeys), budget))) <==> !DemotionNext(s, PlanSeed(s, pubkeys), budget)
    decreases |pubkeys|
  {
    hide AllSafe, HasStatus, InProgress;
    if pubkeys != [] {
      var x := pubkeys[0];
      var es := [Tomb(x)] + (if HasStatus(s, x, Approved) then [SetStatus(x, Revoked)] else []);
      var s1 := Run(s, es);
      var rest := PlanSeed(s1, pubkeys[1..]);
      var plan := PlanSeed(s, pubkeys);
      assert plan == es + rest;
      SeedOneKeeps(s, x);
      if budget >= |es| {
        SeedKeepsIff(s1, pubkeys[1..], budget - |es|);
        PastTheFirst(s, es, rest, budget);
      } else if budget == 0 {
        assert plan[0] == Tomb(x);
      } else {
        assert Take(plan, budget) == [Tomb(x)];
        RunOne(s, Tomb(x));
        SeedCutIff(s, x);
      }
    }
  }

  lemma {:induction false} AdoptKeeps(s: State, roster: seq<string>, budget: nat)
    requires AllSafe(s)
    ensures AllSafe(Run(s, Take(PlanAdopt(s, roster), budget)))
    decreases |roster|
  {
    if roster != [] && Take(PlanAdopt(s, roster), budget) != [] {
      var x := roster[0];
      if HasStatus(s, x, Approved) || x in s.tombs {
        AdoptKeeps(s, roster[1..], budget);
      } else {
        var s1 := Apply(s, SetStatus(x, Approved));
        forall m | m != ""
          ensures Kept(s1, m)
        {
          assert Kept(s, m);
        }
        AdoptKeeps(s1, roster[1..], budget - 1);
        assert Take(PlanAdopt(s, roster), budget)[1..] == Take(PlanAdopt(s1, roster[1..]), budget - 1);
      }
    }
  }

  /** Grants and publishes leave every member's invariant alone. */
  lemma GrantsKeep(s: State, es: seq<Effect>)
    requires AllSafe(s) && forall e <- es :: e.Grant? || e.Publish?
    ensures AllSafe(Run(s, es))
  {
    var t := Run(s, es);
    SeenStays(s, es);
    forall m | m != ""
      ensures Kept(t, m)
    {
      assert Kept(s, m);
      RunViewIsRun(s, es, m);
      QuietRun(ViewOf(s, m), es, m);
      SameOp(s, t, m);
    }
  }

  lemma BootstrapKeeps(s: State, roster: seq<string>, budget: nat)
    requires AllSafe(s)
    ensures AllSafe(Run(s, Take(PlanBootstrap(s, roster), budget)))
  {
    var adopt := PlanAdopt(s, roster);
    var members := ApprovedAttendees(Run(s, adopt));
    var tail := RegrantAll(members) + [Publish];
    var plan := PlanBootstrap(s, roster);
    assert plan == adopt + tail;
    AdoptKeeps(s, roster, budget);
    if budget > |adopt| {
      var es := Take(plan, budget);
      assert es == adopt + es[|adopt|..];
      RunConcat(s, adopt, es[|adopt|..]);
      RegrantsQuiet(members, "");
      assert forall e <- es[|adopt|..] :: e in tail;
      GrantsKeep(Run(s, adopt), es[|adopt|..]);
    } else {
      assert Take(plan, budget) == Take(adopt, budget);
    }
  }

  /** Purging members who are no more than pending keeps every member's invariant: a
      completed command leaves nobody pending. */
  lemma {:induction false} EvictKeeps(s: State, es: seq<Effect>)
    requires AllSafe(s)
    requires forall e <- es :: e.Purge? && (e.member in s.status ==> s.status[e.member] == Pending)
    ensures AllSafe(Run(s, es))
    decreases |es|
  {
    if es != [] {
      assert es[0] in es;
      var s1 := Apply(s, es[0]);
      forall m | m != ""
        ensures Kept(s1, m)
      {
        assert Kept(s, m);
      }
      assert forall e <- es[1..] :: e in es;
      EvictKeeps(s1, es[1..]);
    }
  }

  lemma SweepKeeps(s: State, step: Step)
    requires AllSafe(s) && (step.Reissue? || step.Evict?)
    ensures AllSafe(Exec(s, step))
  {
    var es := Take(Plan(s, step), step.budget);
    assert forall e <- es :: e in Plan(s, step);
    if step.Reissue? {
      GrantAllGrants(ApprovedAttendees(s));
      GrantsKeep(s, es);
    } else {
      EvictionsArePending(s, step.idle);
      EvictKeeps(s, es);
    }
  }

  /** Every step, however far it gets, keeps every member's invariant, except exactly
      three: a reprocess that completes over a standing revocation of a member still
      approved; a revocation set stopped between a tombstone and the demotion; and the
      command such a member waits for coming back expired. */
  lemma StepKeepsAllSafeIff(s: State, step: Step, reg: Registry)
    requires ValidStep(step) && Registered(step, reg) && OrderInv(s, reg) && AllSafe(s)
    ensures AllSafe(Exec(s, step)) <==> !TakesOver(s, step) && !CutsShort(s, step) && !Lapses(s, step)
  {
    match step
    case Seed(pubkeys, budget) => SeedKeepsIff(s, pubkeys, budget);
    case Bootstrap(roster, budget) => BootstrapKeeps(s, roster, budget);
    case Reissue(_, _) => SweepKeeps(s, step);
    case Evict(_, _) => SweepKeeps(s, step);
    case Deliver(cmd, env, budget) => DeliveryKeepsIff(s, cmd, env, budget, reg);
  }

  // ---------------------------------------------------------------- runs

  ghost predicate Disciplined(s: State, steps: seq<Step>)
    decreases |steps|
  {
    && (forall step <- steps :: ValidStep(step))
    && (steps != [] ==>
          Disciplined(s, steps[..|steps| - 1]) && Orderly(RunAll(s, steps[..|steps| - 1]), steps[|steps| - 1]))
  }

  /** A member whose revocation stands, and on whom nothing is in progress, is not approved;
      and the newest command, once complete, has left the status it says: revoked after a
      revoke, approved after an approve unless a later grant lists the member as revoked. */
  ghost predicate Upheld(s: State, m: string) {
    && (m in s.tombs && !InProgress(s, m) ==> ShutOut(s, m))
    && (m in s.ops && s.ops[m].complete && s.ops[m].kind == Revoke ==> HasStatus(s, m, Revoked) && m in s.tombs)
    && (m in s.ops && s.ops[m].complete && s.ops[m].kind == Approve && IsHex64(m) && m !in s.tombs ==> HasStatus(s, m, Approved))
  }

  /** So it is for every member in every reachable state. */
  lemma {:induction false} ReachableStatesAreSafe(s: State, steps: seq<Step>, reg: Registry)
    requires AllSafe(s) && OrderInv(s, reg) && Disciplined(s, steps)
    requires forall step <- steps :: Registered(step, reg)
    ensures AllSafe(RunAll(s, steps))
    ensures forall m | m != "" :: Upheld(RunAll(s, steps), m)
    decreases |steps|
  {
    if steps != [] {
      var init := steps[..|steps| - 1];
      ReachableStatesAreSafe(s, init, reg);
      LatestCommandWins(s, init, reg);
      StepKeepsAllSafeIff(RunAll(s, init), steps[|steps| - 1], reg);
    }
    var t := RunAll(s, steps);
    forall m | m != ""
      ensures Upheld(t, m)
    {
      assert Kept(t, m);
    }
  }

  /** And that is the least the steps must respect: from a safe state every state on the way
      is safe if and only if every step is orderly. */
  lemma {:induction false} SafeThroughoutIff(s: State, steps: seq<Step>, reg: Registry)
    requires AllSafe(s) && OrderInv(s, reg)
    requires forall step <- steps :: ValidStep(step) && Registered(step, reg)
    ensures (forall n | 0 <= n <= |steps| :: AllSafe(RunAll(s, steps[..n]))) <==> Disciplined(s, steps)
    decreases |steps|
  {
    hide Exec, AllSafe, OrderInv, TakesOver, CutsShort, Lapses;
    if steps != [] {
      var init, last := steps[..|steps| - 1], steps[|steps| - 1];
      SafeThroughoutIff(s, init, reg);
      LatestCommandWins(s, init, reg);
      assert forall n | 0 <= n < |steps| :: steps[..n] == init[..n];
      assert init[..|init|] == init && steps[..|steps|] == steps;
      if AllSafe(RunAll(s, init)) { StepKeepsAllSafeIff(RunAll(s, init), last, reg); }
    } else {
      assert steps[..0] == [];
    }
  }

  lemma FreshIsSafe(eck: seq<Version>)
    ensures AllSafe(Installed(eck))
  {
  }

  /** From the moment an event is installed, with nobody enrolled. */
  lemma EveryOrderlyRunIsSafe(eck: seq<Version>, steps: seq<Step>, reg: Registry)
    requires Disciplined(Installed(eck), steps) && forall step <- steps :: Registered(step, reg)
    ensures forall m | m != "" :: Upheld(RunAll(Installed(eck), steps), m)
  {
    FreshIsSafe(eck);
    InstalledIsOrdered(eck, reg);
    ReachableStatesAreSafe(Installed(eck), steps, reg);
  }
}
