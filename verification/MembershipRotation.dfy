/** An organizer revoke, through any number of crashes and retries and with no other
    rotation begun meanwhile, adds one key version, which becomes the current one, and
    sends it to every remaining member and never to the removed one. */
module MembershipRotation {
  import opened Wrappers
  import opened Ordering
  import opened Text
  import opened EckIdentity
  import opened Membership
  import opened MembershipOrder
  import opened MembershipSafety

  /** An attempt at the revoke: the command is delivered unexpired. */
  ghost predicate Attempt(step: Step, m: string, at: int, r: string) {
    step.Deliver? && step.cmd == Admin(m, at, r, Revoke) && !step.env.expired
  }

  predicate RotationRecorded(s: State, x: string, rumor: string) {
    x in s.ops && s.ops[x].rumor == rumor && s.ops[x].rotation.Some?
  }

  /** What may run while the revoke of `m` is unfinished: no other rotation, no accepted
      command on `m`, and no handover re-grant or hierarchy re-issue while `m` is still
      listed as approved. */
  ghost predicate Meanwhile(s: State, step: Step, m: string, r: string)
    requires ValidStep(step)
  {
    && (step.Deliver? ==> step.cmd.rumor != r)
    && (Plan(s, step) == [] ||
        match step
        case Seed(_, _) => true
        case Bootstrap(_, _) => !(m in s.tombs && HasStatus(s, m, Approved))
        case Reissue(_, _) => !(m in s.tombs && HasStatus(s, m, Approved))
        case Evict(_, _) => true
        case Deliver(cmd, _, _) =>
          match cmd
          case Join(_, _, _) => true
          case Admin(x, _, _, kind) => x != m && kind != Revoke
          case Withdrawal(x, _, rumor, _) => x != m && !HasStatus(s, x, Approved) && !RotationRecorded(s, x, rumor))
  }

  ghost predicate Uninterrupted(s: State, steps: seq<Step>, m: string, at: int, r: string)
    decreases |steps|
  {
    && (forall step <- steps :: ValidStep(step))
    && (steps != [] ==>
          var init, last := steps[..|steps| - 1], steps[|steps| - 1];
          && Uninterrupted(s, init, m, at, r)
          && (Attempt(last, m, at, r) || Meanwhile(RunAll(s, init), last, m, r)))
  }

  /** Attempts alone, in any number and however far each gets, are uninterrupted. */
  lemma {:induction false} RetriesAreUninterrupted(s: State, steps: seq<Step>, m: string, at: int, r: string)
    requires forall step <- steps :: Attempt(step, m, at, r)
    ensures Uninterrupted(s, steps, m, at, r)
    decreases |steps|
  {
    if steps != [] {
      assert forall step <- steps :: ValidStep(step);
      RetriesAreUninterrupted(s, steps[..|steps| - 1], m, at, r);
    }
  }

  // ---------------------------------------------------------------- the phases of the revoke

  ghost predicate NotStarted(s: State, held: seq<Version>, m: string, at: int, r: string) {
    && r !in s.seen && s.eck == held
    && !Skips(s, m, at, r) && (m in s.ops ==> s.ops[m].rumor != r)
  }

  ghost predicate Recorded(s: State, held: seq<Version>, m: string, rot: Rotation) {
    && rot.newId == MaxId(held) + 1 && rot.prevId == MaxId(held)
    && m in s.tombs
    && (s.eck == held || s.eck == held + [Version(rot.newId, rot.newKey)])
  }

  ghost predicate Underway(s: State, held: seq<Version>, m: string, at: int, r: string) {
    && m in s.ops && s.ops[m].rumor == r && s.ops[m].createdAt == at && !s.ops[m].complete
    && match s.ops[m].rotation
       case None => s.eck == held
       case Some(rot) => Recorded(s, held, m, rot)
  }

  /** Underway, with the new version installed. */
  ghost predicate Minted(s: State, held: seq<Version>, m: string, at: int, r: string) {
    && Underway(s, held, m, at, r)
    && s.ops[m].rotation.Some?
    && s.eck == held + [Version(s.ops[m].rotation.value.newId, s.ops[m].rotation.value.newKey)]
  }

  /** Exactly one version was added to `held`, under the maximum id plus one. */
  ghost predicate Rotated(eck: seq<Version>, held: seq<Version>, key: string) {
    eck == held + [Version(MaxId(held) + 1, key)]
  }

  ghost predicate Done(s: State, held: seq<Version>, m: string, r: string) {
    && r in s.seen && ShutOut(s, m)
    && m in s.ops && s.ops[m].rumor == r && s.ops[m].complete
    && exists key :: Rotated(s.eck, held, key)
  }

  /** Since position `from`: `m` was sent no key but those held before the revoke, and
      their entry was deleted under the version current before it. */
  ghost predicate Withheld(log: seq<Entry>, from: nat, held: seq<Version>, m: string) {
    forall i :: from <= i < |log| ==>
      && (log[i].Granted? && log[i].member == m ==> log[i].keys == held)
      && (log[i].Deleted? && log[i].member == m ==> log[i].eckId == MaxId(held))
  }

  // ---------------------------------------------------------------- bystanders

  ghost predicate Mintless(e: Effect, m: string) {
    && !e.AddEck? && !e.SetRotation?
    && ((e.Begin? || e.Complete? || e.Delete?) ==> e.member != m)
    && e != Untomb(m)
  }

  lemma {:induction false} RegrantsMintless(members: seq<string>, m: string)
    ensures forall e <- RegrantAll(members) :: Mintless(e, m)
  {
    if members != [] { RegrantsMintless(members[1..], m); }
  }

  lemma {:induction false} SeedMintless(s: State, pubkeys: seq<string>, m: string)
    ensures forall e <- PlanSeed(s, pubkeys) :: Mintless(e, m)
    decreases |pubkeys|
  {
    if pubkeys != [] {
      var x := pubkeys[0];
      var es := [Tomb(x)] + (if HasStatus(s, x, Approved) then [SetStatus(x, Revoked)] else []);
      SeedMintless(Run(s, es), pubkeys[1..], m);
    }
  }

  lemma {:induction false} AdoptMintless(s: State, roster: seq<string>, m: string)
    ensures forall e <- PlanAdopt(s, roster) :: Mintless(e, m)
    ensures m in s.tombs ==> AllHarmless(PlanAdopt(s, roster), m)
    decreases |roster|
  {
    if roster != [] {
      var x := roster[0];
      if HasStatus(s, x, Approved) || x in s.tombs {
        AdoptMintless(s, roster[1..], m);
      } else if !AtCap(s) {
        AdoptMintless(Apply(s, SetStatus(x, Approved)), roster[1..], m);
      }
    }
  }

  lemma ApproveRowOfOther(s: State, x: string, r: string, env: Env, m: string)
    requires x != m && x in s.status
    ensures forall e <- PlanApproveRow(s, x, r, env) :: Mintless(e, m) && Harmless(e, m)
  {
  }

  lemma ApproveOfOther(s: State, x: string, r: string, env: Env, m: string)
    requires x != m
    ensures forall e <- PlanApprove(s, x, r, env) :: Mintless(e, m) && Harmless(e, m)
  {
    if x in s.status {
      ApproveRowOfOther(s, x, r, env, m);
    } else if IsHex64(x) && !AtCap(s) {
      ApproveRowOfOther(Apply(s, SetStatus(x, Pending)), x, r, env, m);
    }
  }

  lemma AdminOfOther(s: State, x: string, at: int, r: string, kind: Kind, env: Env, m: string)
    requires x != m && (kind == Approve || kind == Reprocess)
    ensures forall e <- PlanAdmin(s, x, at, r, kind, env) :: Mintless(e, m) && Harmless(e, m)
  {
    var begin := Begin(x, at, r, kind);
    var s1 := Apply(s, begin);
    if !env.expired && !Skips(s, x, at, r) && kind == Approve {
      ApproveOfOther(s1, x, r, env, m);
      assert PlanAdmin(s, x, at, r, kind, env) == [begin] + PlanApprove(s1, x, r, env);
    }
  }

  lemma JoinMintless(s: State, x: string, at: int, r: string, env: Env, m: string)
    ensures forall e <- PlanJoin(s, x, at, r, env) :: Mintless(e, m)
    ensures m in s.tombs ==> AllHarmless(PlanJoin(s, x, at, r, env), m)
  {
    forall s1: State, existed, wasRevoked, full
      ensures forall e <- PlanDecision(s1, x, existed, wasRevoked, full, env) :: Mintless(e, m)
      ensures x != m ==> AllHarmless(PlanDecision(s1, x, existed, wasRevoked, full, env), m)
    {
    }
  }

  /** A withdrawal that does not rotate touches only its own member. */
  lemma WithdrawOfOther(s: State, x: string, at: int, r: string, deleteData: bool, env: Env, m: string)
    requires x != m && !HasStatus(s, x, Approved) && !RotationRecorded(s, x, r)
    ensures forall e <- PlanWithdraw(s, x, at, r, deleteData, env) :: Mintless(e, m) && Harmless(e, m)
  {
    var s1 := Apply(s, Begin(x, at, r, Withdraw(deleteData)));
    if x in s1.status {
      assert forall e <- PlanLeave(s1, x, r, env.freshKey) :: e == Purge(x);
      assert forall e <- PlanDeparture(s1, x, r, deleteData, env.freshKey) :: e == Purge(x) || e == Complete(x, r);
    }
  }

  lemma CommandMeanwhile(s: State, cmd: Command, env: Env, budget: nat, m: string, r: string)
    requires ValidStep(Deliver(cmd, env, budget)) && Meanwhile(s, Deliver(cmd, env, budget), m, r)
    requires Plan(s, Deliver(cmd, env, budget)) != []
    ensures forall e <- PlanCommand(s, cmd, env) :: Mintless(e, m)
    ensures m in s.tombs ==> AllHarmless(PlanCommand(s, cmd, env), m)
  {
    match cmd
    case Admin(x, at, rumor, kind) => AdminOfOther(s, x, at, rumor, kind, env, m);
    case Withdrawal(x, at, rumor, deleteData) => WithdrawOfOther(s, x, at, rumor, deleteData, env, m);
    case Join(x, at, rumor) => JoinMintless(s, x, at, rumor, env, m);
  }

  lemma MeanwhilePlan(s: State, step: Step, m: string, r: string)
    requires ValidStep(step) && Meanwhile(s, step, m, r)
    ensures forall e <- Plan(s, step) :: Mintless(e, m)
    ensures m in s.tombs ==> AllHarmless(Plan(s, step), m)
  {
    if Plan(s, step) != [] {
      match step
      case Seed(pubkeys, _) =>
        SeedMintless(s, pubkeys, m);
        SeedHarmless(s, pubkeys, m);
      case Bootstrap(roster, _) =>
        AdoptMintless(s, roster, m);
        var adopt := PlanAdopt(s, roster);
        var members := ApprovedAttendees(Run(s, adopt));
        RegrantsMintless(members, m);
        if m in s.tombs {
          HarmlessRun(s, adopt, m);
          RegrantsHarmless(members, m);
        }
      case Reissue(_, _) => GrantAllGrants(ApprovedAttendees(s));
      case Evict(idle, _) => EvictionsArePending(s, idle);
      case Deliver(cmd, env, budget) => CommandMeanwhile(s, cmd, env, budget, m, r);
    }
  }

  /** Effects that mint nothing and do not touch the command on `m` keep the key list and
      the command; if none of them favours `m`, the revocation stands too. */
  lemma {:induction false} MintlessRun(s: State, es: seq<Effect>, held: seq<Version>, from: nat, m: string)
    requires forall e <- es :: Mintless(e, m)
    requires AllHarmless(es, m) || s.eck == held
    requires from <= |s.log| && Withheld(s.log, from, held, m)
    ensures var t := Run(s, es);
            && t.eck == s.eck && t.seen == s.seen && s.tombs * {m} <= t.tombs
            && (m in t.ops <==> m in s.ops) && (m in s.ops ==> t.ops[m] == s.ops[m])
            && |s.log| <= |t.log| && Withheld(t.log, from, held, m)
            && (AllHarmless(es, m) && ShutOut(s, m) ==> ShutOut(t, m))
    decreases |es|
  {
    if es != [] {
      var s1 := Apply(s, es[0]);
      assert Mintless(es[0], m);
      assert AllHarmless(es, m) ==> Harmless(es[0], m);
      assert Withheld(s1.log, from, held, m);
      MintlessRun(s1, es[1..], held, from, m);
    }
  }

  // ---------------------------------------------------------------- one attempt

  function Head(s: State, m: string, r: string, key: string): seq<Effect> {
    [Tomb(m)] + PlanRotation(s, m, r, key)
  }

  lemma HeldIds(held: seq<Version>, key: string)
    requires held != [] && forall v <- held :: v.id > 0
    ensures HasId(held, MaxId(held)) && HasId(held + [Version(MaxId(held) + 1, key)], MaxId(held))
    ensures !HasId(held, MaxId(held) + 1) && HasId(held + [Version(MaxId(held) + 1, key)], MaxId(held) + 1)
  {
    MaxIdIsHeld(held);
    MaxIdBounds(held);
    var v :| v in held && v.id == MaxId(held);
    var more := held + [Version(MaxId(held) + 1, key)];
    assert v in more;
    assert Version(MaxId(held) + 1, key) in more;
  }

  /** Recording precedes installing, so however far the head gets the rotation can be
      resumed, and once it is through exactly one version has been added. */
  lemma HeadKeeps(s: State, held: seq<Version>, m: string, at: int, r: string, key: string, n: nat)
    requires Underway(s, held, m, at, r) && held != [] && forall v <- held :: v.id > 0
    requires n <= |Head(s, m, r, key)|
    ensures var t := Run(s, Head(s, m, r, key)[..n]);
            Underway(t, held, m, at, r) && t.log == s.log && t.seen == s.seen && t.status == s.status && t.rows == s.rows
    ensures Minted(Run(s, Head(s, m, r, key)), held, m, at, r)
  {
    var head := Head(s, m, r, key);
    var tomb := Tomb(m);
    RunOne(s, tomb);
    match s.ops[m].rotation {
      case Some(rot) =>
        HeldIds(held, rot.newKey);
        var add := AddEck(Version(rot.newId, rot.newKey));
        RunTwo(s, tomb, add);
        assert head == if HasId(s.eck, rot.newId) then [tomb] else [tomb, add];
      case None =>
        var newId := MaxId(held) + 1;
        var record := SetRotation(m, r, Rotation(newId, key, MaxId(held)));
        var add := AddEck(Version(newId, key));
        RunTwo(s, tomb, record);
        RunThree(s, tomb, record, add);
        assert head == [tomb, record, add];
        assert head[..2] == [tomb, record];
    }
    assert head[..1] == [tomb];
    assert head[..0] == [];
    assert head[..|head|] == head;
  }

  /** What follows the head, up to the completion. */
  ghost predicate Closing(e: Effect, held: seq<Version>, m: string) {
    || e == Delete(m, MaxId(held)) || e == SetStatus(m, Revoked)
    || (e.Grant? && e.member != m) || e.Publish?
  }

  lemma {:induction false} ClosingRun(s: State, es: seq<Effect>, held: seq<Version>, from: nat, m: string)
    requires forall e <- es :: Closing(e, held, m)
    requires from <= |s.log| && Withheld(s.log, from, held, m)
    ensures var t := Run(s, es);
            && t.eck == s.eck && t.seen == s.seen && t.tombs == s.tombs && t.ops == s.ops
            && s.log <= t.log && Withheld(t.log, from, held, m)
            && (SetStatus(m, Revoked) !in es ==> t.status == s.status && t.rows == s.rows)
    decreases |es|
  {
    if es != [] {
      assert Closing(es[0], held, m);
      ClosingRun(Apply(s, es[0]), es[1..], held, from, m);
    }
  }

  ghost predicate GrantedSince(log: seq<Entry>, from: nat, a: string, keys: seq<Version>) {
    exists i :: from <= i < |log| && log[i] == Granted(a, keys)
  }

  /** Everyone approved was sent the present key list, since position `from`. */
  ghost predicate AllRegranted(t: State, from: nat) {
    forall a | HasStatus(t, a, Approved) :: GrantedSince(t.log, from, a, t.eck)
  }

  lemma {:induction false} RegrantsReach(s: State, members: seq<string>, a: string)
    requires a in members
    ensures GrantedSince(Run(s, RegrantAll(members)).log, |s.log|, a, s.eck)
    decreases |members|
  {
    var first := [Grant(members[0]), Publish];
    var rest := RegrantAll(members[1..]);
    RunConcat(s, first, rest);
    RunTwo(s, Grant(members[0]), Publish);
    var s1 := Run(s, first);
    if a == members[0] {
      assert s1.log[|s.log|] == Granted(a, s.eck);
      LogGrows(s1, rest);
    } else {
      RegrantsReach(s1, members[1..], a);
    }
  }

  lemma {:induction false} LogGrows(s: State, es: seq<Effect>)
    ensures s.log <= Run(s, es).log
    decreases |es|
  {
    if es != [] { LogGrows(Apply(s, es[0]), es[1..]); }
  }

  lemma {:induction false} RegrantsClosing(members: seq<string>, held: seq<Version>, m: string)
    requires m !in members
    ensures forall e <- RegrantAll(members) :: Closing(e, held, m) && !e.SetStatus?
  {
    if members != [] { RegrantsClosing(members[1..], held, m); }
  }

  /** Everything after the head, completion excluded, read in the state the head left. */
  function Close(s: State, held: seq<Version>, m: string): seq<Effect> {
    var leave := [Delete(m, MaxId(held)), SetStatus(m, Revoked)];
    leave + RegrantAll(ApprovedAttendees(Run(s, leave))) + [Publish, Publish]
  }

  lemma CloseShape(s: State, held: seq<Version>, m: string)
    ensures forall e <- Close(s, held, m) :: Closing(e, held, m)
  {
    var leave := [Delete(m, MaxId(held)), SetStatus(m, Revoked)];
    RunTwo(s, leave[0], leave[1]);
    RegrantsClosing(ApprovedAttendees(Run(s, leave)), held, m);
  }

  /** Once closed, the member is out and everyone approved has been sent the key list. */
  lemma CloseEnds(s: State, held: seq<Version>, m: string)
    requires RowsListed(s)
    ensures var t := Run(s, Close(s, held, m)); HasStatus(t, m, Revoked) && AllRegranted(t, |s.log|)
  {
    var leave := [Delete(m, MaxId(held)), SetStatus(m, Revoked)];
    RunTwo(s, leave[0], leave[1]);
    var s1 := Apply(Apply(s, leave[0]), leave[1]);
    assert s1.log == s.log + [Deleted(m, MaxId(held))];
    var rest := RegrantAll(ApprovedAttendees(s1)) + [Publish, Publish];
    assert Close(s, held, m) == leave + rest;
    RunConcat(s, leave, rest);
    RegrantEnds(s1);
    Since(Run(s1, rest), |s.log|, |s1.log|);
  }

  lemma RegrantEnds(s: State)
    requires RowsListed(s)
    ensures var t := Run(s, RegrantAll(ApprovedAttendees(s)) + [Publish, Publish]);
            t.status == s.status && AllRegranted(t, |s.log|)
  {
    var members := ApprovedAttendees(s);
    var t := Run(s, RegrantAll(members));
    RunConcat(s, RegrantAll(members), [Publish, Publish]);
    RunTwo(t, Publish, Publish);
    RegrantsChangeLog(s, members);
    forall a | HasStatus(s, a, Approved)
      ensures GrantedSince(t.log, |s.log|, a, s.eck)
    {
      ApprovedListsAll(s, s.rows, a);
      RegrantsReach(s, members, a);
    }
  }

  lemma {:induction false} RegrantsChangeLog(s: State, members: seq<string>)
    ensures var t := Run(s, RegrantAll(members)); t == s.(log := t.log)
    decreases |members|
  {
    if members != [] {
      var first := [Grant(members[0]), Publish];
      RunConcat(s, first, RegrantAll(members[1..]));
      RunTwo(s, Grant(members[0]), Publish);
      RegrantsChangeLog(Run(s, first), members[1..]);
    }
  }

  ghost predicate RowsListed(s: State) {
    forall a <- s.status :: a in s.rows
  }

  lemma {:induction false} ApprovedListsAll(s: State, rows: seq<string>, a: string)
    requires HasStatus(s, a, Approved) && a in rows
    ensures a in ApprovedOf(s, rows)
  {
    if rows[0] != a { ApprovedListsAll(s, rows[1..], a); }
  }

  lemma {:induction false} WithoutKeepsOthers(rows: seq<string>, m: string, a: string)
    requires a in rows && a != m
    ensures a in Without(rows, m)
  {
    if rows[0] != a { WithoutKeepsOthers(rows[1..], m, a); }
  }

  lemma {:induction false} RunKeepsRows(s: State, es: seq<Effect>)
    requires RowsListed(s)
    ensures RowsListed(Run(s, es))
    decreases |es|
  {
    if es != [] {
      var s1 := Apply(s, es[0]);
      forall a <- s1.status
        ensures a in s1.rows
      {
        if es[0].Purge? { WithoutKeepsOthers(s.rows, es[0].member, a); }
      }
      RunKeepsRows(s1, es[1..]);
    }
  }

  /** An attempt from the moment its command is the one recorded. */
  lemma RestOfAttempt(s: State, held: seq<Version>, m: string, at: int, r: string, key: string)
    requires Underway(s, held, m, at, r) && held != [] && forall v <- held :: v.id > 0
    ensures var head := Head(s, m, r, key);
            PlanRevoke(s, m, r, true, key) == head + Close(Run(s, head), held, m)
  {
    hide Run, RegrantAll, ApprovedOf, HasId;
    var head := Head(s, m, r, key);
    var leave := [Delete(m, MaxId(held)), SetStatus(m, Revoked)];
    match s.ops[m].rotation {
      case Some(rot) => HeldIds(held, rot.newKey);
      case None =>
    }
    assert DeletionId(s, m) == MaxId(held);
    assert PlanRemoval(s, m, r, true, key) == head + leave;
    RunConcat(s, head, leave);
  }

  ghost predicate PhaseInv(s: State, held: seq<Version>, from: nat, m: string, at: int, r: string) {
    && from <= |s.log| && Withheld(s.log, from, held, m)
    && RowsListed(s)
    && (NotStarted(s, held, m, at, r) || (r !in s.seen && Underway(s, held, m, at, r)) || Done(s, held, m, r))
  }

  /** However far an attempt gets short of completing, the revoke is underway. */
  lemma PartialAttempt(s: State, held: seq<Version>, from: nat, m: string, at: int, r: string, key: string, n: nat)
    requires Underway(s, held, m, at, r) && held != [] && forall v <- held :: v.id > 0
    requires from <= |s.log| && Withheld(s.log, from, held, m)
    requires n <= |PlanRevoke(s, m, r, true, key)|
    ensures var t := Run(s, PlanRevoke(s, m, r, true, key)[..n]);
            && Underway(t, held, m, at, r) && t.seen == s.seen
            && from <= |t.log| && Withheld(t.log, from, held, m)
            && (n == |PlanRevoke(s, m, r, true, key)| ==> Minted(t, held, m, at, r))
  {
    var plan := PlanRevoke(s, m, r, true, key);
    var head := Head(s, m, r, key);
    var s1 := Run(s, head);
    var close := Close(s1, held, m);
    RestOfAttempt(s, held, m, at, r, key);
    if n <= |head| {
      assert plan[..n] == head[..n];
      HeadKeeps(s, held, m, at, r, key, n);
    } else {
      HeadKeeps(s, held, m, at, r, key, |head|);
      assert head[..|head|] == head;
      var part := close[..n - |head|];
      assert plan[..n] == head + part;
      RunConcat(s, head, part);
      CloseShape(s1, held, m);
      assert forall e <- part :: e in close;
      ClosingRun(s1, part, held, from, m);
    }
  }

  /** The state a whole attempt leaves, completion included. */
  lemma WholeAttempt(s: State, held: seq<Version>, from: nat, m: string, at: int, r: string, key: string)
    requires Underway(s, held, m, at, r) && held != [] && forall v <- held :: v.id > 0
    requires from <= |s.log| && Withheld(s.log, from, held, m) && RowsListed(s)
    ensures var t := Run(s, PlanRevoke(s, m, r, true, key) + [Complete(m, r)]);
            && Done(t.(seen := t.seen + {r}), held, m, r)
            && |s.log| <= |t.log| && Withheld(t.log, from, held, m)
            && AllRegranted(t, from)
  {
    var plan := PlanRevoke(s, m, r, true, key);
    var t := Run(s, plan);
    PartialAttempt(s, held, from, m, at, r, key, |plan|);
    assert plan[..|plan|] == plan;
    RevokeEndsClosed(s, held, from, m, at, r, key);
    LogGrows(s, plan);
    RunConcat(s, plan, [Complete(m, r)]);
    RunOne(t, Complete(m, r));
    var u := Apply(t, Complete(m, r));
    assert u.log == t.log + [Completed(m, r)];
    forall a | HasStatus(u, a, Approved)
      ensures GrantedSince(u.log, from, a, u.eck)
    {
      assert HasStatus(t, a, Approved) && GrantedSince(t.log, from, a, t.eck);
      var i :| from <= i < |t.log| && t.log[i] == Granted(a, t.eck);
      assert u.log[i] == Granted(a, u.eck);
    }
    assert Rotated(u.eck, held, t.ops[m].rotation.value.newKey);
  }

  lemma RevokeEndsClosed(s: State, held: seq<Version>, from: nat, m: string, at: int, r: string, key: string)
    requires Underway(s, held, m, at, r) && held != [] && forall v <- held :: v.id > 0
    requires from <= |s.log| && RowsListed(s)
    ensures var t := Run(s, PlanRevoke(s, m, r, true, key)); HasStatus(t, m, Revoked) && AllRegranted(t, from)
  {
    var head := Head(s, m, r, key);
    RestOfAttempt(s, held, m, at, r, key);
    HeadKeeps(s, held, m, at, r, key, |head|);
    assert head[..|head|] == head;
    var s1 := Run(s, head);
    RunConcat(s, head, Close(s1, held, m));
    RunKeepsRows(s, head);
    CloseEnds(s1, held, m);
    Since(Run(s1, Close(s1, held, m)), from, |s1.log|);
  }

  lemma Since(t: State, from: nat, later: nat)
    requires from <= later && AllRegranted(t, later)
    ensures AllRegranted(t, from)
  {
    forall a | HasStatus(t, a, Approved)
      ensures GrantedSince(t.log, from, a, t.eck)
    {
      var i :| later <= i < |t.log| && t.log[i] == Granted(a, t.eck);
    }
  }

  lemma AttemptKeeps(s: State, held: seq<Version>, from: nat, m: string, at: int, r: string, step: Step)
    requires m != "" && Attempt(step, m, at, r) && held != [] && forall v <- held :: v.id > 0
    requires PhaseInv(s, held, from, m, at, r)
    ensures PhaseInv(Exec(s, step), held, from, m, at, r)
    ensures r !in s.seen && r in Exec(s, step).seen ==> AllRegranted(Exec(s, step), from)
  {
    var plan := Plan(s, step);
    if r in s.seen {
      assert plan == [];
      assert Exec(s, step) == s;
    } else {
      var begin := Begin(m, at, r, Revoke);
      var s1 := Apply(s, begin);
      var revoke := PlanRevoke(s1, m, r, true, step.env.freshKey);
      assert Underway(s1, held, m, at, r);
      assert plan == [begin] + (revoke + [Complete(m, r)]);
      assert s1.log == s.log + [Began(m, at, r, Revoke)];
      assert Withheld(s1.log, from, held, m);
      RunOne(s, begin);
      if step.budget >= |plan| {
        RunConcat(s, [begin], revoke + [Complete(m, r)]);
        WholeAttempt(s1, held, from, m, at, r, step.env.freshKey);
        RunKeepsRows(s, plan);
      } else if step.budget == 0 {
        assert Take(plan, 0) == [];
        assert Exec(s, step) == s;
      } else {
        var n := step.budget - 1;
        assert plan[..step.budget] == [begin] + revoke[..n];
        RunConcat(s, [begin], revoke[..n]);
        PartialAttempt(s1, held, from, m, at, r, step.env.freshKey, n);
        RunKeepsRows(s, plan[..step.budget]);
      }
    }
  }

  lemma MeanwhileKeeps(s: State, held: seq<Version>, from: nat, m: string, at: int, r: string, step: Step)
    requires ValidStep(step) && Meanwhile(s, step, m, r)
    requires PhaseInv(s, held, from, m, at, r)
    ensures PhaseInv(Exec(s, step), held, from, m, at, r)
    ensures r in Exec(s, step).seen <==> r in s.seen
  {
    MeanwhilePlan(s, step, m, r);
    var es := Take(Plan(s, step), step.budget);
    assert forall e <- es :: e in Plan(s, step);
    assert m in s.tombs || s.eck == held;
    MintlessRun(s, es, held, from, m);
    RunKeepsRows(s, es);
    var t := Run(s, es);
    if m in s.ops {
      assert t.ops[m] == s.ops[m];
    }
    assert m in s.tombs ==> m in t.tombs by {
      if m in s.tombs { assert m in s.tombs * {m}; }
    }
  }

  lemma PhaseSaysWhatWasMinted(t: State, held: seq<Version>, from: nat, m: string, at: int, r: string, fp: Fingerprint)
    requires PhaseInv(t, held, from, m, at, r)
    ensures Withheld(t.log, from, held, m)
    ensures t.eck == held || exists key :: Rotated(t.eck, held, key)
    ensures r in t.seen ==>
              && ShutOut(t, m)
              && exists key :: Rotated(t.eck, held, key) && Canonical(t.eck, fp) == Some(Version(MaxId(held) + 1, key))
  {
    if Done(t, held, m, r) {
      var key :| Rotated(t.eck, held, key);
      MintIsCanonical(held, key, fp);
    } else if Underway(t, held, m, at, r) && t.eck != held {
      assert Rotated(t.eck, held, t.ops[m].rotation.value.newKey);
    }
  }

  lemma PhaseStarts(s: State, m: string, at: int, r: string)
    requires NotStarted(s, s.eck, m, at, r) && RowsListed(s)
    ensures PhaseInv(s, s.eck, |s.log|, m, at, r)
  {
  }

  /** Through any crashes, retries and bystanders, the revoke of `m` adds at most one
      version, the maximum id plus one; once its rumor is done exactly that one was added
      and it is current, the member is out, was sent no key but the old ones, and their
      entry was deleted under the old version. */
  lemma {:induction false} OneRotationPerRevoke(s: State, steps: seq<Step>, m: string, at: int, r: string, fp: Fingerprint)
    requires m != "" && s.eck != [] && forall v <- s.eck :: v.id > 0
    requires NotStarted(s, s.eck, m, at, r) && RowsListed(s)
    requires Uninterrupted(s, steps, m, at, r)
    ensures PhaseInv(RunAll(s, steps), s.eck, |s.log|, m, at, r)
    ensures var t := RunAll(s, steps);
            && (t.eck == s.eck || exists key :: Rotated(t.eck, s.eck, key))
            && (r in t.seen ==>
                  && ShutOut(t, m)
                  && exists key :: Rotated(t.eck, s.eck, key)
                                   && Canonical(t.eck, fp) == Some(Version(MaxId(s.eck) + 1, key)))
            && Withheld(t.log, |s.log|, s.eck, m)
    decreases |steps|
  {
    hide PhaseInv, Withheld, Exec, Canonical;
    var t := RunAll(s, steps);
    if steps == [] {
      PhaseStarts(s, m, at, r);
    } else {
      var init, last := steps[..|steps| - 1], steps[|steps| - 1];
      OneRotationPerRevoke(s, init, m, at, r, fp);
      if Attempt(last, m, at, r) {
        AttemptKeeps(RunAll(s, init), s.eck, |s.log|, m, at, r, last);
      } else {
        MeanwhileKeeps(RunAll(s, init), s.eck, |s.log|, m, at, r, last);
      }
    }
    PhaseSaysWhatWasMinted(t, s.eck, |s.log|, m, at, r, fp);
  }

  /** The attempt that completes the revoke has sent the whole key list, new version
      included, to everyone approved. */
  lemma EveryoneElseIsRegranted(s: State, steps: seq<Step>, m: string, at: int, r: string, fp: Fingerprint, last: Step)
    requires m != "" && s.eck != [] && forall v <- s.eck :: v.id > 0
    requires NotStarted(s, s.eck, m, at, r) && RowsListed(s)
    requires Uninterrupted(s, steps, m, at, r) && Attempt(last, m, at, r)
    requires var t := RunAll(s, steps); r !in t.seen && r in Exec(t, last).seen
    ensures AllRegranted(Exec(RunAll(s, steps), last), |s.log|)
    ensures exists key :: Rotated(Exec(RunAll(s, steps), last).eck, s.eck, key)
  {
    OneRotationPerRevoke(s, steps, m, at, r, fp);
    AttemptKeeps(RunAll(s, steps), s.eck, |s.log|, m, at, r, last);
  }

  // ---------------------------------------------------------------- from the moment of an install

  /** Every key version held or about to be installed has a positive id. */
  ghost predicate PositiveKeys(s: State) {
    && (forall v <- s.eck :: v.id > 0)
    && (forall m <- s.ops :: s.ops[m].rotation.Some? ==> s.ops[m].rotation.value.newId > 0)
  }

  ghost predicate PositiveKey(e: Effect) {
    (e.AddEck? ==> e.version.id > 0) && (e.SetRotation? ==> e.rotation.newId > 0)
  }

  lemma RevokePositive(s: State, x: string, r: string, byOrganizer: bool, key: string)
    requires PositiveKeys(s)
    ensures forall e <- PlanRevoke(s, x, r, byOrganizer, key) :: PositiveKey(e)
  {
    MaxIdBounds(s.eck);
    RegrantsQuiet(ApprovedAttendees(Run(s, PlanRemoval(s, x, r, byOrganizer, key))), x);
  }

  lemma ApprovePositive(s: State, x: string, r: string, env: Env)
    ensures forall e <- PlanApprove(s, x, r, env) :: PositiveKey(e)
  {
    if x in s.status {
      assert forall e <- PlanApproveRow(s, x, r, env) :: PositiveKey(e);
    } else if IsHex64(x) && !AtCap(s) {
      assert forall e <- PlanApproveRow(Apply(s, SetStatus(x, Pending)), x, r, env) :: PositiveKey(e);
    }
  }

  lemma CommandPositive(s: State, cmd: Command, env: Env)
    requires (cmd.Admin? ==> !cmd.kind.Withdraw?) && PositiveKeys(s)
    ensures forall e <- PlanCommand(s, cmd, env) :: PositiveKey(e)
  {
    hide PlanRevoke, PlanApprove, PlanJoin, Skips;
    match cmd
    case Admin(x, at, r, kind) =>
      var s1 := Apply(s, Begin(x, at, r, kind));
      RevokePositive(s1, x, r, true, env.freshKey);
      ApprovePositive(s1, x, r, env);
    case Withdrawal(x, at, r, deleteData) =>
      RevokePositive(Apply(s, Begin(x, at, r, Withdraw(deleteData))), x, r, false, env.freshKey);
    case Join(x, at, r) => JoinMintless(s, x, at, r, env, x);
  }

  lemma PlanPositive(s: State, step: Step)
    requires ValidStep(step) && PositiveKeys(s)
    ensures forall e <- Plan(s, step) :: PositiveKey(e)
  {
    match step
    case Seed(pubkeys, _) => SeedMintless(s, pubkeys, "");
    case Bootstrap(roster, _) =>
      AdoptMintless(s, roster, "");
      RegrantsMintless(ApprovedAttendees(Run(s, PlanAdopt(s, roster))), "");
    case Reissue(_, _) => GrantAllGrants(ApprovedAttendees(s));
    case Evict(idle, _) => EvictionsArePending(s, idle);
    case Deliver(cmd, env, _) => if cmd.rumor !in s.seen { CommandPositive(s, cmd, env); }
  }

  lemma {:induction false} RunPositive(s: State, es: seq<Effect>)
    requires PositiveKeys(s) && forall e <- es :: PositiveKey(e)
    ensures PositiveKeys(Run(s, es)) && s.eck <= Run(s, es).eck
    decreases |es|
  {
    if es != [] {
      assert PositiveKey(es[0]);
      RunPositive(Apply(s, es[0]), es[1..]);
    }
  }

  /** Every run from an install keeps a row for every status, and positive ids. */
  lemma {:induction false} EveryRunIsWellKept(eck: seq<Version>, steps: seq<Step>)
    requires (forall step <- steps :: ValidStep(step)) && forall v <- eck :: v.id > 0
    ensures var t := RunAll(Installed(eck), steps); RowsListed(t) && PositiveKeys(t) && eck <= t.eck
  {
    if steps != [] {
      var init, last := steps[..|steps| - 1], steps[|steps| - 1];
      EveryRunIsWellKept(eck, init);
      var s := RunAll(Installed(eck), init);
      var es := Take(Plan(s, last), last.budget);
      PlanPositive(s, last);
      assert forall e <- es :: e in Plan(s, last);
      RunPositive(s, es);
      RunKeepsRows(s, es);
    }
  }

  /** So, from an install with keys: in whatever state a revoke not yet recorded is first
      delivered, it mints exactly one version, as above. */
  lemma EveryRevokeRotatesOnce(eck: seq<Version>, before: seq<Step>, steps: seq<Step>, m: string, at: int, r: string, fp: Fingerprint)
    requires eck != [] && (forall v <- eck :: v.id > 0) && forall step <- before :: ValidStep(step)
    requires var s := RunAll(Installed(eck), before);
             m != "" && NotStarted(s, s.eck, m, at, r) && Uninterrupted(s, steps, m, at, r)
    ensures var s := RunAll(Installed(eck), before);
            var t := RunAll(s, steps);
            && (t.eck == s.eck || exists key :: Rotated(t.eck, s.eck, key))
            && (r in t.seen ==>
                  && ShutOut(t, m)
                  && exists key :: Rotated(t.eck, s.eck, key)
                                   && Canonical(t.eck, fp) == Some(Version(MaxId(s.eck) + 1, key)))
            && Withheld(t.log, |s.log|, s.eck, m)
  {
    EveryRunIsWellKept(eck, before);
    OneRotationPerRevoke(RunAll(Installed(eck), before), steps, m, at, r, fp);
  }
}
