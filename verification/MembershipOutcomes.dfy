/** What each membership command, performed to its end, does to its member. */
module MembershipOutcomes {
  import opened Wrappers
  import opened Ordering
  import opened Text
  import opened EckIdentity
  import opened Membership
  import opened MembershipSafety
  import opened MembershipRotation

  lemma ViewAfter(s: State, es: seq<Effect>, m: string)
    ensures var v := RunView(ViewOf(s, m), es, m);
            var t := Run(s, es);
            && (m in t.tombs <==> v.tomb)
            && (m in t.status <==> v.status.Some?) && (m in t.status ==> t.status[m] == v.status.value)
            && (m in t.ops <==> v.op.Some?) && (m in t.ops ==> t.ops[m] == v.op.value)
  {
    RunViewIsRun(s, es, m);
  }

  /** The entry is logged since position `from`. */
  ghost predicate LoggedSince(log: seq<Entry>, from: nat, e: Entry) {
    exists i :: from <= i < |log| && log[i] == e
  }

  lemma LoggedOnTheWay(s: State, before: seq<Effect>, e: Effect, after: seq<Effect>)
    ensures var t := Run(s, before + ([e] + after));
            && (e.Grant? ==> LoggedSince(t.log, |s.log|, Granted(e.member, Run(s, before).eck)))
            && (e.Delete? ==> LoggedSince(t.log, |s.log|, Deleted(e.member, e.eckId)))
  {
    var s1 := Run(s, before);
    RunConcat(s, before, [e] + after);
    RunConcat(s1, [e], after);
    RunOne(s1, e);
    LogGrows(s, before);
    LogGrows(Apply(s1, e), after);
    assert Run(s, before + ([e] + after)).log[..|s1.log|] == s1.log;
    if e.Grant? { assert Apply(s1, e).log[|s1.log|] == Granted(e.member, s1.eck); }
    if e.Delete? { assert Apply(s1, e).log[|s1.log|] == Deleted(e.member, e.eckId); }
  }

  // ---------------------------------------------------------------- the ordering gate

  /** A command not seen before starts if and only if nothing is recorded for its member,
      or it is the recorded command itself and that is unfinished, or it is another one and
      newer: later, or of the same time with the smaller id. */
  lemma GateStartsIff(s: State, step: Step)
    requires ValidStep(step) && step.Deliver? && !step.cmd.Join? && step.cmd.rumor !in s.seen
    requires step.cmd.Admin? ==> !step.env.expired
    ensures var plan, m, at, r := Plan(s, step), step.cmd.member, step.cmd.createdAt, step.cmd.rumor;
            plan != [] && plan[0].Begin? <==>
              || m !in s.ops
              || (s.ops[m].rumor == r && !s.ops[m].complete)
              || (s.ops[m].rumor != r && (at > s.ops[m].createdAt || (at == s.ops[m].createdAt && StrLess(r, s.ops[m].rumor))))
  {
    var m := step.cmd.member;
    if m in s.ops {
      SupersedesMeans(Event(step.cmd.rumor, Some(step.cmd.createdAt)), Event(s.ops[m].rumor, Some(s.ops[m].createdAt)));
    }
  }

  /** A command that does not start, one seen before and an expired organizer command all
      do nothing. */
  lemma NothingElseRuns(s: State, step: Step)
    requires ValidStep(step) && step.Deliver? && !step.cmd.Join?
    ensures var plan := Plan(s, step);
            && (plan == [] || plan[0].Begin?)
            && (step.cmd.rumor in s.seen || (step.cmd.Admin? && step.env.expired) ==> plan == [])
  {
  }

  // ---------------------------------------------------------------- leaving

  /** The row a withdrawal leaves: gone when its data is to be deleted or it was only
      pending, otherwise revoked. */
  function LeftBehind(s: State, m: string, deleteData: bool): Option<Status>
    requires m in s.status
  {
    if deleteData || (s.status[m] == Pending && RotationOf(s, m).None?) then None else Some(Revoked)
  }

  /** A withdrawal that runs to its end erases or revokes the row, completes, and neither
      records nor lifts an organizer revocation. */
  lemma WithdrawalDoesWhatItSays(s: State, m: string, at: int, r: string, deleteData: bool, env: Env)
    requires !Skips(s, m, at, r) && m in s.status
    ensures var s1 := Apply(s, Begin(m, at, r, Withdraw(deleteData)));
            var t := Run(s, PlanWithdraw(s, m, at, r, deleteData, env));
            && ViewOf(t, m).status == LeftBehind(s1, m, deleteData)
            && (m in t.tombs <==> m in s.tombs)
            && m in t.ops && t.ops[m].rumor == r && t.ops[m].complete
  {
    var begin := Begin(m, at, r, Withdraw(deleteData));
    var s1 := Apply(s, begin);
    var v := ViewOf(s1, m);
    BeginView(s, m, at, r, Withdraw(deleteData));
    DepartureEnds(s1, m, r, deleteData, env.freshKey, v);
    var leave := PlanLeave(s1, m, r, env.freshKey) + (if deleteData then [Purge(m)] else []);
    CompletionLast(v, leave, m, r);
    ConcatStart(s, begin, leave + [Complete(m, r)], m);
    assert PlanWithdraw(s, m, at, r, deleteData, env) == [begin] + (leave + [Complete(m, r)]);
    ViewAfter(s, PlanWithdraw(s, m, at, r, deleteData, env), m);
  }

  lemma DepartureEnds(s: State, m: string, r: string, deleteData: bool, key: string, v: View)
    requires m in s.status && v == ViewOf(s, m) && Unfinished(v) && v.op.value.rumor == r
    ensures var leave := PlanLeave(s, m, r, key) + (if deleteData then [Purge(m)] else []);
            var w := RunView(v, leave, m);
            && Unfinished(w) && w.op.value.rumor == r && w.tomb == v.tomb && w.status == LeftBehind(s, m, deleteData)
            && forall e <- leave :: !e.Complete?
  {
    var leave := PlanLeave(s, m, r, key);
    RevokeEnds(s, m, r, false, key, v);
    RunViewOne(v, Purge(m), m);
    var w := RunView(v, leave, m);
    RunViewOne(w, Purge(m), m);
    RunViewConcat(v, leave, [Purge(m)], m);
    assert leave + [] == leave;
  }

  /** The recorded rotation of this very command, if any. */
  function RecordedRotation(s: State, m: string, r: string): Option<Rotation> {
    if m in s.ops && s.ops[m].rumor == r then s.ops[m].rotation else None
  }

  /** The keys held once a member has been removed: one more version, the recorded one or
      a fresh one at the maximum id plus one. */
  function KeysAfterRemoval(s: State, m: string, r: string, key: string): seq<Version> {
    match RecordedRotation(s, m, r)
    case Some(rot) => if exists v <- s.eck :: v.id == rot.newId then s.eck else s.eck + [Version(rot.newId, rot.newKey)]
    case None => s.eck + [Version(MaxId(s.eck) + 1, key)]
  }

  /** The departure of an approved member, or one whose rotation was already recorded, adds
      a version and sends the whole list to everyone still approved; any other departure
      touches no key and sends none. */
  lemma DepartureRotates(s: State, m: string, at: int, r: string, deleteData: bool, env: Env)
    requires !Skips(s, m, at, r) && RowsListed(s)
    ensures var t := Run(s, PlanWithdraw(s, m, at, r, deleteData, env));
            if m in s.status && (s.status[m] == Approved || RecordedRotation(s, m, r).Some?)
            then t.eck == KeysAfterRemoval(s, m, r, env.freshKey) && AllRegranted(t, |s.log|)
            else t.eck == s.eck && t.log == s.log + [Began(m, at, r, Withdraw(deleteData)), Completed(m, r)]
  {
    hide Run, KeysAfterRemoval, AllRegranted, PlanRevoke;
    var begin := Begin(m, at, r, Withdraw(deleteData));
    var s1 := Apply(s, begin);
    RunOne(s, begin);
    var rest := PlanWithdraw(s, m, at, r, deleteData, env)[1..];
    assert PlanWithdraw(s, m, at, r, deleteData, env) == [begin] + rest;
    RunConcat(s, [begin], rest);
    if m in s.status && (s.status[m] == Approved || RecordedRotation(s, m, r).Some?) {
      SameRemovalKeys(s, s1, m, r, env.freshKey);
      RotatingDeparture(s1, m, r, deleteData, env.freshKey);
      Since(Run(s1, rest), |s.log|, |s1.log|);
    } else {
      QuietDeparture(s1, m, r, deleteData, env.freshKey);
    }
  }

  lemma SameRemovalKeys(s: State, t: State, m: string, r: string, key: string)
    requires s.eck == t.eck && RecordedRotation(s, m, r) == RecordedRotation(t, m, r)
    ensures KeysAfterRemoval(s, m, r, key) == KeysAfterRemoval(t, m, r, key)
  {
  }

  lemma RotatingDeparture(s: State, m: string, r: string, deleteData: bool, key: string)
    requires RowsListed(s) && m in s.ops && s.ops[m].rumor == r
    requires m in s.status && (s.status[m] == Approved || RotationOf(s, m).Some?)
    ensures var t := Run(s, PlanDeparture(s, m, r, deleteData, key));
            t.eck == KeysAfterRemoval(s, m, r, key) && AllRegranted(t, |s.log|)
  {
    hide Run, KeysAfterRemoval, AllRegranted, PlanRevoke;
    var revoke := PlanRevoke(s, m, r, false, key);
    var rest := (if deleteData then [Purge(m)] else []) + [Complete(m, r)];
    assert PlanDeparture(s, m, r, deleteData, key) == revoke + rest;
    RunConcat(s, revoke, rest);
    RevokeRegrantsAll(s, m, r, false, key);
    RowOut(Run(s, revoke), |s.log|, m, r, deleteData);
  }

  lemma QuietDeparture(s: State, m: string, r: string, deleteData: bool, key: string)
    requires m in s.ops && s.ops[m].rumor == r
    requires m in s.status ==> s.status[m] != Approved && RotationOf(s, m).None?
    ensures var t := Run(s, if m !in s.status then [Complete(m, r)] else PlanDeparture(s, m, r, deleteData, key));
            t.eck == s.eck && t.log == s.log + [Completed(m, r)]
  {
    RunOne(s, Complete(m, r));
    if m in s.status {
      RunTwo(s, Purge(m), Complete(m, r));
      RunThree(s, Purge(m), Purge(m), Complete(m, r));
      var first := if s.status[m] == Pending then [Purge(m)] else [];
      var second := if deleteData then [Purge(m)] else [];
      assert PlanDeparture(s, m, r, deleteData, key) == first + second + [Complete(m, r)];
      assert first + second + [Complete(m, r)] ==
               if s.status[m] == Pending && deleteData then [Purge(m), Purge(m), Complete(m, r)]
               else if s.status[m] == Pending || deleteData then [Purge(m), Complete(m, r)] else [Complete(m, r)];
    }
  }

  lemma RowOut(t: State, from: nat, m: string, r: string, purge: bool)
    requires AllRegranted(t, from)
    ensures var u := Run(t, (if purge then [Purge(m)] else []) + [Complete(m, r)]); AllRegranted(u, from) && u.eck == t.eck
  {
    var es := (if purge then [Purge(m)] else []) + [Complete(m, r)];
    assert es == if purge then [Purge(m), Complete(m, r)] else [Complete(m, r)];
    RunOne(t, Complete(m, r));
    RunTwo(t, Purge(m), Complete(m, r));
    var u := Run(t, es);
    LogGrows(t, es);
    forall a | HasStatus(u, a, Approved)
      ensures GrantedSince(u.log, from, a, u.eck)
    {
      assert HasStatus(t, a, Approved) && GrantedSince(t.log, from, a, t.eck);
      var i :| from <= i < |t.log| && t.log[i] == Granted(a, t.eck);
      assert u.log[i] == Granted(a, u.eck);
    }
  }

  lemma RevokeRegrantsAll(s: State, m: string, r: string, byOrganizer: bool, key: string)
    requires RowsListed(s) && m in s.ops && s.ops[m].rumor == r
    ensures var t := Run(s, PlanRevoke(s, m, r, byOrganizer, key));
            t.eck == KeysAfterRemoval(s, m, r, key) && AllRegranted(t, |s.log|)
  {
    var removal := PlanRemoval(s, m, r, byOrganizer, key);
    var s2 := Run(s, removal);
    var rest := RegrantAll(ApprovedAttendees(s2)) + [Publish, Publish];
    assert PlanRevoke(s, m, r, byOrganizer, key) == removal + rest;
    RunConcat(s, removal, rest);
    RunKeepsRows(s, removal);
    LogGrows(s, removal);
    RegrantEnds(s2);
    RegrantsKeepKeys(s2);
    RemovalKeys(s, m, r, byOrganizer, key);
    Since(Run(s2, rest), |s.log|, |s2.log|);
  }

  lemma RegrantsKeepKeys(s: State)
    ensures Run(s, RegrantAll(ApprovedAttendees(s)) + [Publish, Publish]).eck == s.eck
  {
    RunConcat(s, RegrantAll(ApprovedAttendees(s)), [Publish, Publish]);
    RegrantsChangeLog(s, ApprovedAttendees(s));
    RunTwo(Run(s, RegrantAll(ApprovedAttendees(s))), Publish, Publish);
  }

  lemma RunNone(s: State)
    ensures Run(s, []) == s
  {
  }

  lemma RotationKeys(s: State, m: string, r: string, key: string)
    requires m in s.ops && s.ops[m].rumor == r
    ensures Run(s, PlanRotation(s, m, r, key)).eck == KeysAfterRemoval(s, m, r, key)
  {
    hide Run;
    match s.ops[m].rotation
    case Some(rot) =>
      RunNone(s);
      RunOne(s, AddEck(Version(rot.newId, rot.newKey)));
    case None =>
      var newId := MaxId(s.eck) + 1;
      RunTwo(s, SetRotation(m, r, Rotation(newId, key, MaxId(s.eck))), AddEck(Version(newId, key)));
  }

  lemma RemovalKeys(s: State, m: string, r: string, byOrganizer: bool, key: string)
    requires m in s.ops && s.ops[m].rumor == r
    ensures Run(s, PlanRemoval(s, m, r, byOrganizer, key)).eck == KeysAfterRemoval(s, m, r, key)
  {
    hide Run, KeysAfterRemoval, PlanRotation, DeletionId;
    var tomb := if byOrganizer then [Tomb(m)] else [];
    var s1 := if byOrganizer then Apply(s, Tomb(m)) else s;
    RunNone(s);
    RunOne(s, Tomb(m));
    SameRotation(s, s1, m, r, key);
    RotationKeys(s1, m, r, key);
    var rotation := PlanRotation(s, m, r, key);
    var leave := [Delete(m, DeletionId(s, m)), SetStatus(m, Revoked)];
    assert PlanRemoval(s, m, r, byOrganizer, key) == tomb + (rotation + leave);
    RunConcat(s, tomb, rotation + leave);
    RunConcat(s1, rotation, leave);
    RunTwo(Run(s1, rotation), leave[0], leave[1]);
  }

  lemma SameRotation(s: State, t: State, m: string, r: string, key: string)
    requires s.ops == t.ops && s.eck == t.eck
    ensures PlanRotation(s, m, r, key) == PlanRotation(t, m, r, key)
    ensures KeysAfterRemoval(s, m, r, key) == KeysAfterRemoval(t, m, r, key)
  {
  }

  // ---------------------------------------------------------------- organizer commands

  /** A revoke that runs to its end leaves the revocation standing and the row revoked. */
  lemma RevokeDoesWhatItSays(s: State, m: string, at: int, r: string, env: Env)
    requires m != "" && !env.expired && !Skips(s, m, at, r)
    ensures var t := Run(s, PlanAdmin(s, m, at, r, Revoke, env));
            HasStatus(t, m, Revoked) && m in t.tombs && m in t.ops && t.ops[m].rumor == r && t.ops[m].complete
  {
    var begin := Begin(m, at, r, Revoke);
    var s1 := Apply(s, begin);
    var v := ViewOf(s1, m);
    var revoke := PlanRevoke(s1, m, r, true, env.freshKey);
    BeginView(s, m, at, r, Revoke);
    RevokeEnds(s1, m, r, true, env.freshKey, v);
    CompletionLast(v, revoke, m, r);
    ConcatStart(s, begin, revoke + [Complete(m, r)], m);
    assert PlanAdmin(s, m, at, r, Revoke, env) == [begin] + (revoke + [Complete(m, r)]);
    ViewAfter(s, PlanAdmin(s, m, at, r, Revoke, env), m);
  }

  /** It adds a version, deletes the member's entry under the version current before it,
      and sends the whole list to everyone still approved. */
  lemma RevokeRotates(s: State, m: string, at: int, r: string, env: Env)
    requires m != "" && !env.expired && !Skips(s, m, at, r) && RowsListed(s)
    ensures var t := Run(s, PlanAdmin(s, m, at, r, Revoke, env));
            var recorded := RecordedRotation(s, m, r);
            var old_ := if recorded.Some? && (exists v <- s.eck :: v.id == recorded.value.prevId) then recorded.value.prevId else MaxId(s.eck);
            && t.eck == KeysAfterRemoval(s, m, r, env.freshKey)
            && AllRegranted(t, |s.log|)
            && LoggedSince(t.log, |s.log|, Deleted(m, old_))
  {
    hide Run, KeysAfterRemoval, AllRegranted, PlanRevoke, ApprovedOf;
    var begin := Begin(m, at, r, Revoke);
    var s1 := Apply(s, begin);
    var revoke := PlanRevoke(s1, m, r, true, env.freshKey);
    RunOne(s, begin);
    assert PlanAdmin(s, m, at, r, Revoke, env) == [begin] + (revoke + [Complete(m, r)]);
    RunConcat(s, [begin], revoke + [Complete(m, r)]);
    RunConcat(s1, revoke, [Complete(m, r)]);
    SameRemovalKeys(s, s1, m, r, env.freshKey);
    RevokeRegrantsAll(s1, m, r, true, env.freshKey);
    RowOut(Run(s1, revoke), |s1.log|, m, r, false);
    assert [] + [Complete(m, r)] == [Complete(m, r)];
    Since(Run(Run(s1, revoke), [Complete(m, r)]), |s.log|, |s1.log|);
    RevokeDeletes(s, m, at, r, env);
  }

  lemma RevokeDeletes(s: State, m: string, at: int, r: string, env: Env)
    requires m != "" && !env.expired && !Skips(s, m, at, r)
    ensures LoggedSince(Run(s, PlanAdmin(s, m, at, r, Revoke, env)).log, |s.log|, Deleted(m, DeletionId(Apply(s, Begin(m, at, r, Revoke)), m)))
  {
    hide Run, DeletionId, PlanRotation, ApprovedOf;
    var begin := Begin(m, at, r, Revoke);
    var s1 := Apply(s, begin);
    var before := [begin] + ([Tomb(m)] + PlanRotation(s1, m, r, env.freshKey));
    var delete := Delete(m, DeletionId(s1, m));
    var removal := PlanRemoval(s1, m, r, true, env.freshKey);
    var after := [SetStatus(m, Revoked)] + RegrantAll(ApprovedAttendees(Run(s1, removal))) + [Publish, Publish] + [Complete(m, r)];
    assert PlanAdmin(s, m, at, r, Revoke, env) == before + ([delete] + after);
    LoggedOnTheWay(s, before, delete, after);
  }

  /** An approve that runs to its end. Someone approved already, or for whom the roster has
      room, ends approved with the revocation lifted, and is sent the whole list while the
      event is live. Who has no row yet gets one only under a well-formed key and below the
      cap; whoever is not admitted keeps status and revocation, and the command does not
      complete unless the key can never be a member's. */
  lemma ApproveAdmitsOrRefuses(s: State, m: string, at: int, r: string, env: Env)
    requires !env.expired && !Skips(s, m, at, r)
    ensures var t := Run(s, PlanAdmin(s, m, at, r, Approve, env));
            var room := |ApprovedAttendees(s)| < 2000;
            var enrolled := m in s.status || (IsHex64(m) && room);
            && m in t.ops && t.ops[m].rumor == r
            && if HasStatus(s, m, Approved) || (enrolled && env.admits) then
                 && HasStatus(t, m, Approved) && m !in t.tombs && t.ops[m].complete
                 && (env.live ==> GrantedSince(t.log, |s.log|, m, s.eck))
               else
                 && (m in t.tombs <==> m in s.tombs)
                 && (t.ops[m].complete <==> m !in s.status && !IsHex64(m))
                 && ViewOf(t, m).status == if m !in s.status && enrolled then Some(Pending) else ViewOf(s, m).status
  {
    var begin := Begin(m, at, r, Approve);
    var s1 := Apply(s, begin);
    var rest := PlanApprove(s1, m, r, env);
    BeginView(s, m, at, r, Approve);
    ConcatStart(s, begin, rest, m);
    assert PlanAdmin(s, m, at, r, Approve, env) == [begin] + rest;
    ViewAfter(s, PlanAdmin(s, m, at, r, Approve, env), m);
    RunConcat(s, [begin], rest);
    RunOne(s, begin);
    SameApproved(s, s1, s.rows);
    if m in s.status {
      if s.status[m] == Approved || env.admits { AdmittedRow(s1, m, r, env, ViewOf(s1, m)); }
    } else if !IsHex64(m) {
      RunViewOne(ViewOf(s1, m), Complete(m, r), m);
    } else if |ApprovedAttendees(s)| < MAX_ATTENDEES_PER_EVENT {
      EnrolledRow(s1, m, r, env);
    }
  }

  lemma {:induction false} SameApproved(s: State, t: State, rows: seq<string>)
    requires s.status == t.status
    ensures ApprovedOf(s, rows) == ApprovedOf(t, rows)
  {
    if rows != [] { SameApproved(s, t, rows[1..]); }
  }

  lemma EnrolledRow(s: State, m: string, r: string, env: Env)
    requires m !in s.status && m in s.ops && s.ops[m].rumor == r && !s.ops[m].complete
    ensures var enroll := SetStatus(m, Pending);
            var plan := [enroll] + PlanApproveRow(Apply(s, enroll), m, r, env);
            var w := RunView(ViewOf(s, m), plan, m);
            && w == ViewOf(Run(s, plan), m)
            && if env.admits
               then w.status == Some(Approved) && !w.tomb && w.op.Some? && w.op.value.complete && w.op.value.rumor == r
                    && (env.live ==> GrantedSince(Run(s, plan).log, |s.log|, m, s.eck))
               else w == ViewOf(s, m).(status := Some(Pending))
  {
    var enroll := SetStatus(m, Pending);
    var s1 := Apply(s, enroll);
    var rest := PlanApproveRow(s1, m, r, env);
    RunViewIsRun(s, [enroll] + rest, m);
    RunViewConcat(ViewOf(s, m), [enroll], rest, m);
    RunViewOne(ViewOf(s, m), enroll, m);
    RunConcat(s, [enroll], rest);
    RunOne(s, enroll);
    assert ViewOf(s1, m) == ViewOf(s, m).(status := Some(Pending));
    if env.admits { AdmittedRow(s1, m, r, env, ViewOf(s1, m)); }
  }

  lemma AdmittedRow(s: State, m: string, r: string, env: Env, v: View)
    requires v == ViewOf(s, m) && Unfinished(v) && v.op.value.rumor == r && m in s.status
    requires s.status[m] == Approved || env.admits
    ensures var w := RunView(v, PlanApproveRow(s, m, r, env), m);
            w.status == Some(Approved) && !w.tomb && w.op.Some? && w.op.value.complete && w.op.value.rumor == r
    ensures env.live ==> GrantedSince(Run(s, PlanApproveRow(s, m, r, env)).log, |s.log|, m, s.eck)
  {
    var head := [Untomb(m)] + (if s.status[m] != Approved then [SetStatus(m, Approved)] else []);
    var grant := PlanGrant(Apply(s, Untomb(m)), m, env.live);
    GrantQuiet(Apply(s, Untomb(m)), m, env.live, m);
    RunViewOne(v, Untomb(m), m);
    RunViewTwo(v, Untomb(m), SetStatus(m, Approved), m);
    assert head == if s.status[m] != Approved then [Untomb(m), SetStatus(m, Approved)] else [Untomb(m)];
    var w := v.(tomb := false, status := Some(Approved));
    assert PlanApproveRow(s, m, r, env) == head + grant + [Complete(m, r)];
    ApproveTail(v, head, grant, m, r, w);
    if env.live { GrantAfterHead(s, m, r, head, grant); }
  }

  lemma GrantAfterHead(s: State, m: string, r: string, head: seq<Effect>, grant: seq<Effect>)
    requires head == [Untomb(m)] || head == [Untomb(m), SetStatus(m, Approved)]
    requires grant == [Grant(m), Publish, Publish, Publish]
    ensures GrantedSince(Run(s, head + grant + [Complete(m, r)]).log, |s.log|, m, s.eck)
  {
    RunOne(s, Untomb(m));
    RunTwo(s, Untomb(m), SetStatus(m, Approved));
    var after := [Publish, Publish, Publish, Complete(m, r)];
    assert head + grant + [Complete(m, r)] == head + ([Grant(m)] + after);
    LoggedOnTheWay(s, head, Grant(m), after);
  }

  /** However far an approve gets: the member is never listed as approved while the
      revocation stands, unless they were before, and is sent a key only once approved. */
  lemma ApproveNeverExposes(s: State, m: string, at: int, r: string, env: Env, n: nat)
    requires !env.expired && !Skips(s, m, at, r) && !(m in s.tombs && HasStatus(s, m, Approved))
    requires n <= |PlanAdmin(s, m, at, r, Approve, env)|
    ensures var part := PlanAdmin(s, m, at, r, Approve, env)[..n];
            var t := Run(s, part);
            && !(m in t.tombs && HasStatus(t, m, Approved))
            && (Grant(m) in part ==> HasStatus(t, m, Approved))
  {
    var plan := PlanAdmin(s, m, at, r, Approve, env);
    var s1 := Apply(s, Begin(m, at, r, Approve));
    ViewAfter(s, plan[..n], m);
    var v := ViewOf(s, m);
    RunViewOne(v, Begin(m, at, r, Approve), m);
    assert plan == [Begin(m, at, r, Approve)] + PlanApprove(s1, m, r, env);
    if n <= 1 {
      assert plan[..n] == if n == 0 then [] else [Begin(m, at, r, Approve)];
    } else {
      var part := PlanApprove(s1, m, r, env)[..n - 1];
      assert plan[..n] == [Begin(m, at, r, Approve)] + part;
      RunViewConcat(v, [Begin(m, at, r, Approve)], part, m);
      ApproveStaysCovered(s1, m, r, env, n - 1);
      ApplyViewIsApply(s, Begin(m, at, r, Approve), m);
    }
  }

  ghost predicate Covered(v: View) {
    v.tomb ==> v.status != Some(Approved)
  }

  /** The plan's members-only effects: nothing before the revocation is lifted approves, and
      nothing after it restores one; a grant comes after the approval. */
  lemma ApproveStaysCovered(s: State, m: string, r: string, env: Env, n: nat)
    requires Covered(ViewOf(s, m)) && n <= |PlanApprove(s, m, r, env)|
    ensures var part := PlanApprove(s, m, r, env)[..n];
            var w := RunView(ViewOf(s, m), part, m);
            Covered(w) && (Grant(m) in part ==> w.status == Some(Approved))
  {
    var v := ViewOf(s, m);
    var plan := PlanApprove(s, m, r, env);
    if m in s.status {
      ApproveRowStaysCovered(s, m, r, env, v, n);
    } else if IsHex64(m) && !AtCap(s) && n > 0 {
      var enroll := SetStatus(m, Pending);
      var s1 := Apply(s, enroll);
      assert plan[..n] == [enroll] + PlanApproveRow(s1, m, r, env)[..n - 1];
      RunViewConcat(v, [enroll], PlanApproveRow(s1, m, r, env)[..n - 1], m);
      RunViewOne(v, enroll, m);
      ApproveRowStaysCovered(s1, m, r, env, v.(status := Some(Pending)), n - 1);
    } else if n > 0 {
      assert plan[..n] == [Complete(m, r)];
      RunViewOne(v, Complete(m, r), m);
    } else {
      assert plan[..n] == [];
    }
  }

  lemma ApproveRowStaysCovered(s: State, m: string, r: string, env: Env, v: View, n: nat)
    requires m in s.status && v.status == Some(s.status[m]) && Covered(v) && n <= |PlanApproveRow(s, m, r, env)|
    ensures var part := PlanApproveRow(s, m, r, env)[..n];
            var w := RunView(v, part, m);
            Covered(w) && (Grant(m) in part ==> w.status == Some(Approved))
  {
    hide RunView, Run;
    var plan := PlanApproveRow(s, m, r, env);
    if plan == [] {
      assert plan[..n] == [];
      NoEffects(v, m);
    } else {
      var head := if s.status[m] != Approved then [Untomb(m), SetStatus(m, Approved)] else [Untomb(m)];
      var rest := PlanGrant(Apply(s, Untomb(m)), m, env.live) + [Complete(m, r)];
      assert plan == head + rest;
      LiftedPrefix(v, head, rest, m, n);
    }
  }

  lemma NoEffects(v: View, m: string)
    ensures RunView(v, [], m) == v
  {
  }

  lemma LiftedPrefix(v: View, head: seq<Effect>, rest: seq<Effect>, m: string, n: nat)
    requires Covered(v) && n <= |head + rest|
    requires head == [Untomb(m), SetStatus(m, Approved)] || (head == [Untomb(m)] && v.status == Some(Approved))
    requires forall e <- rest :: e.Grant? || e.Publish? || e.Complete?
    ensures var part := (head + rest)[..n];
            var w := RunView(v, part, m);
            Covered(w) && (Grant(m) in part ==> w.status == Some(Approved))
  {
    hide RunView;
    var part := (head + rest)[..n];
    NoEffects(v, m);
    RunViewOne(v, Untomb(m), m);
    RunViewTwo(v, Untomb(m), SetStatus(m, Approved), m);
    if n == 0 {
      assert part == [];
    } else if n == 1 {
      assert part == [Untomb(m)];
    } else {
      var tail := rest[..n - |head|];
      assert part == head + tail;
      assert forall e <- tail :: e in rest;
      RunViewConcat(v, head, tail, m);
      KeepsStanding(RunView(v, head, m), tail, m);
    }
  }

  lemma {:induction false} KeepsStanding(v: View, es: seq<Effect>, m: string)
    requires forall e <- es :: e.Grant? || e.Publish? || e.Complete?
    ensures RunView(v, es, m).tomb == v.tomb && RunView(v, es, m).status == v.status
    decreases |es|
  {
    if es != [] {
      assert es[0] in es;
      KeepsStanding(ApplyView(v, es[0], m), es[1..], m);
    }
  }

  // ---------------------------------------------------------------- joining

  /** What a join of someone not approved and not revoked by the organizer comes to, in each
      mode. It is dropped when a newer command on its member is complete and it is long ago,
      when a newcomer finds the event at its cap, and when an invite-only event sees no proof
      at all. Otherwise it ends approved, with the whole key list sent, if and only if the
      event is live, there is room, and it is let in: in manual mode by the organizer's own
      self-join or a member-of proof that holds, an invite counting for nothing; in the
      others by an invite or a member-of proof that holds; in an open event also by anyone
      not revoked before. Who is not let in waits as pending, but for a newcomer who finds the
      queue full or is rejected by an invite-only event: they have no row. */
  lemma JoinAdmitsIff(s: State, m: string, at: int, r: string, env: Env)
    requires m !in s.tombs && !HasStatus(s, m, Approved)
    ensures var plan := PlanJoin(s, m, at, r, env);
            var t := Run(s, plan);
            var newcomer := m !in s.status;
            var wasRevoked := HasStatus(s, m, Revoked);
            var memberOf := env.hasMemberOf && env.memberOfHolds;
            var letIn := match env.mode
                         case Manual => env.selfJoin || memberOf
                         case Invite => env.inviteHolds || memberOf
                         case ManualInvite => env.inviteHolds || memberOf
                         case Open => env.inviteHolds || memberOf || !wasRevoked;
            var overtaken := (newcomer || wasRevoked) && m in s.ops && s.ops[m].complete && s.ops[m].rumor != r
                             && at < s.ops[m].createdAt && env.longAgo;
            var atCap := newcomer && |ApprovedAttendees(s)| >= 2000;
            var proofless := env.mode == Invite && !env.hasInvite && !env.hasMemberOf;
            var dropped := overtaken || atCap || proofless;
            var admitted := !dropped && env.live && letIn && env.admits;
            && (dropped ==> plan == [])
            && (Grant(m) in plan <==> admitted)
            && (admitted ==> GrantedSince(t.log, |s.log|, m, s.eck))
            && ViewOf(t, m).status == if dropped then ViewOf(s, m).status
                                      else if admitted then Some(Approved)
                                      else if newcomer && (env.queueFull || (env.live && env.mode == Invite && !letIn)) then None
                                      else Some(Pending)
  {
    hide Run, ApprovedOf, PlanJoin, GrantedSince;
    JoinOutcome(s, m, at, r, env);
  }

  lemma JoinOutcome(s: State, m: string, at: int, r: string, env: Env)
    requires m !in s.tombs && !HasStatus(s, m, Approved)
    ensures var plan := PlanJoin(s, m, at, r, env);
            var t := Run(s, plan);
            var newcomer, entitled := m !in s.status, Entitled(HasStatus(s, m, Revoked), env);
            var dropped := StaleJoin(s, m, at, r, env.longAgo) || (newcomer && AtCap(s))
                           || (env.mode == Invite && !env.hasInvite && !env.hasMemberOf);
            var admitted := !dropped && env.live && entitled && env.admits;
            && (dropped ==> plan == [])
            && (Grant(m) in plan <==> admitted)
            && (admitted ==> GrantedSince(t.log, |s.log|, m, s.eck))
            && ViewOf(t, m).status == if dropped then ViewOf(s, m).status
                                      else if admitted then Some(Approved)
                                      else if newcomer && (env.queueFull || (env.live && env.mode == Invite && !entitled)) then None
                                      else Some(Pending)
  {
    hide ApprovedOf, Entitled, PlanDecision, GrantedSince;
    var full := m !in s.status && env.queueFull;
    var enroll := if full then [] else [SetStatus(m, Pending)];
    var s1 := Run(s, enroll);
    RunOne(s, SetStatus(m, Pending));
    var dropped := StaleJoin(s, m, at, r, env.longAgo) || (m !in s.status && AtCap(s))
                   || (env.mode == Invite && !env.hasInvite && !env.hasMemberOf);
    if !dropped {
      var decision := PlanDecision(s1, m, m in s.status, HasStatus(s, m, Revoked), full, env);
      assert PlanJoin(s, m, at, r, env) == enroll + decision;
      RunConcat(s, enroll, decision);
      DecisionOutcome(s1, m, m in s.status, HasStatus(s, m, Revoked), full, env);
    }
  }

  lemma DecisionOutcome(s: State, m: string, existed: bool, wasRevoked: bool, full: bool, env: Env)
    requires m !in s.tombs && (full <==> m !in s.status) && (m in s.status ==> s.status[m] == Pending) && (full ==> !existed)
    ensures var plan := PlanDecision(s, m, existed, wasRevoked, full, env);
            var t := Run(s, plan);
            var entitled := Entitled(wasRevoked, env);
            var admitted := env.live && entitled && env.admits;
            && (Grant(m) in plan <==> admitted)
            && (admitted ==> GrantedSince(t.log, |s.log|, m, s.eck))
            && ViewOf(t, m).status == if admitted then Some(Approved)
                                      else if !existed && (full || (env.live && env.mode == Invite && !entitled)) then None
                                      else Some(Pending)
  {
    var plan := PlanDecision(s, m, existed, wasRevoked, full, env);
    RunOne(s, Purge(m));
    RunOne(s, SetStatus(m, Pending));
    if env.live && Entitled(wasRevoked, env) && env.admits {
      AdmitAndGrant(s, m, plan);
    }
  }

  /** A join of an approved member changes nothing and, while the event is live, sends them
      the whole key list again; a join of someone the organizer revoked does nothing. */
  lemma JoinOfTheKnown(s: State, m: string, at: int, r: string, env: Env)
    requires m in s.tombs || HasStatus(s, m, Approved)
    ensures var t := Run(s, PlanJoin(s, m, at, r, env));
            t == if m in s.tombs || !env.live then s else s.(log := s.log + [Granted(m, s.eck)])
  {
    if m !in s.tombs && env.live { GrantRuns(s, m, PlanGrant(s, m, true)); }
  }

  lemma AdmitAndGrant(s: State, m: string, plan: seq<Effect>)
    requires m !in s.tombs && plan == [SetStatus(m, Approved)] + PlanGrant(s, m, true)
    ensures Grant(m) in plan
    ensures var t := Run(s, plan); HasStatus(t, m, Approved) && GrantedSince(t.log, |s.log|, m, s.eck)
  {
    var admitted := Apply(s, SetStatus(m, Approved));
    var grant := PlanGrant(s, m, true);
    RunConcat(s, [SetStatus(m, Approved)], grant);
    RunOne(s, SetStatus(m, Approved));
    assert grant[0] == Grant(m) && plan[1] == grant[0];
    GrantRuns(admitted, m, grant);
    GrantIsLogged(admitted, m);
  }

  lemma GrantRuns(s: State, m: string, grant: seq<Effect>)
    requires grant == [Grant(m), Publish, Publish, Publish]
    ensures Run(s, grant) == Apply(s, Grant(m))
  {
    assert grant == [Grant(m)] + [Publish, Publish, Publish];
    RunConcat(s, [Grant(m)], [Publish, Publish, Publish]);
    RunOne(s, Grant(m));
    RunThree(Apply(s, Grant(m)), Publish, Publish, Publish);
  }

  lemma GrantIsLogged(s: State, m: string)
    ensures GrantedSince(Apply(s, Grant(m)).log, |s.log|, m, s.eck)
  {
    assert Apply(s, Grant(m)).log[|s.log|] == Granted(m, s.eck);
  }

  // ---------------------------------------------------------------- grants that carry state over

  /** A revocation set leaves everyone it lists revoked by the organizer and, if they were
      approved, demoted; nobody else is touched, and no key or command either. */
  lemma {:induction false} SeedDoesWhatItSays(s: State, pubkeys: seq<string>)
    ensures var t := Run(s, PlanSeed(s, pubkeys));
            && (forall m :: m in t.tombs <==> m in s.tombs || m in pubkeys)
            && (forall m :: ViewOf(t, m).status == if m in pubkeys && HasStatus(s, m, Approved) then Some(Revoked) else ViewOf(s, m).status)
            && t.eck == s.eck && t.ops == s.ops && t.log == s.log
    decreases |pubkeys|
  {
    if pubkeys != [] {
      hide ViewOf, HasStatus;
      var m := pubkeys[0];
      var es := [Tomb(m)] + (if HasStatus(s, m, Approved) then [SetStatus(m, Revoked)] else []);
      var s1 := Run(s, es);
      SeedOne(s, m, es);
      RunConcat(s, es, PlanSeed(s1, pubkeys[1..]));
      SeedDoesWhatItSays(s1, pubkeys[1..]);
      forall x
        ensures x in pubkeys <==> x == m || x in pubkeys[1..]
      {
        assert pubkeys == [m] + pubkeys[1..];
      }
    }
  }

  lemma SeedOne(s: State, m: string, es: seq<Effect>)
    requires es == [Tomb(m)] + if HasStatus(s, m, Approved) then [SetStatus(m, Revoked)] else []
    ensures var t := Run(s, es);
            && t.tombs == s.tombs + {m}
            && (forall x :: ViewOf(t, x).status == if x == m && HasStatus(s, m, Approved) then Some(Revoked) else ViewOf(s, x).status)
            && (forall x :: HasStatus(t, x, Approved) <==> x != m && HasStatus(s, x, Approved))
            && t.eck == s.eck && t.ops == s.ops && t.log == s.log
  {
    assert es == if HasStatus(s, m, Approved) then [Tomb(m), SetStatus(m, Revoked)] else [Tomb(m)];
    RunOne(s, Tomb(m));
    RunTwo(s, Tomb(m), SetStatus(m, Revoked));
  }

  ghost predicate NoRepeats(rows: seq<string>) {
    forall i, j :: 0 <= i < j < |rows| ==> rows[i] != rows[j]
  }

  /** Each attendee has one row. */
  ghost predicate OneRowEach(s: State) {
    && (forall a :: a in s.rows <==> a in s.status)
    && NoRepeats(s.rows)
  }

  lemma {:induction false} WithoutDrops(rows: seq<string>, m: string)
    requires NoRepeats(rows)
    ensures NoRepeats(Without(rows, m)) && forall a :: a in Without(rows, m) <==> a in rows && a != m
  {
    if rows != [] {
      var rest := Without(rows[1..], m);
      WithoutDrops(rows[1..], m);
      assert rows == [rows[0]] + rows[1..];
      assert rows[0] !in rows[1..];
    }
  }

  /** Every effect keeps one row to each attendee. */
  lemma {:induction false} RunKeepsOneRow(s: State, es: seq<Effect>)
    requires OneRowEach(s)
    ensures OneRowEach(Run(s, es))
    decreases |es|
  {
    if es != [] {
      if es[0].Purge? { WithoutDrops(s.rows, es[0].member); }
      RunKeepsOneRow(Apply(s, es[0]), es[1..]);
    }
  }

  lemma {:induction false} ApprovedCount(s: State, m: string, rows: seq<string>)
    requires NoRepeats(rows)
    ensures var t := s.(status := s.status[m := Approved]);
            |ApprovedOf(t, rows)| == |ApprovedOf(s, rows)| + if m in rows && !HasStatus(s, m, Approved) then 1 else 0
  {
    if rows != [] { ApprovedCount(s, m, rows[1..]); }
  }

  lemma {:induction false} ApprovedAppend(s: State, rows: seq<string>, m: string)
    ensures ApprovedOf(s, rows + [m]) == ApprovedOf(s, rows) + ApprovedOf(s, [m])
  {
    if rows != [] {
      assert (rows + [m])[1..] == rows[1..] + [m];
      ApprovedAppend(s, rows[1..], m);
    } else {
      assert [] + [m] == [m];
    }
  }

  lemma AdoptedCount(s: State, m: string)
    requires OneRowEach(s) && !HasStatus(s, m, Approved)
    ensures var t := Apply(s, SetStatus(m, Approved));
            OneRowEach(t) && |ApprovedAttendees(t)| == |ApprovedAttendees(s)| + 1
  {
    var t := Apply(s, SetStatus(m, Approved));
    var marked := s.(status := t.status);
    ApprovedCount(s, m, s.rows);
    SameApproved(marked, t, s.rows);
    if m !in s.status {
      ApprovedAppend(t, s.rows, m);
      assert ApprovedOf(t, [m]) == [m] by { assert [m][1..] == []; }
    }
  }

  /** An adoption approves only listed members without a standing revocation, touches nobody
      else, no key and no command, and stops at the cap. */
  lemma {:induction false} AdoptWithinCap(s: State, roster: seq<string>)
    requires OneRowEach(s)
    ensures var t := Run(s, PlanAdopt(s, roster));
            && OneRowEach(t) && t.eck == s.eck && t.ops == s.ops && t.log == s.log && t.tombs == s.tombs
            && (forall m :: ViewOf(t, m).status == ViewOf(s, m).status || (m in roster && m !in s.tombs && HasStatus(t, m, Approved)))
            && |ApprovedAttendees(s)| <= |ApprovedAttendees(t)| && (|ApprovedAttendees(t)| <= 2000 || t == s)
    decreases |roster|
  {
    hide ApprovedOf;
    if roster != [] {
      var m := roster[0];
      assert roster == [m] + roster[1..];
      if HasStatus(s, m, Approved) || m in s.tombs {
        AdoptWithinCap(s, roster[1..]);
      } else if !AtCap(s) {
        var e := SetStatus(m, Approved);
        RunConcat(s, [e], PlanAdopt(Apply(s, e), roster[1..]));
        RunOne(s, e);
        AdoptedCount(s, m);
        AdoptWithinCap(Apply(s, e), roster[1..]);
        AdoptStays(Apply(s, e), roster[1..], m);
      }
    }
  }

  lemma {:induction false} AdoptStays(s: State, roster: seq<string>, m: string)
    requires HasStatus(s, m, Approved)
    ensures HasStatus(Run(s, PlanAdopt(s, roster)), m, Approved)
    decreases |roster|
  {
    if roster != [] {
      var x := roster[0];
      if HasStatus(s, x, Approved) || x in s.tombs {
        AdoptStays(s, roster[1..], m);
      } else if !AtCap(s) {
        AdoptStays(Apply(s, SetStatus(x, Approved)), roster[1..], m);
      }
    }
  }

  /** Listed members are passed over only for a standing revocation or at the cap, and from
      there on nobody further down is adopted. */
  lemma {:induction false} AdoptInOrder(s: State, roster: seq<string>, i: nat)
    requires OneRowEach(s) && i < |roster| && roster[i] !in s.tombs
    ensures var t := Run(s, PlanAdopt(s, roster));
            !HasStatus(t, roster[i], Approved) ==>
              |ApprovedAttendees(t)| >= 2000 && t == Run(s, PlanAdopt(s, roster[..i]))
    decreases |roster|
  {
    var m := roster[0];
    if HasStatus(s, m, Approved) || m in s.tombs {
      if HasStatus(s, m, Approved) { AdoptStays(s, roster, m); }
      if i > 0 {
        assert roster[..i][1..] == roster[1..][..i - 1];
        AdoptInOrder(s, roster[1..], i - 1);
      }
    } else if !AtCap(s) {
      var e := SetStatus(m, Approved);
      RunConcat(s, [e], PlanAdopt(Apply(s, e), roster[1..]));
      RunOne(s, e);
      AdoptStays(Apply(s, e), roster[1..], m);
      if i > 0 {
        assert roster[..i][1..] == roster[1..][..i - 1];
        AdoptedCount(s, m);
        AdoptInOrder(Apply(s, e), roster[1..], i - 1);
      }
    }
  }

  /** A handover adopts within the cap and then sends everyone approved the whole list. */
  lemma BootstrapDoesWhatItSays(s: State, roster: seq<string>)
    requires OneRowEach(s)
    ensures var t, adopted := Run(s, PlanBootstrap(s, roster)), Run(s, PlanAdopt(s, roster));
            t == adopted.(log := t.log) && AllRegranted(t, |s.log|)
  {
    hide PlanAdopt, ApprovedOf, RegrantAll;
    var adopt := PlanAdopt(s, roster);
    var u := Run(s, adopt);
    var grants := RegrantAll(ApprovedAttendees(u));
    assert PlanBootstrap(s, roster) == adopt + (grants + [Publish]);
    RunConcat(s, adopt, grants + [Publish]);
    RunConcat(u, grants, [Publish]);
    RunOne(Run(u, grants), Publish);
    RegrantsChangeLog(u, ApprovedAttendees(u));
    AdoptWithinCap(s, roster);
    EveryoneIsSent(u);
  }

  lemma EveryoneIsSent(s: State)
    requires OneRowEach(s)
    ensures forall a | HasStatus(s, a, Approved) :: GrantedSince(Run(s, RegrantAll(ApprovedAttendees(s))).log, |s.log|, a, s.eck)
  {
    forall a | HasStatus(s, a, Approved)
      ensures GrantedSince(Run(s, RegrantAll(ApprovedAttendees(s))).log, |s.log|, a, s.eck)
    {
      ApprovedListsAll(s, s.rows, a);
      RegrantsReach(s, ApprovedAttendees(s), a);
    }
  }

  /** The hierarchy sweep sends everyone approved the whole list, if it is due, and does
      nothing else. */
  lemma ReissueDoesWhatItSays(s: State, linked: bool)
    requires RowsListed(s)
    ensures var t := Run(s, PlanReissue(s, linked));
            t == s.(log := t.log) && if linked then AllRegranted(t, |s.log|) else t == s
  {
    if linked {
      GrantAllLogs(s, ApprovedAttendees(s));
      forall a | HasStatus(s, a, Approved)
        ensures GrantedSince(Run(s, PlanReissue(s, linked)).log, |s.log|, a, s.eck)
      {
        ApprovedListsAll(s, s.rows, a);
        GrantAllLogs(s, ApprovedAttendees(s));
      }
    }
  }

  lemma {:induction false} GrantAllLogs(s: State, members: seq<string>)
    ensures var t := Run(s, GrantAll(members));
            && t == s.(log := t.log) && s.log <= t.log
            && forall a <- members :: GrantedSince(t.log, |s.log|, a, s.eck)
    decreases |members|
  {
    if members != [] {
      var first := Grant(members[0]);
      var s1 := Apply(s, first);
      var t := Run(s, GrantAll(members));
      RunConcat(s, [first], GrantAll(members[1..]));
      RunOne(s, first);
      GrantAllLogs(s1, members[1..]);
      assert t.log[|s.log|] == s1.log[|s.log|] == Granted(members[0], s.eck);
      forall a <- members
        ensures GrantedSince(t.log, |s.log|, a, s.eck)
      {
        if a != members[0] {
          assert a in members[1..] && GrantedSince(t.log, |s1.log|, a, s.eck);
        }
      }
    }
  }

  /** An eviction drops exactly the idle members still pending. */
  lemma {:induction false} EvictDoesWhatItSays(s: State, idle: seq<string>)
    ensures var t := Run(s, PlanEvict(s, idle));
            && (forall m :: ViewOf(t, m).status == if m in idle && HasStatus(s, m, Pending) then None else ViewOf(s, m).status)
            && t.tombs == s.tombs && t.ops == s.ops && t.eck == s.eck && t.log == s.log
  {
    PurgeAllDrops(s, PendingOf(s, idle));
    forall m
      ensures m in PendingOf(s, idle) <==> m in idle && HasStatus(s, m, Pending)
    {
      PendingListsAll(s, idle, m);
    }
  }

  lemma {:induction false} PendingListsAll(s: State, members: seq<string>, m: string)
    ensures m in PendingOf(s, members) <==> m in members && HasStatus(s, m, Pending)
  {
    if members != [] { PendingListsAll(s, members[1..], m); }
  }

  lemma {:induction false} PurgeAllDrops(s: State, members: seq<string>)
    ensures var t := Run(s, PurgeAll(members));
            && (forall m :: ViewOf(t, m).status == if m in members then None else ViewOf(s, m).status)
            && t.tombs == s.tombs && t.ops == s.ops && t.eck == s.eck && t.log == s.log
    decreases |members|
  {
    if members != [] {
      RunConcat(s, [Purge(members[0])], PurgeAll(members[1..]));
      RunOne(s, Purge(members[0]));
      PurgeAllDrops(Apply(s, Purge(members[0])), members[1..]);
    }
  }
}
