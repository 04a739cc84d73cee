/** The coordinator's handlers, step by step. Each writes the store and publishes in the
    source's order; `budget` is how many of these actions succeed before one throws or the
    process dies. Every handler is proved to perform a prefix of its plan, and the retry
    loop to be a run of attempts. */
module Coordinator {
  import opened Wrappers
  import opened Ordering
  import opened Text
  import opened EckIdentity
  import opened Membership
  import opened MembershipOrder

  datatype Outcome = Outcome(state: State, left: nat, ok: bool)

  /** From `s` with `budget` actions allowed: the first `budget` effects of `plan` are
      performed, and `ok` says whether that is all of them. */
  ghost function Perform(s: State, plan: seq<Effect>, budget: nat): Outcome {
    Outcome(Run(s, Take(plan, budget)), if |plan| <= budget then budget - |plan| else 0, |plan| <= budget)
  }

  /** A plan in two parts: the second runs only if the first got through. */
  lemma InTurn(s: State, a: seq<Effect>, b: seq<Effect>, budget: nat)
    ensures var first := Perform(s, a, budget);
            Perform(s, a + b, budget) == if first.ok then Perform(first.state, b, first.left) else first
  {
    if |a| <= budget {
      RunConcat(s, a, Take(b, budget - |a|));
      assert Take(a + b, budget) == a + Take(b, budget - |a|);
    } else {
      assert (a + b)[..budget] == a[..budget];
    }
  }

  lemma NothingLeft(s: State, budget: nat)
    ensures Perform(s, [], budget) == Outcome(s, budget, true)
  {
  }

  lemma GotThrough(s: State, plan: seq<Effect>, budget: nat)
    ensures Perform(s, plan, budget).ok ==> Perform(s, plan, budget).state == Run(s, plan)
  {
  }

  class EventCoordinator {
    var rows: seq<string>
    var status: map<string, Status>
    var tombs: set<string>
    var ops: map<string, Op>
    var eck: seq<Version>
    var seen: set<string>
    var log: seq<Entry>
    var budget: nat

    constructor (held: seq<Version>)
      ensures Abs() == State([], map[], {}, map[], held, {}, [])
    {
      rows, status, tombs, ops, eck, seen, log := [], map[], {}, map[], held, {}, [];
      budget := 0;
    }

    function Abs(): State
      reads this
    {
      State(rows, status, tombs, ops, eck, seen, log)
    }

    // -------------------------------------------------------------- the store and the relays

    method Spend() returns (ok: bool)
      modifies `budget
      ensures ok <==> old(budget) > 0
      ensures budget == if ok then old(budget) - 1 else 0
    {
      ok := budget > 0;
      if ok { budget := budget - 1; }
    }

    method BeginCommandOp(m: string, createdAt: int, rumor: string, kind: Kind) returns (ok: bool)
      modifies this
      ensures Outcome(Abs(), budget, ok) == Perform(old(Abs()), [Begin(m, createdAt, rumor, kind)], old(budget))
    {
      RunOne(Abs(), Begin(m, createdAt, rumor, kind));
      ok := Spend();
      if ok {
        var progress := None;
        if m in ops && ops[m].rumor == rumor { progress := ops[m].rotation; }
        ops := ops[m := Op(createdAt, rumor, kind, false, progress)];
        log := log + [Began(m, createdAt, rumor, kind)];
      }
    }

    method RecordRevocation(m: string) returns (ok: bool)
      modifies this
      ensures Outcome(Abs(), budget, ok) == Perform(old(Abs()), [Tomb(m)], old(budget))
    {
      RunOne(Abs(), Tomb(m));
      ok := Spend();
      if ok { tombs := tombs + {m}; }
    }

    method ClearRevocation(m: string) returns (ok: bool)
      modifies this
      ensures Outcome(Abs(), budget, ok) == Perform(old(Abs()), [Untomb(m)], old(budget))
    {
      RunOne(Abs(), Untomb(m));
      ok := Spend();
      if ok { tombs := tombs - {m}; }
    }

    method SetCommandOpProgress(m: string, rumor: string, rotation: Rotation) returns (ok: bool)
      modifies this
      ensures Outcome(Abs(), budget, ok) == Perform(old(Abs()), [SetRotation(m, rumor, rotation)], old(budget))
    {
      RunOne(Abs(), SetRotation(m, rumor, rotation));
      ok := Spend();
      if ok && m in ops && ops[m].rumor == rumor {
        ops := ops[m := ops[m].(rotation := Some(rotation))];
      }
    }

    method PersistEck(version: Version) returns (ok: bool)
      modifies this
      ensures Outcome(Abs(), budget, ok) == Perform(old(Abs()), [AddEck(version)], old(budget))
    {
      RunOne(Abs(), AddEck(version));
      ok := Spend();
      if ok { eck := eck + [version]; }
    }

    method UpsertAttendee(m: string, st: Status) returns (ok: bool)
      modifies this
      ensures Outcome(Abs(), budget, ok) == Perform(old(Abs()), [SetStatus(m, st)], old(budget))
    {
      RunOne(Abs(), SetStatus(m, st));
      ok := Spend();
      if ok {
        if m !in status { rows := rows + [m]; }
        status := status[m := st];
      }
    }

    method PurgeAttendee(m: string) returns (ok: bool)
      modifies this
      ensures Outcome(Abs(), budget, ok) == Perform(old(Abs()), [Purge(m)], old(budget))
    {
      RunOne(Abs(), Purge(m));
      ok := Spend();
      if ok {
        rows := Without(rows, m);
        status := status - {m};
      }
    }

    method PublishGrant(m: string) returns (ok: bool)
      modifies this
      ensures Outcome(Abs(), budget, ok) == Perform(old(Abs()), [Grant(m)], old(budget))
    {
      RunOne(Abs(), Grant(m));
      ok := Spend();
      if ok { log := log + [Granted(m, eck)]; }
    }

    method PublishDeletion(m: string, eckId: int) returns (ok: bool)
      modifies this
      ensures Outcome(Abs(), budget, ok) == Perform(old(Abs()), [Delete(m, eckId)], old(budget))
    {
      RunOne(Abs(), Delete(m, eckId));
      ok := Spend();
      if ok { log := log + [Deleted(m, eckId)]; }
    }

    /** A publish that touches no membership state: directory, roster, matrix, billing. */
    method PublishRecord() returns (ok: bool)
      modifies this
      ensures Outcome(Abs(), budget, ok) == Perform(old(Abs()), [Publish], old(budget))
    {
      RunOne(Abs(), Publish);
      ok := Spend();
    }

    method CompleteCommandOp(m: string, rumor: string) returns (ok: bool)
      modifies this
      ensures Outcome(Abs(), budget, ok) == Perform(old(Abs()), [Complete(m, rumor)], old(budget))
    {
      RunOne(Abs(), Complete(m, rumor));
      ok := Spend();
      if ok && m in ops && ops[m].rumor == rumor {
        ops := ops[m := ops[m].(complete := true)];
        log := log + [Completed(m, rumor)];
      }
    }

    // -------------------------------------------------------------- grants and revokes

    method GrantAndPublish(m: string, live: bool) returns (ok: bool)
      modifies this
      ensures Outcome(Abs(), budget, ok) == Perform(old(Abs()), PlanGrant(old(Abs()), m, live), old(budget))
    {
      if m in tombs || !live {
        return true;
      }
      ghost var records := [Publish, Publish, Publish];
      InTurn(Abs(), [Grant(m)], records, budget);
      assert [Grant(m)] + records == [Grant(m), Publish, Publish, Publish];
      ok := PublishGrant(m);
      if !ok { return; }
      InTurn(Abs(), [Publish], [Publish, Publish], budget);
      assert [Publish] + [Publish, Publish] == records;
      ok := PublishRecord();
      if !ok { return; }
      InTurn(Abs(), [Publish], [Publish], budget);
      assert [Publish] + [Publish] == [Publish, Publish];
      ok := PublishRecord();
      if !ok { return; }
      ok := PublishRecord();
    }

    /** Send the present key list, and republish the entry, for everyone approved now. */
    method RegrantApproved() returns (ok: bool)
      modifies this
      ensures Outcome(Abs(), budget, ok) == Perform(old(Abs()), RegrantAll(ApprovedAttendees(old(Abs()))), old(budget))
    {
      hide Perform, Apply, ApprovedOf;
      ghost var all := Perform(Abs(), RegrantAll(ApprovedAttendees(Abs())), budget);
      var members := ApprovedAttendees(Abs());
      ok := true;
      var i := 0;
      while i < |members|
        invariant 0 <= i <= |members| && ok
        invariant all == Perform(Abs(), RegrantAll(members[i..]), budget)
      {
        ghost var rest := RegrantAll(members[i + 1..]);
        assert members[i..][1..] == members[i + 1..];
        assert RegrantAll(members[i..]) == [Grant(members[i])] + ([Publish] + rest);
        InTurn(Abs(), [Grant(members[i])], [Publish] + rest, budget);
        ok := PublishGrant(members[i]);
        if !ok { return; }
        InTurn(Abs(), [Publish], rest, budget);
        ok := PublishRecord();
        if !ok { return; }
        i := i + 1;
      }
      NothingLeft(Abs(), budget);
    }

    /** Resume the recorded rotation, or record a fresh one before installing it. */
    method Rotate(m: string, rumor: string, freshKey: string) returns (ok: bool)
      modifies this
      ensures Outcome(Abs(), budget, ok) == Perform(old(Abs()), PlanRotation(old(Abs()), m, rumor, freshKey), old(budget))
    {
      var progress := if m in ops then ops[m].rotation else None;
      if progress.Some? {
        var rot := progress.value;
        if HasId(eck, rot.newId) { return true; }
        ok := PersistEck(Version(rot.newId, rot.newKey));
      } else {
        var newId := MaxId(eck) + 1;
        ghost var record := SetRotation(m, rumor, Rotation(newId, freshKey, MaxId(eck)));
        ghost var add := AddEck(Version(newId, freshKey));
        InTurn(Abs(), [record], [add], budget);
        assert [record] + [add] == [record, add];
        ok := SetCommandOpProgress(m, rumor, Rotation(newId, freshKey, MaxId(eck)));
        if !ok { return; }
        ok := PersistEck(Version(newId, freshKey));
      }
    }

    method Remove(m: string, rumor: string, byOrganizer: bool, freshKey: string) returns (ok: bool)
      modifies this
      ensures Outcome(Abs(), budget, ok) == Perform(old(Abs()), PlanRemoval(old(Abs()), m, rumor, byOrganizer, freshKey), old(budget))
    {
      ghost var s0 := Abs();
      ghost var tomb := if byOrganizer then [Tomb(m)] else [];
      ghost var rotation := PlanRotation(s0, m, rumor, freshKey);
      var deletionId := DeletionId(Abs(), m);
      ghost var last := [Delete(m, deletionId)] + [SetStatus(m, Revoked)];
      assert PlanRemoval(s0, m, rumor, byOrganizer, freshKey) == tomb + (rotation + last);
      InTurn(s0, tomb, rotation + last, budget);
      ok := true;
      if byOrganizer {
        RunOne(s0, Tomb(m));
        ok := RecordRevocation(m);
        if !ok { return; }
      }
      InTurn(Abs(), rotation, last, budget);
      ok := Rotate(m, rumor, freshKey);
      if !ok { return; }
      InTurn(Abs(), [Delete(m, deletionId)], [SetStatus(m, Revoked)], budget);
      ok := PublishDeletion(m, deletionId);
      if !ok { return; }
      ok := UpsertAttendee(m, Revoked);
    }

    method RevokeAttendee(m: string, rumor: string, byOrganizer: bool, freshKey: string) returns (ok: bool)
      modifies this
      ensures Outcome(Abs(), budget, ok) == Perform(old(Abs()), PlanRevoke(old(Abs()), m, rumor, byOrganizer, freshKey), old(budget))
    {
      if m in ops && ops[m].rumor != rumor {
        return true;
      }
      ghost var s0 := Abs();
      ghost var removal := PlanRemoval(s0, m, rumor, byOrganizer, freshKey);
      ghost var grants := RegrantAll(ApprovedAttendees(Run(s0, removal)));
      assert PlanRevoke(s0, m, rumor, byOrganizer, freshKey) == removal + (grants + [Publish, Publish]);
      InTurn(s0, removal, grants + [Publish, Publish], budget);
      ok := Remove(m, rumor, byOrganizer, freshKey);
      if !ok { return; }
      InTurn(Abs(), grants, [Publish, Publish], budget);
      ok := RegrantApproved();
      if !ok { return; }
      InTurn(Abs(), [Publish], [Publish], budget);
      assert [Publish] + [Publish] == [Publish, Publish];
      ok := PublishRecord();
      if !ok { return; }
      ok := PublishRecord();
    }

    // -------------------------------------------------------------- organizer commands

    /** Lift the revocation, then set the status if it is not approved yet. */
    method LiftAndApprove(m: string) returns (ok: bool)
      requires m in status
      modifies this
      ensures Outcome(Abs(), budget, ok) ==
                Perform(old(Abs()), [Untomb(m)] + (if old(status[m]) != Approved then [SetStatus(m, Approved)] else []), old(budget))
    {
      var isApproved := status[m] == Approved;
      ghost var set_ := if !isApproved then [SetStatus(m, Approved)] else [];
      InTurn(Abs(), [Untomb(m)], set_, budget);
      ok := ClearRevocation(m);
      if !ok { return; }
      if !isApproved { ok := UpsertAttendee(m, Approved); }
    }

    method GrantAndComplete(m: string, rumor: string, live: bool) returns (ok: bool)
      modifies this
      ensures Outcome(Abs(), budget, ok) == Perform(old(Abs()), PlanGrant(old(Abs()), m, live) + [Complete(m, rumor)], old(budget))
    {
      InTurn(Abs(), PlanGrant(Abs(), m, live), [Complete(m, rumor)], budget);
      ok := GrantAndPublish(m, live);
      if !ok { return; }
      ok := CompleteCommandOp(m, rumor);
    }

    method ApproveRow(m: string, rumor: string, env: Env) returns (ok: bool)
      requires m in status
      modifies this
      ensures Outcome(Abs(), budget, ok) == Perform(old(Abs()), PlanApproveRow(old(Abs()), m, rumor, env), old(budget))
    {
      hide Perform;
      if status[m] != Approved && !env.admits {
        NothingLeft(Abs(), budget);
        return true;
      }
      ghost var s0 := Abs();
      ghost var lift := [Untomb(m)] + (if status[m] != Approved then [SetStatus(m, Approved)] else []);
      ghost var grant := PlanGrant(Apply(s0, Untomb(m)), m, env.live) + [Complete(m, rumor)];
      assert PlanApproveRow(s0, m, rumor, env) == lift + grant;
      InTurn(s0, lift, grant, budget);
      GotThrough(s0, lift, budget);
      RunOne(s0, Untomb(m));
      RunTwo(s0, Untomb(m), SetStatus(m, Approved));
      assert lift == if status[m] != Approved then [Untomb(m), SetStatus(m, Approved)] else [Untomb(m)];
      ok := LiftAndApprove(m);
      if !ok { return; }
      ok := GrantAndComplete(m, rumor, env.live);
    }

    method HandleApprove(m: string, rumor: string, env: Env) returns (ok: bool)
      modifies this
      ensures Outcome(Abs(), budget, ok) == Perform(old(Abs()), PlanApprove(old(Abs()), m, rumor, env), old(budget))
    {
      if m !in status {
        if !IsHex64(m) {
          ok := CompleteCommandOp(m, rumor);
          return;
        }
        if |ApprovedAttendees(Abs())| >= MAX_ATTENDEES_PER_EVENT {
          return true;
        }
        ghost var s0 := Abs();
        RunOne(s0, SetStatus(m, Pending));
        InTurn(s0, [SetStatus(m, Pending)], PlanApproveRow(Apply(s0, SetStatus(m, Pending)), m, rumor, env), budget);
        ok := UpsertAttendee(m, Pending);
        if !ok { return; }
      }
      ok := ApproveRow(m, rumor, env);
    }

    method BeginOrderedOperation(m: string, createdAt: int, rumor: string) returns (skip: bool)
      ensures skip == Skips(Abs(), m, createdAt, rumor)
      ensures !skip <==>
                || m !in ops
                || (ops[m].rumor == rumor && !ops[m].complete)
                || (ops[m].rumor != rumor
                    && (createdAt > ops[m].createdAt || (createdAt == ops[m].createdAt && StrLess(rumor, ops[m].rumor))))
    {
      if m in ops { SupersedesMeans(Event(rumor, Some(createdAt)), Event(ops[m].rumor, Some(ops[m].createdAt))); }
      if m in ops {
        if ops[m].rumor == rumor { return ops[m].complete; }
        return !Supersedes(Event(rumor, Some(createdAt)), Event(ops[m].rumor, Some(ops[m].createdAt)));
      }
      return false;
    }

    method HandleAdmin(m: string, createdAt: int, rumor: string, kind: Kind, env: Env) returns (ok: bool)
      requires !kind.Withdraw?
      modifies this
      ensures Outcome(Abs(), budget, ok) == Perform(old(Abs()), PlanAdmin(old(Abs()), m, createdAt, rumor, kind, env), old(budget))
    {
      if env.expired { return true; }
      var skip := BeginOrderedOperation(m, createdAt, rumor);
      if skip { return true; }
      ghost var s0 := Abs();
      ghost var begin := Begin(m, createdAt, rumor, kind);
      ghost var rest := PlanAdmin(s0, m, createdAt, rumor, kind, env)[1..];
      RunOne(s0, begin);
      InTurn(s0, [begin], rest, budget);
      ok := BeginCommandOp(m, createdAt, rumor, kind);
      if !ok { return; }
      match kind {
        case Approve =>
          ok := HandleApprove(m, rumor, env);
        case Revoke =>
          ghost var revoke := if m == "" then [] else PlanRevoke(Abs(), m, rumor, true, env.freshKey);
          InTurn(Abs(), revoke, [Complete(m, rumor)], budget);
          if m != "" {
            ok := RevokeAttendee(m, rumor, true, env.freshKey);
            if !ok { return; }
          }
          ok := CompleteCommandOp(m, rumor);
        case Reprocess =>
          InTurn(Abs(), [Publish], [Complete(m, rumor)], budget);
          assert [Publish] + [Complete(m, rumor)] == [Publish, Complete(m, rumor)];
          ok := PublishRecord();
          if !ok { return; }
          ok := CompleteCommandOp(m, rumor);
      }
    }

    // -------------------------------------------------------------- leaving

    /** Revoke, cancel a pending request, or leave a row that is already out alone. */
    method Leave(m: string, rumor: string, freshKey: string) returns (ok: bool)
      requires m in status
      modifies this
      ensures Outcome(Abs(), budget, ok) == Perform(old(Abs()), PlanLeave(old(Abs()), m, rumor, freshKey), old(budget))
    {
      ok := true;
      if status[m] == Approved || (m in ops && ops[m].rotation.Some?) {
        ok := RevokeAttendee(m, rumor, false, freshKey);
      } else if status[m] == Pending {
        ok := PurgeAttendee(m);
      }
    }

    method Depart(m: string, rumor: string, deleteData: bool, freshKey: string) returns (ok: bool)
      requires m in status && m in ops && ops[m].rumor == rumor
      modifies this
      ensures Outcome(Abs(), budget, ok) == Perform(old(Abs()), PlanDeparture(old(Abs()), m, rumor, deleteData, freshKey), old(budget))
    {
      ghost var s0 := Abs();
      ghost var leave := PlanLeave(s0, m, rumor, freshKey);
      ghost var purge := if deleteData then [Purge(m)] else [];
      assert PlanDeparture(s0, m, rumor, deleteData, freshKey) == leave + (purge + [Complete(m, rumor)]);
      InTurn(s0, leave, purge + [Complete(m, rumor)], budget);
      LeaveKeepsOwner(s0, m, rumor, freshKey);
      ok := Leave(m, rumor, freshKey);
      if !ok { return; }
      InTurn(Abs(), purge, [Complete(m, rumor)], budget);
      if deleteData {
        // The ownership re-check before the purge: under the lock it never fires.
        assert StillOwns(Abs(), m, rumor);
        if m in ops && ops[m].rumor != rumor { return; }
        ok := PurgeAttendee(m);
        if !ok { return; }
      }
      ok := CompleteCommandOp(m, rumor);
    }

    method HandleWithdrawal(m: string, createdAt: int, rumor: string, deleteData: bool, env: Env) returns (ok: bool)
      modifies this
      ensures Outcome(Abs(), budget, ok) == Perform(old(Abs()), PlanWithdraw(old(Abs()), m, createdAt, rumor, deleteData, env), old(budget))
    {
      var skip := BeginOrderedOperation(m, createdAt, rumor);
      if skip { return true; }
      ghost var s0 := Abs();
      ghost var begin := Begin(m, createdAt, rumor, Withdraw(deleteData));
      RunOne(s0, begin);
      InTurn(s0, [begin], PlanWithdraw(s0, m, createdAt, rumor, deleteData, env)[1..], budget);
      ok := BeginCommandOp(m, createdAt, rumor, Withdraw(deleteData));
      if !ok { return; }
      if m !in status {
        ok := CompleteCommandOp(m, rumor);
      } else {
        ok := Depart(m, rumor, deleteData, env.freshKey);
      }
    }

    // -------------------------------------------------------------- joining

    /** What the proofs say; `rejects` when an invite-only event turns the join away. */
    method Evaluate(wasRevoked: bool, env: Env) returns (grant: bool, rejects: bool)
      ensures grant == Entitled(wasRevoked, env)
      ensures rejects == (env.mode == Invite && !grant)
    {
      grant := if env.mode == Manual then env.selfJoin else env.inviteHolds;
      if !grant && env.hasMemberOf { grant := env.memberOfHolds; }
      rejects := env.mode == Invite && !grant;
      if !grant && env.mode == Open { grant := !wasRevoked; }
    }

    method Settle(m: string, grant: bool) returns (ok: bool)
      modifies this
      ensures var s := old(Abs());
              var st := if grant then Approved else if m in s.status then s.status[m] else Pending;
              Outcome(Abs(), budget, ok) == Perform(s, [SetStatus(m, st)] + (if grant then PlanGrant(s, m, true) else []), old(budget))
    {
      var st := if grant then Approved else if m in status then status[m] else Pending;
      ghost var s0 := Abs();
      RunOne(s0, SetStatus(m, st));
      InTurn(s0, [SetStatus(m, st)], if grant then PlanGrant(s0, m, true) else [], budget);
      ok := UpsertAttendee(m, st);
      if !ok { return; }
      if grant { ok := GrantAndPublish(m, true); }
    }

    method Decide(m: string, existed: bool, wasRevoked: bool, full: bool, env: Env) returns (ok: bool)
      modifies this
      ensures Outcome(Abs(), budget, ok) == Perform(old(Abs()), PlanDecision(old(Abs()), m, existed, wasRevoked, full, env), old(budget))
    {
      var grant, rejects := Evaluate(wasRevoked, env);
      if env.mode == Manual && grant && !env.admits { return true; }
      if grant && !env.admits { grant := false; }
      if !env.live { return true; }
      if rejects {
        if existed { return true; }
        ok := PurgeAttendee(m);
        return;
      }
      if !grant && m !in status && full { return true; }
      ok := Settle(m, grant);
    }

    method EnrollAndDecide(m: string, existed: bool, wasRevoked: bool, full: bool, env: Env) returns (ok: bool)
      modifies this
      ensures var s := old(Abs());
              var enroll := if full then [] else [SetStatus(m, Pending)];
              Outcome(Abs(), budget, ok)
                == Perform(s, enroll + PlanDecision(Run(s, enroll), m, existed, wasRevoked, full, env), old(budget))
    {
      ghost var s0 := Abs();
      ghost var enroll := if full then [] else [SetStatus(m, Pending)];
      InTurn(s0, enroll, PlanDecision(Run(s0, enroll), m, existed, wasRevoked, full, env), budget);
      if !full {
        ok := UpsertAttendee(m, Pending);
        if !ok { return; }
      }
      ok := Decide(m, existed, wasRevoked, full, env);
    }

    method HandleJoinLocked(m: string, createdAt: int, rumor: string, env: Env) returns (ok: bool)
      modifies this
      ensures Outcome(Abs(), budget, ok) == Perform(old(Abs()), PlanJoin(old(Abs()), m, createdAt, rumor, env), old(budget))
    {
      ok := true;
      if m in tombs { return; }
      var existed := m in status;
      var wasRevoked := m in status && status[m] == Revoked;
      if m in status && status[m] == Approved {
        ok := GrantAndPublish(m, env.live);
        return;
      }
      if wasRevoked || !existed {
        if m in ops && ops[m].complete && ops[m].rumor != rumor && createdAt < ops[m].createdAt && env.longAgo { return; }
      }
      if !existed && |ApprovedAttendees(Abs())| >= MAX_ATTENDEES_PER_EVENT { return; }
      if env.mode == Invite && !env.hasInvite && !env.hasMemberOf { return; }
      ok := EnrollAndDecide(m, existed, wasRevoked, !existed && env.queueFull, env);
    }

    // -------------------------------------------------------------- grants that carry state over

    method SeedRevocations(pubkeys: seq<string>) returns (ok: bool)
      modifies this
      ensures Outcome(Abs(), budget, ok) == Perform(old(Abs()), PlanSeed(old(Abs()), pubkeys), old(budget))
    {
      hide Perform;
      ghost var all := Perform(Abs(), PlanSeed(Abs(), pubkeys), budget);
      ok := true;
      var i := 0;
      while i < |pubkeys|
        invariant 0 <= i <= |pubkeys| && ok
        invariant all == Perform(Abs(), PlanSeed(Abs(), pubkeys[i..]), budget)
      {
        var m := pubkeys[i];
        ghost var s1 := Abs();
        var demote := m in status && status[m] == Approved;
        ghost var set_ := if demote then [SetStatus(m, Revoked)] else [];
        ghost var rest := PlanSeed(Run(s1, [Tomb(m)] + set_), pubkeys[i + 1..]);
        assert pubkeys[i..][1..] == pubkeys[i + 1..];
        assert PlanSeed(s1, pubkeys[i..]) == [Tomb(m)] + (set_ + rest);
        RunOne(s1, Tomb(m));
        RunTwo(s1, Tomb(m), SetStatus(m, Revoked));
        assert [Tomb(m)] + set_ == if demote then [Tomb(m), SetStatus(m, Revoked)] else [Tomb(m)];
        InTurn(s1, [Tomb(m)], set_ + rest, budget);
        GotThrough(s1, [Tomb(m)], budget);
        ok := RecordRevocation(m);
        if !ok { return; }
        InTurn(Abs(), set_, rest, budget);
        GotThrough(Abs(), set_, budget);
        NothingLeft(Abs(), budget);
        if demote {
          RunOne(Abs(), SetStatus(m, Revoked));
          ok := UpsertAttendee(m, Revoked);
          if !ok { return; }
        }
        i := i + 1;
      }
      NothingLeft(Abs(), budget);
    }

    method AdoptRoster(roster: seq<string>) returns (ok: bool)
      modifies this
      ensures Outcome(Abs(), budget, ok) == Perform(old(Abs()), PlanAdopt(old(Abs()), roster), old(budget))
    {
      ghost var all := Perform(Abs(), PlanAdopt(Abs(), roster), budget);
      ok := true;
      var i := 0;
      while i < |roster|
        invariant 0 <= i <= |roster| && ok
        invariant all == Perform(Abs(), PlanAdopt(Abs(), roster[i..]), budget)
      {
        var m := roster[i];
        assert roster[i..][1..] == roster[i + 1..];
        if (m in status && status[m] == Approved) || m in tombs {
          i := i + 1;
          continue;
        }
        if |ApprovedAttendees(Abs())| >= MAX_ATTENDEES_PER_EVENT { break; }
        ghost var s1 := Abs();
        RunOne(s1, SetStatus(m, Approved));
        InTurn(s1, [SetStatus(m, Approved)], PlanAdopt(Apply(s1, SetStatus(m, Approved)), roster[i + 1..]), budget);
        ok := UpsertAttendee(m, Approved);
        if !ok { return; }
        i := i + 1;
      }
    }

    method BootstrapHandover(roster: seq<string>) returns (ok: bool)
      modifies this
      ensures Outcome(Abs(), budget, ok) == Perform(old(Abs()), PlanBootstrap(old(Abs()), roster), old(budget))
    {
      ghost var s0 := Abs();
      ghost var adopt := PlanAdopt(s0, roster);
      ghost var grants := RegrantAll(ApprovedAttendees(Run(s0, adopt)));
      assert PlanBootstrap(s0, roster) == adopt + (grants + [Publish]);
      InTurn(s0, adopt, grants + [Publish], budget);
      ok := AdoptRoster(roster);
      if !ok { return; }
      InTurn(Abs(), grants, [Publish], budget);
      ok := RegrantApproved();
      if !ok { return; }
      ok := PublishRecord();
    }

    /** Re-issue everyone approved their grant, once per link; no revocation is looked at. */
    method ReissueParentProofs(linked: bool) returns (ok: bool)
      modifies this
      ensures Outcome(Abs(), budget, ok) == Perform(old(Abs()), PlanReissue(old(Abs()), linked), old(budget))
    {
      hide Perform, Apply, ApprovedOf;
      ok := true;
      if linked {
        ghost var all := Perform(Abs(), PlanReissue(Abs(), linked), budget);
        var members := ApprovedAttendees(Abs());
        var i := 0;
        assert members[0..] == members;
        while i < |members|
          invariant 0 <= i <= |members| && ok
          invariant all == Perform(Abs(), GrantAll(members[i..]), budget)
        {
          assert members[i..][1..] == members[i + 1..];
          InTurn(Abs(), [Grant(members[i])], GrantAll(members[i + 1..]), budget);
          ok := PublishGrant(members[i]);
          if !ok { return; }
          i := i + 1;
        }
      }
      NothingLeft(Abs(), budget);
    }

    /** What a full pending queue evicts before it is counted again. */
    method EvictStale(idle: seq<string>) returns (ok: bool)
      modifies this
      ensures Outcome(Abs(), budget, ok) == Perform(old(Abs()), PlanEvict(old(Abs()), idle), old(budget))
    {
      hide Perform, Apply;
      ghost var all := Perform(Abs(), PlanEvict(Abs(), idle), budget);
      var stale := PendingOf(Abs(), idle);
      ok := true;
      var i := 0;
      assert stale[0..] == stale;
      while i < |stale|
        invariant 0 <= i <= |stale| && ok
        invariant all == Perform(Abs(), PurgeAll(stale[i..]), budget)
      {
        assert stale[i..][1..] == stale[i + 1..];
        InTurn(Abs(), [Purge(stale[i])], PurgeAll(stale[i + 1..]), budget);
        ok := PurgeAttendee(stale[i]);
        if !ok { return; }
        i := i + 1;
      }
      NothingLeft(Abs(), budget);
    }

    // -------------------------------------------------------------- deliveries and retries

    method Dispatch(cmd: Command, env: Env) returns (ok: bool)
      requires cmd.Admin? ==> !cmd.kind.Withdraw?
      modifies this
      ensures Outcome(Abs(), budget, ok) == Perform(old(Abs()), PlanCommand(old(Abs()), cmd, env), old(budget))
    {
      match cmd
      case Admin(m, at, r, kind) => ok := HandleAdmin(m, at, r, kind, env);
      case Withdrawal(m, at, r, deleteData) => ok := HandleWithdrawal(m, at, r, deleteData, env);
      case Join(m, at, r) => ok := HandleJoinLocked(m, at, r, env);
    }

    /** One attempt: the rumor is marked seen only if the handler returns. */
    method Attempt(cmd: Command, env: Env, allowed: nat)
      requires cmd.Admin? ==> !cmd.kind.Withdraw?
      requires cmd.rumor !in seen
      modifies this
      ensures Abs() == Exec(old(Abs()), Deliver(cmd, env, allowed))
    {
      budget := allowed;
      ghost var plan := PlanCommand(Abs(), cmd, env);
      assert Plan(Abs(), Deliver(cmd, env, allowed)) == plan;
      var ok := Dispatch(cmd, env);
      if ok { seen := seen + {cmd.rumor}; }
    }

    /** Retry until the handler returns or the attempts run out; `attempts[i]` is what
        attempt `i` meets. The rumor is marked seen only on success. */
    method ProcessRumorWithRetry(cmd: Command, attempts: seq<(Env, nat)>) returns (used: nat)
      requires cmd.Admin? ==> !cmd.kind.Withdraw?
      modifies this
      ensures used <= |attempts|
      ensures Abs() == AfterAttempts(old(Abs()), cmd, attempts, used)
      ensures cmd.rumor in seen || used == |attempts|
      ensures forall k :: 0 <= k < used ==> cmd.rumor !in AfterAttempts(old(Abs()), cmd, attempts, k).seen
    {
      hide Exec; // the loop needs no more of a step than that it is one
      used := 0;
      ghost var start := Abs();
      while used < |attempts| && cmd.rumor !in seen
        invariant used <= |attempts|
        invariant Abs() == AfterAttempts(start, cmd, attempts, used)
        invariant forall k :: 0 <= k < used ==> cmd.rumor !in AfterAttempts(start, cmd, attempts, k).seen
        decreases |attempts| - used
      {
        Attempt(cmd, attempts[used].0, attempts[used].1);
        used := used + 1;
      }
    }
  }

  /** One delivery step per attempt. */
  ghost function Attempts(cmd: Command, attempts: seq<(Env, nat)>): (r: seq<Step>)
    requires cmd.Admin? ==> !cmd.kind.Withdraw?
    ensures |r| == |attempts|
    ensures forall step <- r :: ValidStep(step)
  {
    if attempts == [] then []
    else Attempts(cmd, attempts[..|attempts| - 1]) + [Deliver(cmd, attempts[|attempts| - 1].0, attempts[|attempts| - 1].1)]
  }

  /** The state the first `n` attempts lead to. */
  ghost function AfterAttempts(s: State, cmd: Command, attempts: seq<(Env, nat)>, n: nat): State
    requires cmd.Admin? ==> !cmd.kind.Withdraw?
    requires n <= |attempts|
  {
    if n == 0 then s
    else Exec(AfterAttempts(s, cmd, attempts, n - 1), Deliver(cmd, attempts[n - 1].0, attempts[n - 1].1))
  }

  /** The retry loop is a run of the state machine: one delivery step per attempt. */
  lemma {:induction false} AttemptsAreARun(s: State, cmd: Command, attempts: seq<(Env, nat)>, n: nat)
    requires cmd.Admin? ==> !cmd.kind.Withdraw?
    requires n <= |attempts|
    ensures AfterAttempts(s, cmd, attempts, n) == RunAll(s, Attempts(cmd, attempts[..n]))
  {
    hide Exec;
    if n > 0 {
      AttemptsAreARun(s, cmd, attempts, n - 1);
      assert attempts[..n][..n - 1] == attempts[..n - 1];
      var before := Attempts(cmd, attempts[..n - 1]);
      var step := Deliver(cmd, attempts[n - 1].0, attempts[n - 1].1);
      assert Attempts(cmd, attempts[..n]) == before + [step];
      assert (before + [step])[..n - 1] == before;
    }
  }

  /** Nothing a handler does after its start hands the subject to another rumor. */
  lemma {:induction false} OwnerKept(s: State, es: seq<Effect>, m: string)
    requires NoBegin(es)
    ensures m in Run(s, es).ops <==> m in s.ops
    ensures m in s.ops ==> Run(s, es).ops[m].rumor == s.ops[m].rumor
    decreases |es|
  {
    if es != [] { OwnerKept(Apply(s, es[0]), es[1..], m); }
  }

  lemma LeaveKeepsOwner(s: State, m: string, rumor: string, freshKey: string)
    requires m in s.status
    ensures var t := Run(s, PlanLeave(s, m, rumor, freshKey));
            (m in t.ops <==> m in s.ops) && (m in s.ops ==> t.ops[m].rumor == s.ops[m].rumor)
  {
    RevokeDoesNotBegin(s, m, rumor, false, freshKey);
    OwnerKept(s, PlanLeave(s, m, rumor, freshKey), m);
  }
}
