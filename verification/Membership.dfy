/** The coordinator's membership protocol for one event, as plans of effects.

    A handler is the list of durable writes and publishes it performs, computed from the
    state it starts in. An attempt performs a prefix of its plan: the whole plan when it
    succeeds, fewer effects when a publish or a write throws or the process dies. A
    rumor is marked seen only when its handler returns; otherwise it is delivered again. */
module Membership {
  import opened Wrappers
  import opened Ordering
  import opened Text
  import opened EckIdentity

  const MAX_ATTENDEES_PER_EVENT := 2000

  datatype Status = Pending | Approved | Revoked

  datatype Rotation = Rotation(newId: int, newKey: string, prevId: int)

  datatype Kind = Approve | Revoke | Reprocess | Withdraw(deleteData: bool)

  /** The newest command accepted for a member. `kind` is what its rumor says; the
      store keeps only the rumor id, which names its contents. */
  datatype Op = Op(createdAt: int, rumor: string, kind: Kind, complete: bool, rotation: Option<Rotation>)

  /** What an observer of the store and the relays can see happen. */
  datatype Entry =
    | Began(member: string, createdAt: int, rumor: string, kind: Kind)
    | Completed(member: string, rumor: string)
    | Granted(member: string, keys: seq<Version>)
    | Deleted(member: string, eckId: int)

  datatype State = State(
    rows: seq<string>,             // attendee rows, in insertion order
    status: map<string, Status>,
    tombs: set<string>,            // members whose organizer revocation stands
    ops: map<string, Op>,          // the `member:<pubkey>` watermark
    eck: seq<Version>,
    seen: set<string>,
    log: seq<Entry>)

  datatype Effect =
    | Begin(member: string, createdAt: int, rumor: string, kind: Kind)
    | Tomb(member: string)
    | Untomb(member: string)
    | SetRotation(member: string, rumor: string, rotation: Rotation)
    | AddEck(version: Version)
    | SetStatus(member: string, status: Status)
    | Purge(member: string)
    | Grant(member: string)
    | Delete(member: string, eckId: int)
    | Publish
    | Complete(member: string, rumor: string)

  function Without(rows: seq<string>, m: string): seq<string> {
    if rows == [] then []
    else (if rows[0] == m then [] else [rows[0]]) + Without(rows[1..], m)
  }

  function Apply(s: State, e: Effect): State {
    match e
    case Begin(m, at, r, kind) =>
      var kept := if m in s.ops && s.ops[m].rumor == r then s.ops[m].rotation else None;
      s.(ops := s.ops[m := Op(at, r, kind, false, kept)], log := s.log + [Began(m, at, r, kind)])
    case Tomb(m) => s.(tombs := s.tombs + {m})
    case Untomb(m) => s.(tombs := s.tombs - {m})
    case SetRotation(m, r, rot) =>
      if m in s.ops && s.ops[m].rumor == r then s.(ops := s.ops[m := s.ops[m].(rotation := Some(rot))]) else s
    case AddEck(v) => s.(eck := s.eck + [v])
    case SetStatus(m, st) =>
      s.(rows := if m in s.status then s.rows else s.rows + [m], status := s.status[m := st])
    case Purge(m) => s.(rows := Without(s.rows, m), status := s.status - {m})
    case Grant(m) => s.(log := s.log + [Granted(m, s.eck)])
    case Delete(m, id) => s.(log := s.log + [Deleted(m, id)])
    case Publish => s
    case Complete(m, r) =>
      if m in s.ops && s.ops[m].rumor == r
      then s.(ops := s.ops[m := s.ops[m].(complete := true)], log := s.log + [Completed(m, r)])
      else s
  }

  function Run(s: State, es: seq<Effect>): State
    decreases |es|
  {
    if es == [] then s else Run(Apply(s, es[0]), es[1..])
  }

  // ---------------------------------------------------------------- what handlers read

  function ApprovedOf(s: State, rows: seq<string>): (r: seq<string>)
    ensures forall a <- r :: a in rows && a in s.status && s.status[a] == Approved
  {
    if rows == [] then []
    else (if rows[0] in s.status && s.status[rows[0]] == Approved then [rows[0]] else []) + ApprovedOf(s, rows[1..])
  }

  function ApprovedAttendees(s: State): seq<string> {
    ApprovedOf(s, s.rows)
  }

  function AtCap(s: State): bool {
    |ApprovedAttendees(s)| >= MAX_ATTENDEES_PER_EVENT
  }

  predicate HasStatus(s: State, m: string, st: Status) {
    m in s.status && s.status[m] == st
  }

  predicate StillOwns(s: State, m: string, rumor: string) {
    m in s.ops ==> s.ops[m].rumor == rumor
  }

  /** The ordering gate refuses: the same rumor already complete, or a distinct command
      that does not supersede the recorded one. */
  predicate Skips(s: State, m: string, createdAt: int, rumor: string) {
    m in s.ops &&
    if s.ops[m].rumor == rumor then s.ops[m].complete
    else !Supersedes(Event(rumor, Some(createdAt)), Event(s.ops[m].rumor, Some(s.ops[m].createdAt)))
  }

  function RotationOf(s: State, m: string): Option<Rotation> {
    if m in s.ops then s.ops[m].rotation else None
  }

  predicate HasId(vs: seq<Version>, id: int) {
    exists v <- vs :: v.id == id
  }

  // ---------------------------------------------------------------- plans

  datatype Mode = Manual | Invite | ManualInvite | Open

  /** What one attempt meets outside the store: the key it would mint, whether the
      roster admits the member, and how a join's proofs resolve. */
  datatype Env = Env(
    freshKey: string, admits: bool, expired: bool, live: bool,
    mode: Mode, hasInvite: bool, hasMemberOf: bool,
    selfJoin: bool, inviteHolds: bool, memberOfHolds: bool,
    queueFull: bool, longAgo: bool)

  function PlanGrant(s: State, m: string, live: bool): seq<Effect> {
    if m in s.tombs || !live then [] else [Grant(m), Publish, Publish, Publish]
  }

  function RegrantAll(members: seq<string>): seq<Effect> {
    if members == [] then [] else [Grant(members[0]), Publish] + RegrantAll(members[1..])
  }

  function PlanRotation(s: State, m: string, rumor: string, freshKey: string): seq<Effect> {
    match RotationOf(s, m)
    case Some(rot) => if HasId(s.eck, rot.newId) then [] else [AddEck(Version(rot.newId, rot.newKey))]
    case None =>
      var newId := MaxId(s.eck) + 1;
      [SetRotation(m, rumor, Rotation(newId, freshKey, MaxId(s.eck))), AddEck(Version(newId, freshKey))]
  }

  /** The version under which the removed member's entry is deleted: the pre-rotation one. */
  function DeletionId(s: State, m: string): int {
    match RotationOf(s, m)
    case Some(rot) => if HasId(s.eck, rot.prevId) then rot.prevId else MaxId(s.eck)
    case None => MaxId(s.eck)
  }

  /** Everything a revoke does before it re-grants. */
  function PlanRemoval(s: State, m: string, rumor: string, byOrganizer: bool, freshKey: string): seq<Effect> {
    (if byOrganizer then [Tomb(m)] else []) + PlanRotation(s, m, rumor, freshKey)
      + [Delete(m, DeletionId(s, m)), SetStatus(m, Revoked)]
  }

  function PlanRevoke(s: State, m: string, rumor: string, byOrganizer: bool, freshKey: string): seq<Effect> {
    if !StillOwns(s, m, rumor) then []
    else
      var removal := PlanRemoval(s, m, rumor, byOrganizer, freshKey);
      removal + RegrantAll(ApprovedAttendees(Run(s, removal))) + [Publish, Publish]
  }

  function PlanApproveRow(s: State, m: string, rumor: string, env: Env): seq<Effect>
    requires m in s.status
  {
    if s.status[m] != Approved && !env.admits then []
    else
      [Untomb(m)] + (if s.status[m] != Approved then [SetStatus(m, Approved)] else [])
        + PlanGrant(Apply(s, Untomb(m)), m, env.live) + [Complete(m, rumor)]
  }

  function PlanApprove(s: State, m: string, rumor: string, env: Env): seq<Effect> {
    if m in s.status then PlanApproveRow(s, m, rumor, env)
    else if !IsHex64(m) then [Complete(m, rumor)]
    else if AtCap(s) then []
    else [SetStatus(m, Pending)] + PlanApproveRow(Apply(s, SetStatus(m, Pending)), m, rumor, env)
  }

  function PlanAdmin(s: State, m: string, createdAt: int, rumor: string, kind: Kind, env: Env): seq<Effect>
    requires !kind.Withdraw?
  {
    if env.expired || Skips(s, m, createdAt, rumor) then []
    else
      var begin := Begin(m, createdAt, rumor, kind);
      var s1 := Apply(s, begin);
      [begin] + match kind
                case Approve => PlanApprove(s1, m, rumor, env)
                case Revoke => (if m == "" then [] else PlanRevoke(s1, m, rumor, true, env.freshKey)) + [Complete(m, rumor)]
                case Reprocess => [Publish, Complete(m, rumor)]
  }

  /** What leaving does to the row found: only an approved member's departure, or one
      whose rotation is already recorded, rotates. */
  function PlanLeave(s: State, m: string, rumor: string, freshKey: string): seq<Effect>
    requires m in s.status
  {
    if s.status[m] == Approved || RotationOf(s, m).Some? then PlanRevoke(s, m, rumor, false, freshKey)
    else if s.status[m] == Pending then [Purge(m)] else []
  }

  function PlanDeparture(s: State, m: string, rumor: string, deleteData: bool, freshKey: string): seq<Effect>
    requires m in s.status
  {
    PlanLeave(s, m, rumor, freshKey) + (if deleteData then [Purge(m)] else []) + [Complete(m, rumor)]
  }

  function PlanWithdraw(s: State, m: string, createdAt: int, rumor: string, deleteData: bool, env: Env): seq<Effect> {
    if Skips(s, m, createdAt, rumor) then []
    else
      var begin := Begin(m, createdAt, rumor, Withdraw(deleteData));
      var s1 := Apply(s, begin);
      [begin] + if m !in s1.status then [Complete(m, rumor)] else PlanDeparture(s1, m, rumor, deleteData, env.freshKey)
  }

  /** A late-delivered join older than the last fully applied command on its member. */
  predicate StaleJoin(s: State, m: string, createdAt: int, rumor: string, longAgo: bool) {
    && (m in s.status ==> s.status[m] == Revoked)
    && m in s.ops && s.ops[m].complete && s.ops[m].rumor != rumor
    && createdAt < s.ops[m].createdAt && longAgo
  }

  function PlanJoin(s: State, m: string, createdAt: int, rumor: string, env: Env): seq<Effect> {
    if m in s.tombs then []
    else if HasStatus(s, m, Approved) then PlanGrant(s, m, env.live)
    else if StaleJoin(s, m, createdAt, rumor, env.longAgo) then []
    else if m !in s.status && AtCap(s) then []
    else if env.mode == Invite && !env.hasInvite && !env.hasMemberOf then []
    else
      var full := m !in s.status && env.queueFull;
      var enroll := if full then [] else [SetStatus(m, Pending)];
      enroll + PlanDecision(Run(s, enroll), m, m in s.status, HasStatus(s, m, Revoked), full, env)
  }

  /** What the proofs say, before the roster is asked. */
  predicate Entitled(wasRevoked: bool, env: Env) {
    if env.mode == Manual then env.selfJoin || (env.hasMemberOf && env.memberOfHolds)
    else env.inviteHolds || (env.hasMemberOf && env.memberOfHolds) || (env.mode == Open && !wasRevoked)
  }

  function PlanDecision(s: State, m: string, existed: bool, wasRevoked: bool, full: bool, env: Env): seq<Effect> {
    var entitled := Entitled(wasRevoked, env);
    if env.mode == Manual && entitled && !env.admits then []
    else if !env.live then []
    else if env.mode == Invite && !entitled then (if existed then [] else [Purge(m)])
    else
      var grant := entitled && env.admits;
      if !grant && m !in s.status && full then []
      else
        var st := if grant then Approved else if m in s.status then s.status[m] else Pending;
        [SetStatus(m, st)] + (if grant then PlanGrant(s, m, true) else [])
  }

  function PlanSeed(s: State, pubkeys: seq<string>): seq<Effect>
    decreases |pubkeys|
  {
    if pubkeys == [] then []
    else
      var m := pubkeys[0];
      var es := [Tomb(m)] + (if HasStatus(s, m, Approved) then [SetStatus(m, Revoked)] else []);
      es + PlanSeed(Run(s, es), pubkeys[1..])
  }

  function PlanAdopt(s: State, roster: seq<string>): seq<Effect>
    decreases |roster|
  {
    if roster == [] then []
    else
      var m := roster[0];
      if HasStatus(s, m, Approved) || m in s.tombs then PlanAdopt(s, roster[1..])
      else if AtCap(s) then []
      else [SetStatus(m, Approved)] + PlanAdopt(Apply(s, SetStatus(m, Approved)), roster[1..])
  }

  function PlanBootstrap(s: State, roster: seq<string>): seq<Effect> {
    var adopt := PlanAdopt(s, roster);
    adopt + RegrantAll(ApprovedAttendees(Run(s, adopt))) + [Publish]
  }

  function GrantAll(members: seq<string>): seq<Effect> {
    if members == [] then [] else [Grant(members[0])] + GrantAll(members[1..])
  }

  /** The hierarchy sweep: an event newly linked to a parent re-issues everyone approved
      their grant, with no look at revocations. `linked`: the link holds and this
      generation's re-issue is not yet marked done. */
  function PlanReissue(s: State, linked: bool): seq<Effect> {
    if linked then GrantAll(ApprovedAttendees(s)) else []
  }

  function PendingOf(s: State, members: seq<string>): (r: seq<string>)
    ensures forall a <- r :: HasStatus(s, a, Pending)
  {
    if members == [] then []
    else (if HasStatus(s, members[0], Pending) then [members[0]] else []) + PendingOf(s, members[1..])
  }

  function PurgeAll(members: seq<string>): seq<Effect> {
    if members == [] then [] else [Purge(members[0])] + PurgeAll(members[1..])
  }

  /** A join that finds the pending queue full first evicts the requests idle too long. */
  function PlanEvict(s: State, idle: seq<string>): seq<Effect> {
    PurgeAll(PendingOf(s, idle))
  }

  // ---------------------------------------------------------------- steps and runs

  datatype Command =
    | Admin(member: string, createdAt: int, rumor: string, kind: Kind)
    | Withdrawal(member: string, createdAt: int, rumor: string, deleteData: bool)
    | Join(member: string, createdAt: int, rumor: string)

  /** One attempt at a delivered rumor, a grant's revocation set, a handover adoption, a
      hierarchy re-issue, or an eviction of idle join requests. */
  datatype Step =
    | Deliver(cmd: Command, env: Env, budget: nat)
    | Seed(pubkeys: seq<string>, budget: nat)
    | Bootstrap(roster: seq<string>, budget: nat)
    | Reissue(linked: bool, budget: nat)
    | Evict(idle: seq<string>, budget: nat)

  predicate ValidStep(step: Step) {
    step.Deliver? && step.cmd.Admin? ==> !step.cmd.kind.Withdraw?
  }

  function PlanCommand(s: State, cmd: Command, env: Env): seq<Effect>
    requires cmd.Admin? ==> !cmd.kind.Withdraw?
  {
    match cmd
    case Admin(m, at, r, kind) => PlanAdmin(s, m, at, r, kind, env)
    case Withdrawal(m, at, r, deleteData) => PlanWithdraw(s, m, at, r, deleteData, env)
    case Join(m, at, r) => PlanJoin(s, m, at, r, env)
  }

  function Plan(s: State, step: Step): seq<Effect>
    requires ValidStep(step)
  {
    match step
    case Deliver(cmd, env, _) => if cmd.rumor in s.seen then [] else PlanCommand(s, cmd, env)
    case Seed(pubkeys, _) => PlanSeed(s, pubkeys)
    case Bootstrap(roster, _) => PlanBootstrap(s, roster)
    case Reissue(linked, _) => PlanReissue(s, linked)
    case Evict(idle, _) => PlanEvict(s, idle)
  }

  function Take(es: seq<Effect>, budget: nat): seq<Effect> {
    if budget < |es| then es[..budget] else es
  }

  /** The state after one attempt: a prefix of its plan, and the rumor seen once it returns. */
  function Exec(s: State, step: Step): State
    requires ValidStep(step)
  {
    var plan := Plan(s, step);
    var s1 := Run(s, Take(plan, step.budget));
    if step.Deliver? && step.budget >= |plan| then s1.(seen := s1.seen + {step.cmd.rumor}) else s1
  }

  function RunAll(s: State, steps: seq<Step>): State
    requires forall step <- steps :: ValidStep(step)
  {
    if steps == [] then s else Exec(RunAll(s, steps[..|steps| - 1]), steps[|steps| - 1])
  }

  lemma {:induction false} GrantAllGrants(members: seq<string>)
    ensures forall e <- GrantAll(members) :: e.Grant? && e.member in members
    ensures forall m <- members :: Grant(m) in GrantAll(members)
  {
    if members != [] { GrantAllGrants(members[1..]); }
  }

  lemma {:induction false} PurgeAllPurges(members: seq<string>)
    ensures forall e <- PurgeAll(members) :: e.Purge? && e.member in members
  {
    if members != [] { PurgeAllPurges(members[1..]); }
  }

  /** An eviction only purges members who were pending. */
  lemma EvictionsArePending(s: State, idle: seq<string>)
    ensures forall e <- PlanEvict(s, idle) :: e.Purge? && HasStatus(s, e.member, Pending)
  {
    PurgeAllPurges(PendingOf(s, idle));
  }

  lemma {:induction false} RunConcat(s: State, a: seq<Effect>, b: seq<Effect>)
    ensures Run(s, a + b) == Run(Run(s, a), b)
    decreases |a|
  {
    if a == [] {
      assert a + b == b;
    } else {
      assert (a + b)[0] == a[0] && (a + b)[1..] == a[1..] + b;
      RunConcat(Apply(s, a[0]), a[1..], b);
    }
  }

  lemma RunOne(s: State, e: Effect)
    ensures Run(s, [e]) == Apply(s, e)
  {
    assert [e][1..] == [];
  }

  lemma RunTwo(s: State, e: Effect, f: Effect)
    ensures Run(s, [e, f]) == Apply(Apply(s, e), f)
  {
    assert [e, f][1..] == [f];
    RunOne(Apply(s, e), f);
  }

  lemma RunThree(s: State, e: Effect, f: Effect, g: Effect)
    ensures Run(s, [e, f, g]) == Apply(Apply(Apply(s, e), f), g)
  {
    assert [e, f, g][1..] == [f, g];
    RunTwo(Apply(s, e), f, g);
  }
}
