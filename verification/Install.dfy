/** One event's installation on a coordinator: grants, restores, suspensions, live config
    updates and detaches, against a durable generation high-water mark. */
module Install {
  import opened Wrappers
  import opened Ordering
  import opened EckIdentity

  /** What a 31600 config says about its coordinator. */
  datatype Config = Config(id: string, createdAt: int, coordinator: Option<string>, gen: Option<int>, inbox: string)

  datatype Row = Row(gen: int, eck: seq<Version>)

  datatype Live = Live(gen: int, eck: seq<Version>, config: Config)

  datatype Suspended = Suspended(gen: int, eck: seq<Version>)

  datatype Entry = Installed(gen: int) | Detached(gen: int)

  /** `row`, `highGen` and `tombstoned` are durable; the rest is in memory. */
  datatype State = State(
    row: Option<Row>,
    highGen: int,
    tombstoned: bool,
    live: Option<Live>,
    completed: Option<int>,
    suspended: Option<Suspended>,
    log: seq<Entry>)

  /** How far an authorized install gets: its row is written but recording the grant's
      revocations throws, so the event is not (re)placed in memory; it serves but the work
      after that throws; or it finishes. */
  datatype Reach = Stored | Serving | Finished

  /** A fetched config is None when it could not be fetched or parsed. Only a grant carries
      revocations; a restore at least serves, and `finishes` says whether it finishes. */
  datatype Step =
    | Grant(gen: int, eck: seq<Version>, inbox: string, fetched: Option<Config>, reach: Reach)
    | Boot(fetched: Option<Config>, finishes: bool)
    | Retry(fetched: Option<Config>, finishes: bool)
    | Update(config: Config)
    | Mint(version: Version)
    | DetachCommand

  /** This coordinator, and the fingerprint its key lists are sorted by. */
  datatype Daemon = Daemon(pubkey: string, fp: Fingerprint)

  datatype Verdict = Admit | Reject | TryLater

  function Max(a: int, b: int): int {
    if a >= b then a else b
  }

  predicate Names(config: Config, me: string, gen: int) {
    config.coordinator == Some(me) && config.gen == Some(gen)
  }

  /** The checks on a fresh grant, in their order. */
  function Judge(s: State, me: string, gen: int, inbox: string, fetched: Option<Config>): Verdict {
    if gen < s.highGen then Reject
    else if gen == s.highGen && (s.row.None? || s.tombstoned || s.completed == Some(gen)) then Reject
    else if fetched.None? then TryLater
    else
      var config := fetched.value;
      if config.coordinator.None? then TryLater
      else if config.coordinator != Some(me) then Reject
      else if config.gen != Some(gen) then
        if gen > (if config.gen.None? then 0 else config.gen.value) then TryLater else Reject
      else if inbox != config.inbox then Reject
      else Admit
  }

  function Put(s: State, d: Daemon, gen: int, granted: seq<Version>, config: Config, reach: Reach): State {
    var eck := if s.row.Some? then Union([s.row.value.eck, granted], d.fp) else granted;
    State(Some(Row(gen, eck)), Max(s.highGen, gen), false,
          if reach == Stored then s.live else Some(Live(gen, eck, config)),
          if reach == Finished then Some(gen) else s.completed, s.suspended, s.log + [Installed(gen)])
  }

  function RestoreReach(finishes: bool): Reach {
    if finishes then Finished else Serving
  }

  function Detach(s: State, gen: int): State {
    var high := Max(gen, s.highGen);
    State(None, high, true, None, None, s.suspended, s.log + [Detached(high)])
  }

  function Suspend(s: State, gen: int, eck: seq<Version>): State {
    s.(live := None, completed := None, suspended := Some(Suspended(gen, eck)))
  }

  function Restore(s: State, d: Daemon, gen: int, eck: seq<Version>, fetched: Option<Config>, finishes: bool): State {
    if fetched.None? then Suspend(s, gen, eck)
    else
      var s1 := s.(suspended := None);
      if Names(fetched.value, d.pubkey, gen) then Put(s1, d, gen, eck, fetched.value, RestoreReach(finishes)) else Detach(s1, gen)
  }

  function Exec(s: State, d: Daemon, step: Step): State {
    match step
    case Grant(gen, eck, inbox, fetched, reach) =>
      if Judge(s, d.pubkey, gen, inbox, fetched) == Admit then Put(s, d, gen, eck, fetched.value, reach) else s
    case Boot(fetched, finishes) =>
      var s1 := s.(live := None, completed := None, suspended := None);
      if s1.row.None? then s1 else Restore(s1, d, s1.row.value.gen, s1.row.value.eck, fetched, finishes)
    case Retry(fetched, finishes) =>
      if s.suspended.None? then s else Restore(s, d, s.suspended.value.gen, s.suspended.value.eck, fetched, finishes)
    case Update(config) =>
      if s.live.None? then s
      else
        var live := s.live.value;
        if !Supersedes(Event(config.id, Some(config.createdAt)), Event(live.config.id, Some(live.config.createdAt))) then s
        else if !Names(config, d.pubkey, live.gen) then Detach(s, live.gen)
        else s.(live := Some(live.(config := config)))
    case Mint(version) =>
      if s.live.None? then s
      else
        var eck := s.live.value.eck + [version];
        s.(live := Some(s.live.value.(eck := eck)), row := if s.row.None? then None else Some(s.row.value.(eck := eck)))
    case DetachCommand => if s.live.None? then s else Detach(s, 0)
  }

  class Installer {
    const me: Daemon
    var row: Option<Row>
    var highGen: int
    var tombstoned: bool
    var live: Option<Live>
    var completed: Option<int>
    var suspended: Option<Suspended>
    var log: seq<Entry>

    constructor (me: Daemon)
      ensures this.me == me && Abs() == State(None, 0, false, None, None, None, [])
    {
      this.me := me;
      row, highGen, tombstoned, live, completed, suspended, log := None, 0, false, None, None, None, [];
    }

    function Abs(): State
      reads this
    {
      State(row, highGen, tombstoned, live, completed, suspended, log)
    }

    /** `upsertEvent`: a missing generation keeps the stored one. */
    method UpsertEvent(gen: Option<int>, eck: seq<Version>)
      modifies `row
      ensures row == Some(Row(if gen.Some? then gen.value else if old(row).Some? then old(row).value.gen else 0, eck))
    {
      var kept := if row.Some? then row.value.gen else 0;
      row := Some(Row(if gen.Some? then gen.value else kept, eck));
    }

    method RecordInstalledGen(gen: int)
      modifies `highGen, `tombstoned
      ensures highGen == Max(old(highGen), gen) && !tombstoned
    {
      if gen > highGen { highGen := gen; }
      tombstoned := false;
    }

    method InstallAuthorized(gen: int, granted: seq<Version>, config: Config, reach: Reach)
      modifies this
      ensures Abs() == Put(old(Abs()), me, gen, granted, config, reach)
    {
      var eck := granted;
      if row.Some? { eck := UnionEck([row.value.eck, granted], me.fp); }
      UpsertEvent(Some(gen), eck);
      RecordInstalledGen(gen);
      log := log + [Installed(gen)];
      if reach == Stored { return; }
      live := Some(Live(gen, eck, config));
      if reach == Finished { completed := Some(gen); }
    }

    method InstallGrant(gen: int, eck: seq<Version>, inbox: string, fetched: Option<Config>, reach: Reach) returns (verdict: Verdict)
      modifies this
      ensures verdict == Judge(old(Abs()), me.pubkey, gen, inbox, fetched)
      ensures Abs() == Exec(old(Abs()), me, Grant(gen, eck, inbox, fetched, reach))
    {
      if gen < highGen { return Reject; }
      if gen == highGen {
        var resumable := row.Some? && !tombstoned;
        if !resumable { return Reject; }
        if completed == Some(gen) { return Reject; }
      }
      if fetched.None? { return TryLater; }
      var config := fetched.value;
      if config.coordinator != Some(me.pubkey) {
        if config.coordinator.None? { return TryLater; }
        return Reject;
      }
      if config.gen != Some(gen) {
        if gen > (if config.gen.None? then 0 else config.gen.value) { return TryLater; }
        return Reject;
      }
      if inbox != config.inbox { return Reject; }
      InstallAuthorized(gen, eck, config, reach);
      verdict := Admit;
    }

    method SuspendEvent(gen: int, eck: seq<Version>)
      modifies this
      ensures Abs() == Suspend(old(Abs()), gen, eck)
    {
      completed := None;
      live := None;
      suspended := Some(Suspended(gen, eck));
    }

    method DetachEvent(gen: Option<int>)
      modifies this
      ensures Abs() == Detach(old(Abs()), if gen.Some? then gen.value else 0)
    {
      var given := if gen.Some? then gen.value else 0;
      var high := if given >= highGen then given else highGen;
      if high > highGen { highGen := high; }
      tombstoned := true;
      live := None;
      completed := None;
      row := None;
      log := log + [Detached(high)];
    }

    method InstallRestore(gen: int, eck: seq<Version>, fetched: Option<Config>, finishes: bool)
      modifies this
      ensures Abs() == Restore(old(Abs()), me, gen, eck, fetched, finishes)
    {
      if fetched.None? {
        SuspendEvent(gen, eck);
        return;
      }
      suspended := None;
      if fetched.value.coordinator != Some(me.pubkey) || fetched.value.gen != Some(gen) {
        DetachEvent(Some(gen));
        return;
      }
      InstallAuthorized(gen, eck, fetched.value, RestoreReach(finishes));
    }

    method RetrySuspended(fetched: Option<Config>, finishes: bool)
      modifies this
      ensures Abs() == Exec(old(Abs()), me, Retry(fetched, finishes))
    {
      if suspended.None? { return; }
      InstallRestore(suspended.value.gen, suspended.value.eck, fetched, finishes);
    }

    method ApplyConfigUpdate(config: Config)
      modifies this
      ensures Abs() == Exec(old(Abs()), me, Update(config))
    {
      if live.None? { return; }
      var current := live.value;
      if !Supersedes(Event(config.id, Some(config.createdAt)), Event(current.config.id, Some(current.config.createdAt))) { return; }
      if config.coordinator != Some(me.pubkey) || config.gen != Some(current.gen) {
        DetachEvent(Some(current.gen));
        return;
      }
      if row.Some? { UpsertEvent(None, row.value.eck); }
      live := Some(current.(config := config));
    }
  }

  // ---------------------------------------------------------------- what every step keeps

  /** Installed generations never decrease, and exceed every generation detached before. */
  ghost predicate GensIncrease(log: seq<Entry>) {
    forall i, j :: 0 <= i < j < |log| && log[j].Installed? ==>
      if log[i].Installed? then log[i].gen <= log[j].gen else log[i].gen < log[j].gen
  }

  /** The log is within the high-water mark; what is installed now is above every detach. */
  ghost predicate LogWithin(s: State) {
    forall e <- s.log :: e.gen <= s.highGen && (s.row.Some? && e.Detached? ==> e.gen < s.highGen)
  }

  ghost predicate RowOk(s: State) {
    s.row.Some? ==> !s.tombstoned && s.row.value.gen == s.highGen
  }

  /** A live event has a row, at its generation or a later one, and runs under a config
      that names this coordinator at exactly its generation. */
  ghost predicate LiveOk(s: State, d: Daemon) {
    s.live.Some? ==>
      && s.row.Some? && s.live.value.gen <= s.row.value.gen
      && Names(s.live.value.config, d.pubkey, s.live.value.gen)
  }

  /** A suspended event is not live, and waits at its row's generation. */
  ghost predicate SuspendedOk(s: State) {
    s.suspended.Some? ==> s.live.None? && s.row.Some? && s.suspended.value.gen == s.row.value.gen
  }

  ghost predicate Inv(s: State, d: Daemon) {
    GensIncrease(s.log) && LogWithin(s) && RowOk(s) && LiveOk(s, d) && SuspendedOk(s)
  }

  lemma LogGrows(log: seq<Entry>, e: Entry)
    requires GensIncrease(log)
    requires e.Installed? ==> forall f <- log :: if f.Installed? then f.gen <= e.gen else f.gen < e.gen
    ensures GensIncrease(log + [e])
  {
    var more := log + [e];
    forall i, j | 0 <= i < j < |more| && more[j].Installed?
      ensures if more[i].Installed? then more[i].gen <= more[j].gen else more[i].gen < more[j].gen
    {
      assert more[i] == log[i] && log[i] in log;
    }
  }

  lemma PutKeeps(s: State, d: Daemon, gen: int, granted: seq<Version>, config: Config, reach: Reach)
    requires Inv(s, d) && Names(config, d.pubkey, gen)
    requires s.suspended.Some? ==> reach == Stored && gen == s.suspended.value.gen
    requires gen > s.highGen || (gen == s.highGen && s.row.Some?)
    ensures Inv(Put(s, d, gen, granted, config, reach), d)
  {
    LogGrows(s.log, Installed(gen));
  }

  lemma DetachKeeps(s: State, d: Daemon, gen: int)
    requires Inv(s, d) && s.suspended.None? && gen <= s.highGen
    ensures Inv(Detach(s, gen), d)
  {
    LogGrows(s.log, Detached(s.highGen));
  }

  lemma RestoreKeeps(s: State, d: Daemon, gen: int, eck: seq<Version>, fetched: Option<Config>, finishes: bool)
    requires Inv(s, d) && s.row.Some? && gen == s.row.value.gen
    ensures Inv(Restore(s, d, gen, eck, fetched, finishes), d)
  {
    if fetched.Some? {
      var s1 := s.(suspended := None);
      if Names(fetched.value, d.pubkey, gen) {
        PutKeeps(s1, d, gen, eck, fetched.value, RestoreReach(finishes));
      } else {
        DetachKeeps(s1, d, gen);
      }
    }
  }

  /** Does the step install a fresh grant? */
  ghost predicate GrantAdmitted(s: State, d: Daemon, step: Step) {
    step.Grant? && Judge(s, d.pubkey, step.gen, step.inbox, step.fetched) == Admit
  }

  /** The config names nobody, or this daemon but at an older generation or at none (which
      counts as 0). */
  predicate NotThereYet(config: Config, me: string, gen: int) {
    || config.coordinator.None?
    || (config.coordinator == Some(me) && if config.gen.Some? then config.gen.value < gen else 0 < gen)
  }

  /** A grant is admitted exactly when it is newer than everything installed or detached, or
      resumes the unfinished install at the mark, and the fetched config names this daemon
      at its generation with its inbox; it is put off for later exactly when it is as current and
      the config cannot be fetched or may not have caught up, so never as a replay. */
  lemma AdmittedIff(s: State, d: Daemon, step: Step)
    requires Inv(s, d) && step.Grant?
    ensures var current := step.gen > s.highGen || (step.gen == s.highGen && s.row.Some? && s.completed != Some(step.gen));
            && (GrantAdmitted(s, d, step) <==>
                  current && step.fetched.Some? && Names(step.fetched.value, d.pubkey, step.gen) && step.fetched.value.inbox == step.inbox)
            && (Judge(s, d.pubkey, step.gen, step.inbox, step.fetched) == TryLater <==>
                  current && (step.fetched.None? || NotThereYet(step.fetched.value, d.pubkey, step.gen)))
  {
  }

  /** The grant leaves a suspension behind that no longer fits: it is installed at another
      generation, or serves. */
  ghost predicate OutlivedSuspension(s: State, d: Daemon, step: Step) {
    GrantAdmitted(s, d, step) && s.suspended.Some? && (step.gen != s.suspended.value.gen || step.reach != Stored)
  }

  /** Every step keeps the invariant, except exactly a grant installed while the event is
      suspended, which never clears the suspension. */
  lemma StepKeepsIff(s: State, d: Daemon, step: Step)
    requires Inv(s, d)
    ensures Inv(Exec(s, d, step), d) <==> !OutlivedSuspension(s, d, step)
  {
    match step
    case Grant(gen, eck, inbox, fetched, reach) =>
      if GrantAdmitted(s, d, step) && !OutlivedSuspension(s, d, step) { PutKeeps(s, d, gen, eck, fetched.value, reach); }
    case Boot(fetched, finishes) =>
      var s1 := s.(live := None, completed := None, suspended := None);
      if s1.row.Some? { RestoreKeeps(s1, d, s1.row.value.gen, s1.row.value.eck, fetched, finishes); }
    case Retry(fetched, finishes) =>
      if s.suspended.Some? { RestoreKeeps(s, d, s.suspended.value.gen, s.suspended.value.eck, fetched, finishes); }
    case Update(config) =>
      if s.live.Some? { DetachKeeps(s, d, s.live.value.gen); }
    case Mint(version) =>
    case DetachCommand =>
      if s.live.Some? { DetachOfLive(s, d); }
  }

  lemma DetachOfLive(s: State, d: Daemon)
    requires Inv(s, d) && s.live.Some?
    ensures Inv(Detach(s, 0), d)
  {
    LogGrows(s.log, Detached(Max(0, s.highGen)));
  }

  function Run(s: State, d: Daemon, steps: seq<Step>): State {
    if steps == [] then s else Exec(Run(s, d, steps[..|steps| - 1]), d, steps[|steps| - 1])
  }

  /** No grant outlives a suspension. */
  ghost predicate NoGrantWhileSuspended(s: State, d: Daemon, steps: seq<Step>)
    decreases |steps|
  {
    steps != [] ==>
      var init := steps[..|steps| - 1];
      NoGrantWhileSuspended(s, d, init) && !OutlivedSuspension(Run(s, d, init), d, steps[|steps| - 1])
  }

  const FRESH := State(None, 0, false, None, None, None, [])

  lemma {:induction false} InvOverRuns(s: State, d: Daemon, steps: seq<Step>)
    requires Inv(s, d) && NoGrantWhileSuspended(s, d, steps)
    ensures Inv(Run(s, d, steps), d) && s.log <= Run(s, d, steps).log
    decreases |steps|
  {
    if steps != [] {
      var init := steps[..|steps| - 1];
      InvOverRuns(s, d, init);
      StepKeepsIff(Run(s, d, init), d, steps[|steps| - 1]);
    }
  }

  /** Over all runs of grants, restores, config updates, key mints and detaches: installed
      generations never decrease and strictly exceed every detach before them, and a live
      event's last applied config names this coordinator at exactly its generation. */
  lemma GenerationsOnlyGrow(d: Daemon, steps: seq<Step>)
    requires NoGrantWhileSuspended(FRESH, d, steps)
    ensures var t := Run(FRESH, d, steps); Inv(t, d) && GensIncrease(t.log) && LiveOk(t, d)
  {
    InvOverRuns(FRESH, d, steps);
  }

  /** A generation once detached is never admitted again. */
  lemma DetachedForGood(s: State, d: Daemon, steps: seq<Step>, again: Step, e: Entry)
    requires Inv(s, d) && NoGrantWhileSuspended(s, d, steps)
    requires e in s.log && e.Detached? && again.Grant? && again.gen <= e.gen
    ensures !GrantAdmitted(Run(s, d, steps), d, again)
  {
    var t := Run(s, d, steps);
    InvOverRuns(s, d, steps);
    assert e in t.log;
    AdmittedIff(t, d, again);
  }

  /** The condition is needed: whenever a grant outlives a suspension, the next retry, or a
      detach and then the next retry, installs a generation again that was overtaken or
      detached, should it fetch a config naming the suspended one. */
  lemma OutlivedSuspensionGoesBack(s: State, d: Daemon, grant: Step, config: Config, finishes: bool)
    requires Inv(s, d) && OutlivedSuspension(s, d, grant)
    requires Names(config, d.pubkey, s.suspended.value.gen)
    ensures var t, retry := Exec(s, d, grant), Retry(Some(config), finishes);
            || !GensIncrease(Run(t, d, [retry]).log)
            || !GensIncrease(Run(t, d, [DetachCommand, retry]).log)
  {
    hide Exec, Run, GensIncrease;
    var t, retry := Exec(s, d, grant), Retry(Some(config), finishes);
    var gen := s.suspended.value.gen;
    RunOne(t, d, retry);
    RunTwo(t, d, DetachCommand, retry);
    GrantLogged(s, d, grant);
    if grant.gen != gen {
      RetryLogged(t, d, config, finishes);
      GoesBack(s.log, Installed(grant.gen), gen);
    } else {
      RetryLogged(Exec(t, d, DetachCommand), d, config, finishes);
      GoesBack(s.log + [Installed(gen)], Detached(Max(0, gen)), gen);
    }
  }

  lemma GrantLogged(s: State, d: Daemon, grant: Step)
    requires Inv(s, d) && OutlivedSuspension(s, d, grant)
    ensures var t := Exec(s, d, grant);
            && t.log == s.log + [Installed(grant.gen)] && t.suspended == s.suspended
            && (grant.gen == s.suspended.value.gen ==>
                  var u := Exec(t, d, DetachCommand); u.log == t.log + [Detached(Max(0, grant.gen))] && u.suspended == s.suspended)
  {
  }

  lemma RetryLogged(s: State, d: Daemon, config: Config, finishes: bool)
    requires s.suspended.Some? && Names(config, d.pubkey, s.suspended.value.gen)
    ensures Exec(s, d, Retry(Some(config), finishes)).log == s.log + [Installed(s.suspended.value.gen)]
  {
  }

  lemma GoesBack(before: seq<Entry>, e: Entry, gen: int)
    requires if e.Installed? then gen < e.gen else gen <= e.gen
    ensures !GensIncrease(before + [e] + [Installed(gen)])
  {
    var log := before + [e] + [Installed(gen)];
    assert log[|before|] == e && log[|before| + 1] == Installed(gen);
  }

  lemma RunOne(s: State, d: Daemon, step: Step)
    ensures Run(s, d, [step]) == Exec(s, d, step)
  {
    assert [step][..0] == [];
  }

  lemma RunTwo(s: State, d: Daemon, first: Step, second: Step)
    ensures Run(s, d, [first, second]) == Exec(Exec(s, d, first), d, second)
  {
    assert [first, second][..1] == [first];
    RunOne(s, d, first);
  }

  // ---------------------------------------------------------------- what each step does

  /** The event is gone: no row, not live, tombstoned, the mark at least at `gen`. */
  ghost predicate Gone(s: State, t: State, gen: int) {
    && t.row.None? && t.live.None? && t.completed.None? && t.tombstoned
    && t.highGen == (if gen > s.highGen then gen else s.highGen)
    && t.log == s.log + [Detached(t.highGen)]
  }

  /** The event is stored at `gen` with what it held and what came, under a raised mark. */
  ghost predicate StoredAt(s: State, t: State, gen: int, came: seq<Version>) {
    && t.row.Some? && t.row.value.gen == gen && !t.tombstoned
    && t.highGen == (if gen > s.highGen then gen else s.highGen)
    && t.log == s.log + [Installed(gen)]
    && Members(t.row.value.eck) == Members(came) + if s.row.Some? then Members(s.row.value.eck) else {}
  }

  lemma PutStores(s: State, d: Daemon, gen: int, came: seq<Version>, config: Config, reach: Reach)
    ensures StoredAt(s, Put(s, d, gen, came, config, reach), gen, came)
  {
    if s.row.Some? { UnionHoldsBoth(s.row.value.eck, came, d.fp); }
  }

  /** An admitted grant stores the event; it serves under the fetched config unless its
      revocations threw, and is noted complete once it finished. No other grant does anything. */
  lemma GrantDoesWhatItSays(s: State, d: Daemon, step: Step)
    requires step.Grant?
    ensures var t := Exec(s, d, step);
            if !GrantAdmitted(s, d, step) then t == s
            else
              && StoredAt(s, t, step.gen, step.eck) && t.suspended == s.suspended
              && t.live == (if step.reach == Stored then s.live else Some(Live(step.gen, t.row.value.eck, step.fetched.value)))
              && t.completed == (if step.reach == Finished then Some(step.gen) else s.completed)
  {
    if GrantAdmitted(s, d, step) { PutStores(s, d, step.gen, step.eck, step.fetched.value, step.reach); }
  }

  /** A restore: a start with a stored row, or the retry of a suspension. */
  predicate Restores(s: State, step: Step) {
    (step.Boot? && s.row.Some?) || (step.Retry? && s.suspended.Some?)
  }

  /** What is restored: the stored row, or the suspended install. */
  function Restored(s: State, step: Step): Suspended
    requires Restores(s, step)
  {
    if step.Boot? then Suspended(s.row.value.gen, s.row.value.eck) else s.suspended.value
  }

  /** A config that cannot be fetched only suspends: the row with its keys, the mark, the
      tombstone and the log stay as they were. */
  lemma UnfetchableSuspends(s: State, d: Daemon, step: Step)
    requires Restores(s, step) && step.fetched.None?
    ensures var t := Exec(s, d, step);
            && t.row == s.row && t.highGen == s.highGen && t.tombstoned == s.tombstoned && t.log == s.log
            && t.live.None? && t.completed.None? && t.suspended == Some(Restored(s, step))
  {
  }

  /** A fetched config resumes the install if it names this daemon at the restored
      generation, and ends it otherwise. */
  lemma FetchedDecides(s: State, d: Daemon, step: Step)
    requires Restores(s, step) && step.fetched.Some?
    ensures var t, was, config := Exec(s, d, step), Restored(s, step), step.fetched.value;
            && t.suspended.None?
            && if config.coordinator == Some(d.pubkey) && config.gen == Some(was.gen) then
                 && StoredAt(s, t, was.gen, was.eck)
                 && t.live == Some(Live(was.gen, t.row.value.eck, config))
                 && (step.finishes ==> t.completed == Some(was.gen))
               else Gone(s, t, was.gen)
  {
    var s1 := if step.Boot? then s.(live := None, completed := None, suspended := None) else s.(suspended := None);
    PutStores(s1, d, Restored(s, step).gen, Restored(s, step).eck, step.fetched.value, RestoreReach(step.finishes));
  }

  /** With nothing to restore a start only forgets what was in memory, and a retry does
      nothing. */
  lemma NothingToRestore(s: State, d: Daemon, step: Step)
    requires (step.Boot? || step.Retry?) && !Restores(s, step)
    ensures Exec(s, d, step) == if step.Boot? then State(None, s.highGen, s.tombstoned, None, None, None, s.log) else s
  {
  }

  /** However many retries find no config, the first one that fetches a config naming this
      daemon at the suspended generation ends live at it, with every held key kept. */
  lemma {:induction false} SuspensionOutlastsAnOutage(s: State, d: Daemon, first: Step, tries: seq<Step>, config: Config, finishes: bool)
    requires Restores(s, first) && first.fetched.None? && s.row.Some?
    requires forall step <- tries :: step.Retry? && step.fetched.None?
    requires config.coordinator == Some(d.pubkey) && config.gen == Some(Restored(s, first).gen)
    ensures Run(Exec(s, d, first), d, tries) == Exec(s, d, first)
    ensures var t := Exec(Run(Exec(s, d, first), d, tries), d, Retry(Some(config), finishes));
            && t.live.Some? && t.live.value.gen == Restored(s, first).gen && t.live.value.config == config
            && Members(s.row.value.eck) <= Members(t.live.value.eck)
  {
    if tries != [] {
      assert tries[|tries| - 1] in tries;
      SuspensionOutlastsAnOutage(s, d, first, tries[..|tries| - 1], config, finishes);
      UnfetchableSuspends(s, d, first);
      UnfetchableSuspends(Exec(s, d, first), d, tries[|tries| - 1]);
    }
    FetchedDecides(Exec(s, d, first), d, Retry(Some(config), finishes));
  }

  /** A live event takes up a newer config that names this daemon at its generation, is
      ended by a newer one that does not, and ignores any other. */
  lemma UpdateDoesWhatItSays(s: State, d: Daemon, config: Config)
    ensures var t := Exec(s, d, Update(config));
            if s.live.None? then t == s
            else
              var live := s.live.value;
              var newer := config.createdAt > live.config.createdAt
                           || (config.createdAt == live.config.createdAt && StrLess(config.id, live.config.id));
              if !newer then t == s
              else if config.coordinator == Some(d.pubkey) && config.gen == Some(live.gen)
              then t == s.(live := Some(Live(live.gen, live.eck, config)))
              else Gone(s, t, live.gen) && t.suspended == s.suspended
  {
    if s.live.Some? {
      SupersedesMeans(Event(config.id, Some(config.createdAt)), Event(s.live.value.config.id, Some(s.live.value.config.createdAt)));
    }
  }

  /** A minted version joins the keys of a live event, in memory and in its row; a detach
      command ends one. Without a live event neither does anything. */
  lemma MintAndDetachDoWhatTheySay(s: State, d: Daemon, version: Version)
    requires LiveIsRow(s)
    ensures var t, u := Exec(s, d, Mint(version)), Exec(s, d, DetachCommand);
            if s.live.None? then t == s && u == s
            else
              && t.live.Some? && t.live.value.eck == s.live.value.eck + [version] && LiveIsRow(t)
              && t.live.value.gen == s.live.value.gen && t.live.value.config == s.live.value.config
              && t.highGen == s.highGen && t.tombstoned == s.tombstoned && t.log == s.log
              && Gone(s, u, 0)
  {
  }

  // ---------------------------------------------------------------- keys held

  /** A live event runs at exactly its row's generation and keys. */
  ghost predicate LiveIsRow(s: State) {
    s.live.Some? ==> s.row == Some(Row(s.live.value.gen, s.live.value.eck))
  }

  /** The grant is stored while an older install goes on serving in memory. */
  ghost predicate LeavesOldServing(s: State, d: Daemon, step: Step) {
    && GrantAdmitted(s, d, step) && step.reach == Stored && s.live.Some?
    && Exec(s, d, step).row != Some(Row(s.live.value.gen, s.live.value.eck))
  }

  /** Memory and store agree after every step, except exactly a grant stored while an older
      install goes on serving. */
  lemma LiveIsRowIff(s: State, d: Daemon, step: Step)
    requires LiveIsRow(s)
    ensures LiveIsRow(Exec(s, d, step)) <==> !LeavesOldServing(s, d, step)
  {
  }

  lemma PutKeepsKeys(s: State, d: Daemon, gen: int, granted: seq<Version>, config: Config, reach: Reach)
    requires s.row.Some?
    ensures Members(s.row.value.eck) <= Members(Put(s, d, gen, granted, config, reach).row.value.eck)
  {
    UnionHoldsBoth(s.row.value.eck, granted, d.fp);
  }

  lemma RestoreKeepsKeys(s: State, d: Daemon, gen: int, eck: seq<Version>, fetched: Option<Config>, finishes: bool)
    requires s.row.Some?
    ensures var t := Restore(s, d, gen, eck, fetched, finishes);
            t.row.Some? ==> Members(s.row.value.eck) <= Members(t.row.value.eck)
  {
    if fetched.Some? { PutKeepsKeys(s.(suspended := None), d, gen, eck, fetched.value, RestoreReach(finishes)); }
  }

  lemma StepKeepsKeys(s: State, d: Daemon, step: Step)
    requires LiveIsRow(s)
    requires s.row.Some? && Exec(s, d, step).row.Some?
    ensures Members(s.row.value.eck) <= Members(Exec(s, d, step).row.value.eck)
  {
    hide Put, Restore;
    match step
    case Grant(gen, eck, inbox, fetched, reach) =>
      if GrantAdmitted(s, d, step) { PutKeepsKeys(s, d, gen, eck, fetched.value, reach); }
    case Boot(fetched, finishes) =>
      RestoreKeepsKeys(s.(live := None, completed := None, suspended := None), d, s.row.value.gen, s.row.value.eck, fetched, finishes);
    case Retry(fetched, finishes) =>
      if s.suspended.Some? { RestoreKeepsKeys(s, d, s.suspended.value.gen, s.suspended.value.eck, fetched, finishes); }
    case Update(config) =>
    case Mint(version) => assert forall v <- s.row.value.eck :: v in s.row.value.eck + [version];
    case DetachCommand =>
  }

  /** The event keeps its row throughout the run, and no grant is stored while an older
      install goes on serving. */
  ghost predicate Attached(s: State, d: Daemon, steps: seq<Step>)
    decreases |steps|
  {
    && Run(s, d, steps).row.Some?
    && (steps != [] ==>
          var init := steps[..|steps| - 1];
          Attached(s, d, init) && !LeavesOldServing(Run(s, d, init), d, steps[|steps| - 1]))
  }

  /** Between an install and a detach, over any run of grants, restores, updates and mints,
      the keys held only grow, whatever a stale grant or a stale suspension carries. */
  lemma {:induction false} KeysOnlyGrow(s: State, d: Daemon, steps: seq<Step>)
    requires LiveIsRow(s) && s.row.Some? && Attached(s, d, steps)
    ensures LiveIsRow(Run(s, d, steps))
    ensures Members(s.row.value.eck) <= Members(Run(s, d, steps).row.value.eck)
    decreases |steps|
  {
    if steps != [] {
      var init, last := steps[..|steps| - 1], steps[|steps| - 1];
      KeysOnlyGrow(s, d, init);
      LiveIsRowIff(Run(s, d, init), d, last);
      StepKeepsKeys(Run(s, d, init), d, last);
    }
  }

  /** The condition is needed: a key minted by the older install that goes on serving
      overwrites the stored list, and keeps what was held if and only if that install knew
      every key the grant brought. */
  lemma OldInstallOverwritesIff(s: State, d: Daemon, grant: Step, minted: Version)
    requires LiveIsRow(s) && LeavesOldServing(s, d, grant)
    ensures var t := Exec(s, d, grant);
            var u := Exec(t, d, Mint(minted));
            && t.row.Some? && Members(grant.eck) <= Members(t.row.value.eck) && u.row.Some?
            && (Members(t.row.value.eck) <= Members(u.row.value.eck)
                <==> Members(grant.eck) <= Members(s.live.value.eck) + {minted})
  {
    var t := Exec(s, d, grant);
    UnionHoldsBoth(s.row.value.eck, grant.eck, d.fp);
    assert Members(s.live.value.eck + [minted]) == Members(s.live.value.eck) + {minted};
  }

  /** And the very config the grant was admitted under, reaching the older install as a live
      update, detaches the event and bars the granted generation in every later state. */
  lemma OldInstallDetachesTheNew(s: State, d: Daemon, grant: Step, later: seq<Step>, again: Step)
    requires Inv(s, d) && LeavesOldServing(s, d, grant) && grant.gen != s.live.value.gen
    requires var config, applied := grant.fetched.value, s.live.value.config;
             Supersedes(Event(config.id, Some(config.createdAt)), Event(applied.id, Some(applied.createdAt)))
    requires NoGrantWhileSuspended(Exec(Exec(s, d, grant), d, Update(grant.fetched.value)), d, later)
    requires again.Grant? && again.gen <= grant.gen
    ensures var t := Exec(Exec(s, d, grant), d, Update(grant.fetched.value));
            t.row.None? && t.live.None? && !GrantAdmitted(Run(t, d, later), d, again)
  {
    var stored := Exec(s, d, grant);
    var t := Exec(stored, d, Update(grant.fetched.value));
    StepKeepsIff(s, d, grant);
    StepKeepsIff(stored, d, Update(grant.fetched.value));
    DetachedForGood(t, d, later, again, t.log[|t.log| - 1]);
  }

  // ---------------------------------------------------------------- the stale suspension

  /** A grant for a newer generation installed over a suspended event leaves the old
      suspension in place; whatever config the next retry fetches, none or any, it ends the
      new install: suspended, put back at the old generation, or detached. */
  lemma StaleSuspensionEndsTheInstall(s: State, d: Daemon, grant: Step, fetched: Option<Config>, finishes: bool)
    requires Inv(s, d) && GrantAdmitted(s, d, grant) && s.suspended.Some? && grant.gen != s.suspended.value.gen
    ensures var t := Exec(s, d, grant);
            && (grant.reach != Stored ==> t.live.Some? && t.live.value.gen == grant.gen)
            && var u := Exec(t, d, Retry(fetched, finishes));
               !(u.live.Some? && u.live.value.gen == grant.gen)
  {
  }

  /** And when that retry sees the very config the grant was admitted under, it detaches
      the event and bars the granted generation in every later state. */
  lemma StaleSuspensionDetaches(s: State, d: Daemon, grant: Step, finishes: bool, later: seq<Step>, again: Step)
    requires Inv(s, d) && GrantAdmitted(s, d, grant) && s.suspended.Some? && grant.gen != s.suspended.value.gen
    requires NoGrantWhileSuspended(Exec(Exec(s, d, grant), d, Retry(grant.fetched, finishes)), d, later)
    requires again.Grant? && again.gen <= grant.gen
    ensures var t := Exec(Exec(s, d, grant), d, Retry(grant.fetched, finishes));
            t.row.None? && t.live.None? && !GrantAdmitted(Run(t, d, later), d, again)
  {
    var unsuspended := s.(suspended := None);
    var installed := Put(unsuspended, d, grant.gen, grant.eck, grant.fetched.value, grant.reach);
    PutKeeps(unsuspended, d, grant.gen, grant.eck, grant.fetched.value, grant.reach);
    DetachKeeps(installed, d, s.suspended.value.gen);
    var t := Exec(Exec(s, d, grant), d, Retry(grant.fetched, finishes));
    assert t == Detach(installed, s.suspended.value.gen);
    DetachedForGood(t, d, later, again, t.log[|t.log| - 1]);
  }
}
