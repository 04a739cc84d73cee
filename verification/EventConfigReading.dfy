/** What a parsed 31600 config says, read straight off its tags: which tag decides each
    field, what an absent or unusable one reads as, and which events are refused. */
module EventConfigReading {
  import opened Wrappers
  import opened Text
  import opened Coordinate
  import opened EventConfig

  /** The first tag of that name stands at `i`. */
  ghost predicate FirstTag(tags: seq<Tag>, name: Name, i: nat) {
    i < |tags| && tags[i].name == name && forall j :: 0 <= j < i ==> tags[j].name != name
  }

  /** The first tag of that name carries the value. */
  ghost predicate Carries(tags: seq<Tag>, name: Name, value: string) {
    exists i: nat :: FirstTag(tags, name, i) && tags[i].values != [] && tags[i].values[0] == value
  }

  /** There is no tag of that name, or the first one carries nothing. */
  ghost predicate Absent(tags: seq<Tag>, name: Name) {
    (forall t <- tags :: t.name != name) || exists i: nat :: FirstTag(tags, name, i) && tags[i].values == []
  }

  /** Some tag of that name carries the value. */
  ghost predicate Tagged(tags: seq<Tag>, name: Name, value: string) {
    value != "" && exists t <- tags :: t.name == name && t.values != [] && t.values[0] == value
  }

  // ---------------------------------------------------------------- finding tags

  lemma {:induction false} RowsStart(tags: seq<Tag>, name: Name)
    ensures Rows(tags, name) == [] <==> forall t <- tags :: t.name != name
    ensures forall i: nat :: FirstTag(tags, name, i) ==> Rows(tags, name) != [] && Rows(tags, name)[0] == tags[i].values
  {
    if tags != [] {
      var init, last := tags[..|tags| - 1], tags[|tags| - 1];
      assert tags == init + [last];
      RowsStart(init, name);
      forall i: nat | FirstTag(tags, name, i)
        ensures Rows(tags, name) != [] && Rows(tags, name)[0] == tags[i].values
      {
        if i < |init| { assert FirstTag(init, name, i); }
      }
    }
  }

  lemma {:induction false} SomeFirst(tags: seq<Tag>, name: Name)
    ensures (forall t <- tags :: t.name != name) || exists i: nat :: FirstTag(tags, name, i)
  {
    if tags != [] {
      var init := tags[..|tags| - 1];
      SomeFirst(init, name);
      if i: nat :| FirstTag(init, name, i) {
        assert FirstTag(tags, name, i);
      } else if tags[|tags| - 1].name == name {
        assert forall j :: 0 <= j < |init| ==> init[j] == tags[j] && init[j] in init;
        assert FirstTag(tags, name, |tags| - 1);
      } else {
        assert tags == init + [tags[|tags| - 1]];
      }
    }
  }

  lemma FirstIsOne(tags: seq<Tag>, name: Name, i: nat, j: nat)
    requires FirstTag(tags, name, i) && FirstTag(tags, name, j)
    ensures i == j
  {
  }

  lemma FirstMeans(tags: seq<Tag>, name: Name)
    ensures First(tags, name) == None <==> Absent(tags, name)
    ensures forall x :: First(tags, name) == Some(x) <==> Carries(tags, name, x)
  {
    RowsStart(tags, name);
    SomeFirst(tags, name);
    if i: nat :| FirstTag(tags, name, i) {
      assert tags[i] in tags;
      forall j: nat | FirstTag(tags, name, j) ensures i == j { FirstIsOne(tags, name, i, j); }
    }
  }

  lemma {:induction false} AllMeans(tags: seq<Tag>, name: Name, x: string)
    ensures x in All(tags, name) <==> Tagged(tags, name, x)
  {
    if tags != [] {
      var init, last := tags[..|tags| - 1], tags[|tags| - 1];
      assert tags == init + [last];
      AllMeans(init, name, x);
      var rows := Rows(init, name);
      assert (rows + [last.values])[..|rows|] == rows;
    }
  }

  lemma {:induction false} FilterMeans(xs: seq<string>, p: string -> bool, x: string)
    ensures x in Filter(xs, p) <==> x in xs && p(x)
    ensures x in Reject(xs, p) <==> x in xs && !p(x)
    ensures x in Dedup(xs) <==> x in xs
  {
    if xs != [] {
      var init, last := xs[..|xs| - 1], xs[|xs| - 1];
      assert xs == init + [last];
      FilterMeans(init, p, x);
    }
  }

  // ---------------------------------------------------------------- what each field says

  /** The words: an accepted value is taken as it is, anything else is the default. */
  lemma WordsAreRead(rd: Reader, eid: string, tags: seq<Tag>)
    requires ParseEventConfig(rd, eid, tags).Ok?
    ensures var cfg := ParseEventConfig(rd, eid, tags).value;
            && (Absent(tags, Approval) ==> cfg.approval == "manual")
            && (forall x :: Carries(tags, Approval, x) ==>
                  cfg.approval == if x in ["manual", "invite", "manual+invite", "open"] then x else "manual")
            && (Absent(tags, MatchVisibility) ==> cfg.matchVisibility == "pair")
            && (forall x :: Carries(tags, MatchVisibility, x) ==> cfg.matchVisibility == if x == "event" then "event" else "pair")
            && (Absent(tags, Talks) ==> cfg.talks == "off")
            && (forall x :: Carries(tags, Talks, x) ==> cfg.talks == if x in ["on", "prerecord-first"] then x else "off")
            && (cfg.matching <==> Carries(tags, Matching, "on"))
            && (Absent(tags, Lang) ==> cfg.lang == rd.lang("en"))
            && (forall x :: Carries(tags, Lang, x) ==> cfg.lang == rd.lang(x))
  {
    hide First, Carries, Absent, IsHex64, Integer, ReadLists, ReadNumbers, ReadExtras, ReadSpaceKind;
    FirstMeans(tags, Approval);
    FirstMeans(tags, MatchVisibility);
    FirstMeans(tags, Talks);
    FirstMeans(tags, Matching);
    FirstMeans(tags, Lang);
  }

  /** A blank, unreadable or negative number is no number. */
  function Usable(rd: Reader, x: string): Option<int> {
    if rd.blank(x) || rd.number(x).None? || rd.number(x).value < 0.0 then None else Some(rd.number(x).value.Floor)
  }

  /** The numbers: rounded down when usable, the default otherwise; a key version is at
      least 1. */
  lemma NumbersAreRead(rd: Reader, eid: string, tags: seq<Tag>)
    requires ParseEventConfig(rd, eid, tags).Ok?
    ensures var cfg := ParseEventConfig(rd, eid, tags).value;
            && (Absent(tags, MaxVideoSec) ==> cfg.maxVideoSec == 90)
            && (forall x :: Carries(tags, MaxVideoSec, x) ==> cfg.maxVideoSec == if Usable(rd, x).Some? then Usable(rd, x).value else 90)
            && (Absent(tags, MaxTalkSec) ==> cfg.maxTalkSec == 900)
            && (forall x :: Carries(tags, MaxTalkSec, x) ==> cfg.maxTalkSec == if Usable(rd, x).Some? then Usable(rd, x).value else 900)
            && (Absent(tags, Eck) ==> cfg.eck == 1)
            && (forall x :: Carries(tags, Eck, x) ==>
                  cfg.eck == if Usable(rd, x).Some? && Usable(rd, x).value >= 1 then Usable(rd, x).value else 1)
            && (Absent(tags, NostrContext) ==> cfg.nostrContext == 0)
            && (forall x :: Carries(tags, NostrContext, x) ==> cfg.nostrContext == if Usable(rd, x).Some? then Usable(rd, x).value else 0)
  {
    hide First, Carries, Absent, IsHex64, Integer, ReadLists, ReadWords, ReadExtras, ReadSpaceKind;
    FirstMeans(tags, MaxVideoSec);
    FirstMeans(tags, MaxTalkSec);
    FirstMeans(tags, Eck);
    FirstMeans(tags, NostrContext);
  }

  /** The first coordinator tag names this pubkey and generation, well-formed and positive. */
  ghost predicate NamesCoordinator(rd: Reader, tags: seq<Tag>, pubkey: string, gen: int) {
    gen >= 1 && IsHex64(pubkey)
    && exists i: nat :: FirstTag(tags, EventConfig.Coordinator, i) && |tags[i].values| >= 2
                        && tags[i].values[0] == pubkey && rd.number(tags[i].values[1]) == Some(gen as real)
  }

  lemma IntegerMeans(rd: Reader, x: string, n: int)
    ensures Integer(rd, x) == Some(n) <==> rd.number(x) == Some(n as real)
  {
  }

  lemma CoordinatorMeans(rd: Reader, tags: seq<Tag>, k: string, g: int)
    ensures ReadCoordinator(rd, tags) == Some((k, g)) <==> NamesCoordinator(rd, tags, k, g)
  {
    hide IsHex64, Rows;
    var name := EventConfig.Coordinator;
    RowsStart(tags, name);
    SomeFirst(tags, name);
    if i: nat :| FirstTag(tags, name, i) {
      assert tags[i] in tags;
      if |tags[i].values| >= 2 { IntegerMeans(rd, tags[i].values[1], g); }
      forall j: nat | FirstTag(tags, name, j) ensures i == j { FirstIsOne(tags, name, i, j); }
    }
  }

  lemma CoordinatorIsRead(rd: Reader, eid: string, tags: seq<Tag>)
    requires ParseEventConfig(rd, eid, tags).Ok?
    ensures var cfg := ParseEventConfig(rd, eid, tags).value;
            && (forall k, g :: cfg.coordinator == Some(k) && cfg.coordinatorGen == Some(g) <==> NamesCoordinator(rd, tags, k, g))
            && (cfg.coordinator.None? <==> cfg.coordinatorGen.None?)
  {
    hide First, IsHex64, Integer, ReadLists, ReadWords, ReadNumbers, ReadCoordinator, ReadRetention, ReadParent, ReadSpaceKind, NamesCoordinator;
    forall k, g
      ensures ReadCoordinator(rd, tags) == Some((k, g)) <==> NamesCoordinator(rd, tags, k, g)
    {
      CoordinatorMeans(rd, tags, k, g);
    }
  }

  lemma RetentionMeans(rd: Reader, tags: seq<Tag>, n: int)
    ensures ReadRetention(rd, tags) == Some(n) <==> n >= 1 && exists x :: Carries(tags, Retention, x) && rd.number(x) == Some(n as real)
  {
    hide First, Carries, Absent;
    FirstMeans(tags, Retention);
    if First(tags, Retention).Some? { IntegerMeans(rd, First(tags, Retention).value, n); }
  }

  /** The optional fields are present exactly when their first tag carries a value they
      accept. */
  lemma OptionsAreRead(rd: Reader, eid: string, tags: seq<Tag>)
    requires ParseEventConfig(rd, eid, tags).Ok?
    ensures var cfg := ParseEventConfig(rd, eid, tags).value;
            && (forall n :: cfg.retentionDays == Some(n) <==> n >= 1 && exists x :: Carries(tags, Retention, x) && rd.number(x) == Some(n as real))
            && (forall c :: cfg.parent == Some(c) <==>
                  Carries(tags, Parent, c) && ParseCoordinate(c).Ok? && ParseCoordinate(c).value.kind == 31612)
            && Carries(tags, D, cfg.d) && Carries(tags, Inbox, cfg.inbox) && cfg.eidPubkey == eid
            && cfg.spaceKind == if Carries(tags, A, MakeCoordinate(eid, cfg.d, 31612)) then Some(31612) else None
  {
    hide First, Carries, Absent, IsHex64, Integer, ReadLists, ReadWords, ReadNumbers, ReadCoordinator, ReadRetention, ParseCoordinate;
    FirstMeans(tags, Parent);
    FirstMeans(tags, D);
    FirstMeans(tags, Inbox);
    FirstMeans(tags, A);
    forall n
      ensures ReadRetention(rd, tags) == Some(n) <==> n >= 1 && exists x :: Carries(tags, Retention, x) && rd.number(x) == Some(n as real)
    {
      RetentionMeans(rd, tags, n);
    }
  }

  // ---------------------------------------------------------------- the lists

  ghost predicate ChildTag(tags: seq<Tag>, c: string) {
    Tagged(tags, Child, c) && ParseCoordinate(c).Ok? && ParseCoordinate(c).value.kind == 31923
  }

  /** The lists hold what the tags hold, less what is not accepted: an interop relay moves to
      the chat relays, and children stop at the cap. */
  lemma ListsAreRead(rd: Reader, eid: string, tags: seq<Tag>)
    requires ParseEventConfig(rd, eid, tags).Ok?
    ensures var cfg := ParseEventConfig(rd, eid, tags).value;
            && (forall r :: r in cfg.relays <==> Tagged(tags, Relay, r) && rd.wss(r) && !rd.interop(r))
            && (forall r :: r in cfg.chatRelays <==>
                  rd.wss(r) && (Tagged(tags, ChatRelay, r) || (Tagged(tags, Relay, r) && rd.interop(r))))
            && (forall b :: b in cfg.blossom <==> Tagged(tags, Blossom, b) && rd.https(b))
            && cfg.chat == (if Tagged(tags, Chat, "marmot") then ["marmot"] else [])
  {
    hide All, Filter, Reject, Dedup;
    forall r
      ensures r in Reject(Filter(All(tags, Relay), rd.wss), rd.interop) <==> Tagged(tags, Relay, r) && rd.wss(r) && !rd.interop(r)
      ensures r in ReadChatRelays(rd, tags) <==> rd.wss(r) && (Tagged(tags, ChatRelay, r) || (Tagged(tags, Relay, r) && rd.interop(r)))
      ensures r in Filter(All(tags, Blossom), rd.https) <==> Tagged(tags, Blossom, r) && rd.https(r)
    {
      RelayIsRead(rd, tags, r);
    }
    ChatIsRead(tags);
  }

  lemma RelayIsRead(rd: Reader, tags: seq<Tag>, r: string)
    ensures r in Reject(Filter(All(tags, Relay), rd.wss), rd.interop) <==> Tagged(tags, Relay, r) && rd.wss(r) && !rd.interop(r)
    ensures r in ReadChatRelays(rd, tags) <==> rd.wss(r) && (Tagged(tags, ChatRelay, r) || (Tagged(tags, Relay, r) && rd.interop(r)))
    ensures r in Filter(All(tags, Blossom), rd.https) <==> Tagged(tags, Blossom, r) && rd.https(r)
  {
    AllMeans(tags, Relay, r);
    AllMeans(tags, ChatRelay, r);
    AllMeans(tags, Blossom, r);
    var relays := Filter(All(tags, Relay), rd.wss);
    FilterMeans(All(tags, Relay), rd.wss, r);
    FilterMeans(relays, rd.interop, r);
    FilterMeans(All(tags, ChatRelay), rd.wss, r);
    FilterMeans(Filter(All(tags, ChatRelay), rd.wss) + Filter(relays, rd.interop), rd.wss, r);
    FilterMeans(All(tags, Blossom), rd.https, r);
  }

  lemma ChatIsRead(tags: seq<Tag>)
    ensures Dedup(Filter(All(tags, Chat), IsBackend)) == if Tagged(tags, Chat, "marmot") then ["marmot"] else []
  {
    var kept := Filter(All(tags, Chat), IsBackend);
    OneBackend(Dedup(kept));
    AllMeans(tags, Chat, "marmot");
    FilterMeans(All(tags, Chat), IsBackend, "marmot");
    FilterMeans(kept, IsBackend, "marmot");
  }

  /** Children are the tagged event coordinates, each once, all of them up to 500. */
  lemma ChildrenAreRead(rd: Reader, eid: string, tags: seq<Tag>)
    requires ParseEventConfig(rd, eid, tags).Ok?
    ensures var children := ParseEventConfig(rd, eid, tags).value.children;
            && (children.None? <==> !exists c :: ChildTag(tags, c))
            && (children.Some? ==>
                  && NoRepeats(children.value) && |children.value| <= 500
                  && (forall c <- children.value :: ChildTag(tags, c))
                  && (|children.value| < 500 ==> forall c :: ChildTag(tags, c) ==> c in children.value))
  {
    var all := Dedup(Filter(All(tags, Child), IsChild));
    forall c
      ensures c in all <==> ChildTag(tags, c)
    {
      AllMeans(tags, Child, c);
      FilterMeans(All(tags, Child), IsChild, c);
      FilterMeans(Filter(All(tags, Child), IsChild), IsChild, c);
    }
    if all != [] { assert ChildTag(tags, all[0]); }
    TakeKeeps(all, MAX_CHILDREN);
  }

  // ---------------------------------------------------------------- what is refused

  ghost predicate Identified(tags: seq<Tag>) {
    && (exists d :: d != "" && Carries(tags, D, d))
    && (exists inbox :: IsHex64(inbox) && Carries(tags, Inbox, inbox))
  }

  /** The version tag carries this integer. */
  ghost predicate Versioned(rd: Reader, tags: seq<Tag>, v: int) {
    exists x :: Carries(tags, V, x) && rd.number(x) == Some(v as real)
  }

  /** A config is accepted exactly when it has an identifier and a well-formed inbox and is
      of version 2; a newer integer version is reported as such. */
  lemma AcceptedIff(rd: Reader, eid: string, tags: seq<Tag>)
    ensures var r := ParseEventConfig(rd, eid, tags);
            && (r.Ok? <==> Identified(tags) && Versioned(rd, tags, 2))
            && (r == Err(MISSING) <==> !Identified(tags))
            && (r == Err(NEWER) <==> Identified(tags) && exists v :: v > 2 && Versioned(rd, tags, v))
  {
    FirstMeans(tags, D);
    FirstMeans(tags, Inbox);
    FirstMeans(tags, V);
    var raw := First(tags, V);
    forall v
      ensures Versioned(rd, tags, v) <==> raw.Some? && Integer(rd, raw.value) == Some(v)
    {
      if raw.Some? { IntegerMeans(rd, raw.value, v); }
    }
    assert MISSING != NEWER && MISSING != UNSUPPORTED && NEWER != UNSUPPORTED by { assert |MISSING| != |NEWER| && |NEWER| != |UNSUPPORTED|; }
  }

  /** A build fails exactly when a field it must vouch for is not acceptable. */
  lemma BuildFailsIff(rd: Reader, cfg: Config)
    ensures BuildEventConfig(rd, cfg).Err? <==>
              || (cfg.spaceKind.Some? && cfg.spaceKind.value != 31923 && cfg.spaceKind.value != 31612)
              || (cfg.coordinator.Some? && cfg.coordinator.value != "" && (cfg.coordinatorGen.None? || cfg.coordinatorGen.value < 1))
              || (cfg.retentionDays.Some? && cfg.retentionDays.value < 1)
              || (cfg.parent.Some? && cfg.parent.value != ""
                  && !(ParseCoordinate(cfg.parent.value).Ok? && ParseCoordinate(cfg.parent.value).value.kind == 31612))
              || (cfg.children.Some?
                  && (|Dedup(cfg.children.value)| > 500
                      || exists c <- cfg.children.value :: !(ParseCoordinate(c).Ok? && ParseCoordinate(c).value.kind == 31923)))
  {
    if cfg.children.Some? {
      forall c ensures c in Dedup(cfg.children.value) <==> c in cfg.children.value {
        FilterMeans(cfg.children.value, IsChild, c);
      }
    }
  }

  /** Building and parsing gives a config back if and only if it is canonical. */
  lemma RoundTripsIff(rd: Reader, eid: string, cfg: Config)
    requires Faithful(rd)
    ensures Canonical(rd, cfg) && cfg.eidPubkey == eid <==>
              BuildEventConfig(rd, cfg).Ok? && ParseEventConfig(rd, eid, BuildEventConfig(rd, cfg).value) == Ok(cfg)
  {
    if Canonical(rd, cfg) && cfg.eidPubkey == eid {
      CanonicalRoundTrips(rd, eid, cfg);
    } else if BuildEventConfig(rd, cfg).Ok? && ParseEventConfig(rd, eid, BuildEventConfig(rd, cfg).value) == Ok(cfg) {
      ParsedIsCanonical(rd, eid, BuildEventConfig(rd, cfg).value);
    }
  }
}
