/** The tag codec of the 31600 event config. `Reader` stands for what the platform does:
    printing and reading numbers, classifying URLs, trimming and lower-casing a language. */
module EventConfig {
  import opened Wrappers
  import opened Text
  import opened Coordinate

  const KIND_CALENDAR_EVENT := 31923
  const KIND_COMMUNITY := 31612
  const PROTOCOL_VERSION := 2
  const MAX_CHILDREN := 500

  datatype Name =
    | D | A | V | Inbox | Coordinator | Relay | ChatRelay | Blossom | MaxVideoSec | MaxTalkSec | Matching
    | MatchVisibility | Approval | Eck | NostrContext | Lang | Talks | Chat | Retention | Parent | Child
    | Other(text: string)

  /** A tag: its name, and what follows it. */
  datatype Tag = Tag(name: Name, values: seq<string>)

  datatype Config = Config(
    d: string, eidPubkey: string, inbox: string,
    coordinator: Option<string>, coordinatorGen: Option<int>,
    relays: seq<string>, chatRelays: seq<string>, blossom: seq<string>,
    maxVideoSec: nat, maxTalkSec: nat,
    matching: bool, matchVisibility: string, approval: string,
    eck: nat, nostrContext: nat, lang: string, talks: string, chat: seq<string>,
    retentionDays: Option<int>, parent: Option<string>, children: Option<seq<string>>, spaceKind: Option<nat>)

  /** `number` is None for NaN and the infinities; `blank` is an empty `trim()`. */
  datatype Reader = Reader(
    number: string -> Option<real>, print_: nat -> string, blank: string -> bool,
    wss: string -> bool, https: string -> bool, interop: string -> bool, lang: string -> string)

  predicate TwoLetters(s: string) {
    |s| == 2 && 'a' <= s[0] <= 'z' && 'a' <= s[1] <= 'z'
  }

  /** Printed numbers read back, and a normalized language is a fixed two-letter code. */
  ghost predicate Faithful(rd: Reader) {
    && (forall n: nat :: rd.number(rd.print_(n)) == Some(n as real) && !rd.blank(rd.print_(n)))
    && (forall s :: TwoLetters(rd.lang(s)) && (TwoLetters(s) ==> rd.lang(s) == s))
  }

  // ---------------------------------------------------------------- reading tags

  /** What follows the name, in each tag of that name. */
  function Rows(tags: seq<Tag>, name: Name): seq<seq<string>> {
    if tags == [] then []
    else
      var before := Rows(tags[..|tags| - 1], name);
      var t := tags[|tags| - 1];
      if t.name == name then before + [t.values] else before
  }

  function First(tags: seq<Tag>, name: Name): Option<string> {
    var rows := Rows(tags, name);
    if rows == [] || rows[0] == [] then None else Some(rows[0][0])
  }

  function Heads(rows: seq<seq<string>>): seq<string> {
    if rows == [] then []
    else
      var row := rows[|rows| - 1];
      Heads(rows[..|rows| - 1]) + if row == [] || row[0] == "" then [] else [row[0]]
  }

  function All(tags: seq<Tag>, name: Name): seq<string> {
    Heads(Rows(tags, name))
  }

  function Filter(xs: seq<string>, p: string -> bool): (r: seq<string>)
    ensures forall x <- r :: x in xs && p(x)
  {
    if xs == [] then []
    else Filter(xs[..|xs| - 1], p) + if p(xs[|xs| - 1]) then [xs[|xs| - 1]] else []
  }

  function Reject(xs: seq<string>, p: string -> bool): (r: seq<string>)
    ensures forall x <- r :: x in xs && !p(x)
  {
    if xs == [] then []
    else Reject(xs[..|xs| - 1], p) + if p(xs[|xs| - 1]) then [] else [xs[|xs| - 1]]
  }

  /** The known group-chat backend. */
  predicate IsBackend(c: string) {
    c == "marmot"
  }

  /** First occurrences, in order. */
  function Dedup(xs: seq<string>): (r: seq<string>)
    ensures forall x <- r :: x in xs
    ensures forall i, j :: 0 <= i < j < |r| ==> r[i] != r[j]
  {
    if xs == [] then []
    else
      var before := Dedup(xs[..|xs| - 1]);
      if xs[|xs| - 1] in before then before else before + [xs[|xs| - 1]]
  }

  function IntTag(rd: Reader, tags: seq<Tag>, name: Name, default_: nat): nat {
    var raw := First(tags, name);
    if raw.None? || rd.blank(raw.value) then default_
    else
      var n := rd.number(raw.value);
      if n.Some? && n.value >= 0.0 then n.value.Floor else default_
  }

  /** `Number.isInteger`, with the value. */
  function Integer(rd: Reader, raw: string): Option<int> {
    var n := rd.number(raw);
    if n.Some? && n.value == n.value.Floor as real then Some(n.value.Floor) else None
  }

  function OneOf(raw: Option<string>, allowed: seq<string>, default_: string): string {
    if raw.Some? && raw.value in allowed then raw.value else default_
  }

  const APPROVALS := ["manual", "invite", "manual+invite", "open"]
  const VISIBILITIES := ["pair", "event"]
  const TALKS_MODES := ["off", "on", "prerecord-first"]

  predicate IsParent(c: string) {
    ParseCoordinate(c).Ok? && ParseCoordinate(c).value.kind == KIND_COMMUNITY
  }

  predicate IsChild(c: string) {
    ParseCoordinate(c).Ok? && ParseCoordinate(c).value.kind == KIND_CALENDAR_EVENT
  }

  /** The coordinator and its generation, or neither. */
  function ReadCoordinator(rd: Reader, tags: seq<Tag>): Option<(string, int)> {
    var rows := Rows(tags, Coordinator);
    if rows == [] || |rows[0]| < 2 || !IsHex64(rows[0][0]) then None
    else
      var gen := Integer(rd, rows[0][1]);
      if gen.Some? && gen.value >= 1 then Some((rows[0][0], gen.value)) else None
  }

  function ReadRetention(rd: Reader, tags: seq<Tag>): Option<int> {
    var raw := First(tags, Retention);
    if raw.None? then None
    else
      var n := Integer(rd, raw.value);
      if n.Some? && n.value >= 1 then n else None
  }

  /** The chat-only relays: the tagged ones, then those found among the ordinary relays. */
  function ReadChatRelays(rd: Reader, tags: seq<Tag>): seq<string> {
    Dedup(Filter(All(tags, ChatRelay), rd.wss) + Filter(Filter(All(tags, Relay), rd.wss), rd.interop))
  }

  function Take(xs: seq<string>, n: nat): seq<string> {
    if n < |xs| then xs[..n] else xs
  }

  function ReadChildren(tags: seq<Tag>): Option<seq<string>> {
    var c := Take(Dedup(Filter(All(tags, Child), IsChild)), MAX_CHILDREN);
    if c == [] then None else Some(c)
  }

  const MISSING := "31600 config missing d or inbox"
  const NEWER := "payload requires a newer protocol version"
  const UNSUPPORTED := "31600 config: unsupported v tag"

  function ParseEventConfig(rd: Reader, eid: string, tags: seq<Tag>): Result<Config> {
    var d, inbox := First(tags, D), First(tags, Inbox);
    if d.None? || d.value == "" || inbox.None? || !IsHex64(inbox.value) then Err(MISSING)
    else
      var raw := First(tags, V);
      var v := if raw.None? then None else Integer(rd, raw.value);
      if v.Some? && v.value > PROTOCOL_VERSION then Err(NEWER)
      else if v != Some(PROTOCOL_VERSION) then Err(UNSUPPORTED)
      else Ok(ReadConfig(rd, eid, tags, d.value, inbox.value))
  }

  /** The fields of a config, by how their tags are read. */
  datatype Lists = Lists(relays: seq<string>, chatRelays: seq<string>, blossom: seq<string>, chat: seq<string>, children: Option<seq<string>>)

  datatype Numbers = Numbers(maxVideoSec: nat, maxTalkSec: nat, eck: nat, nostrContext: nat)

  datatype Words = Words(matching: bool, matchVisibility: string, approval: string, lang: string, talks: string)

  datatype Extras = Extras(coordinator: Option<(string, int)>, retentionDays: Option<int>, parent: Option<string>)

  function ReadLists(rd: Reader, tags: seq<Tag>): Lists {
    Lists(Reject(Filter(All(tags, Relay), rd.wss), rd.interop), ReadChatRelays(rd, tags), Filter(All(tags, Blossom), rd.https),
          Dedup(Filter(All(tags, Chat), IsBackend)), ReadChildren(tags))
  }

  function ReadNumbers(rd: Reader, tags: seq<Tag>): Numbers {
    var eck := IntTag(rd, tags, Eck, 1);
    Numbers(IntTag(rd, tags, MaxVideoSec, 90), IntTag(rd, tags, MaxTalkSec, 900),
            if eck < 1 then 1 else eck, IntTag(rd, tags, NostrContext, 0))
  }

  function ReadWords(rd: Reader, tags: seq<Tag>): Words {
    Words(First(tags, Matching) == Some("on"),
          OneOf(First(tags, MatchVisibility), VISIBILITIES, "pair"),
          OneOf(First(tags, Approval), APPROVALS, "manual"),
          rd.lang(if First(tags, Lang).None? then "en" else First(tags, Lang).value),
          OneOf(First(tags, Talks), TALKS_MODES, "off"))
  }

  function ReadParent(tags: seq<Tag>): Option<string> {
    var parent := First(tags, Parent);
    if parent.Some? && IsParent(parent.value) then parent else None
  }

  function ReadExtras(rd: Reader, tags: seq<Tag>): Extras {
    Extras(ReadCoordinator(rd, tags), ReadRetention(rd, tags), ReadParent(tags))
  }

  function ReadSpaceKind(eid: string, tags: seq<Tag>, d: string): Option<nat> {
    if First(tags, A) == Some(MakeCoordinate(eid, d, KIND_COMMUNITY)) then Some(KIND_COMMUNITY) else None
  }

  function Assemble(eid: string, d: string, inbox: string, l: Lists, n: Numbers, w: Words, x: Extras, kind: Option<nat>): Config {
    Config(d, eid, inbox,
           if x.coordinator.None? then None else Some(x.coordinator.value.0),
           if x.coordinator.None? then None else Some(x.coordinator.value.1),
           l.relays, l.chatRelays, l.blossom, n.maxVideoSec, n.maxTalkSec, w.matching, w.matchVisibility, w.approval,
           n.eck, n.nostrContext, w.lang, w.talks, l.chat, x.retentionDays, x.parent, l.children, kind)
  }

  function ReadConfig(rd: Reader, eid: string, tags: seq<Tag>, d: string, inbox: string): Config {
    Assemble(eid, d, inbox, ReadLists(rd, tags), ReadNumbers(rd, tags), ReadWords(rd, tags), ReadExtras(rd, tags),
             ReadSpaceKind(eid, tags, d))
  }

  // ---------------------------------------------------------------- building tags

  function Each(values: seq<string>): (rows: seq<seq<string>>)
    ensures |rows| == |values| && forall i :: 0 <= i < |values| ==> rows[i] == [values[i]]
  {
    seq(|values|, i requires 0 <= i < |values| => [values[i]])
  }

  /** The tags of one name. */
  function Emit(name: Name, rows: seq<seq<string>>): seq<Tag> {
    if rows == [] then [] else Emit(name, rows[..|rows| - 1]) + [Tag(name, rows[|rows| - 1])]
  }

  function Present(s: Option<string>): bool {
    s.Some? && s.value != ""
  }

  const BAD_KIND := "31600 config: unknown spaceKind"
  const BAD_GEN := "31600 config: coordinator requires a positive integer coordinatorGen"
  const BAD_RETENTION := "31600 config: retentionDays must be a positive integer"
  const BAD_PARENT := "31600 config: parent must be a 31612 community coordinate"
  const TOO_MANY_CHILDREN := "31600 config: too many child events"
  const BAD_CHILD := "31600 config: child must be a 31923 event coordinate"

  function Children(cfg: Config): seq<string> {
    Dedup(if cfg.children.None? then [] else cfg.children.value)
  }

  function Fault(cfg: Config): Option<string> {
    if cfg.spaceKind.Some? && cfg.spaceKind.value != KIND_CALENDAR_EVENT && cfg.spaceKind.value != KIND_COMMUNITY then Some(BAD_KIND)
    else if Present(cfg.coordinator) && (cfg.coordinatorGen.None? || cfg.coordinatorGen.value < 1) then Some(BAD_GEN)
    else if cfg.retentionDays.Some? && cfg.retentionDays.value < 1 then Some(BAD_RETENTION)
    else if Present(cfg.parent) && !IsParent(cfg.parent.value) then Some(BAD_PARENT)
    else if |Children(cfg)| > MAX_CHILDREN then Some(TOO_MANY_CHILDREN)
    else if exists c <- Children(cfg) :: !IsChild(c) then Some(BAD_CHILD)
    else None
  }

  function Address(cfg: Config): string {
    MakeCoordinate(cfg.eidPubkey, cfg.d, if cfg.spaceKind.None? then KIND_CALENDAR_EVENT else cfg.spaceKind.value)
  }

  /** What is pushed under each name. */
  function RowsFor(rd: Reader, cfg: Config, name: Name): seq<seq<string>> {
    match name
    case D => [[cfg.d]]
    case A => [[Address(cfg)]]
    case V => [[rd.print_(PROTOCOL_VERSION)]]
    case Inbox => [[cfg.inbox]]
    case Coordinator => if Present(cfg.coordinator) && cfg.coordinatorGen.Some? && cfg.coordinatorGen.value >= 1 then [[cfg.coordinator.value, rd.print_(cfg.coordinatorGen.value)]] else []
    case Relay => Each(cfg.relays)
    case ChatRelay => Each(cfg.chatRelays)
    case Blossom => Each(cfg.blossom)
    case MaxVideoSec => [[rd.print_(cfg.maxVideoSec)]]
    case MaxTalkSec => [[rd.print_(cfg.maxTalkSec)]]
    case Matching => [[if cfg.matching then "on" else "off"]]
    case MatchVisibility => [[cfg.matchVisibility]]
    case Approval => [[cfg.approval]]
    case Eck => [[rd.print_(cfg.eck)]]
    case NostrContext => [[rd.print_(cfg.nostrContext)]]
    case Lang => if rd.lang(cfg.lang) != "en" then [[rd.lang(cfg.lang)]] else []
    case Talks => if cfg.talks != "" && cfg.talks != "off" then [[cfg.talks]] else []
    case Chat => Each(Filter(cfg.chat, IsBackend))
    case Retention => if cfg.retentionDays.Some? && cfg.retentionDays.value >= 1 then [[rd.print_(cfg.retentionDays.value)]] else []
    case Parent => if Present(cfg.parent) then [[cfg.parent.value]] else []
    case Child => Each(Children(cfg))
    case Other(_) => []
  }

  /** The names in the order their tags are pushed. */
  const ORDER: seq<Name> :=
    [D, A, V, Inbox, Coordinator, Relay, ChatRelay, Blossom, MaxVideoSec, MaxTalkSec, Matching, MatchVisibility,
     Approval, Eck, NostrContext, Lang, Talks, Chat, Retention, Parent, Child]

  type Pushed = Name -> seq<seq<string>>

  function EmitNames(rows: Pushed, names: seq<Name>): seq<Tag> {
    if names == [] then []
    else EmitNames(rows, names[..|names| - 1]) + Emit(names[|names| - 1], rows(names[|names| - 1]))
  }

  function PushedBy(rd: Reader, cfg: Config): Pushed {
    name => RowsFor(rd, cfg, name)
  }

  function BuildEventConfig(rd: Reader, cfg: Config): Result<seq<Tag>> {
    if Fault(cfg).Some? then Err(Fault(cfg).value) else Ok(EmitNames(PushedBy(rd, cfg), ORDER))
  }

  // ---------------------------------------------------------------- the two loops

  method BuildTags(rd: Reader, cfg: Config) returns (r: Result<seq<Tag>>)
    ensures r == BuildEventConfig(rd, cfg)
  {
    var fault := Fault(cfg);
    if fault.Some? { return Err(fault.value); }
    var tags := PushAll(PushedBy(rd, cfg), ORDER);
    r := Ok(tags);
  }

  method PushAll(rows: Pushed, names: seq<Name>) returns (tags: seq<Tag>)
    ensures tags == EmitNames(rows, names)
  {
    tags := [];
    for i := 0 to |names|
      invariant tags == EmitNames(rows, names[..i])
    {
      assert names[..i + 1][..i] == names[..i];
      var values := rows(names[i]);
      ghost var before := tags;
      for j := 0 to |values|
        invariant tags == before + Emit(names[i], values[..j])
      {
        assert values[..j + 1][..j] == values[..j];
        tags := tags + [Tag(names[i], values[j])];
      }
      assert values[..|values|] == values;
    }
    assert names[..|names|] == names;
  }

  /** Push what is not there yet. */
  method CollectDistinct(values: seq<string>) returns (r: seq<string>)
    ensures r == Dedup(values)
  {
    r := [];
    for i := 0 to |values|
      invariant r == Dedup(values[..i])
    {
      assert values[..i + 1][..i] == values[..i];
      if values[i] !in r { r := r + [values[i]]; }
    }
    assert values[..|values|] == values;
  }

  method ParseTags(rd: Reader, eid: string, tags: seq<Tag>) returns (r: Result<Config>)
    ensures r == ParseEventConfig(rd, eid, tags)
  {
    var d, inbox := First(tags, D), First(tags, Inbox);
    if d.None? || d.value == "" || inbox.None? || !IsHex64(inbox.value) { return Err(MISSING); }
    var raw := First(tags, V);
    var v := if raw.None? then None else Integer(rd, raw.value);
    if v.Some? && v.value > PROTOCOL_VERSION { return Err(NEWER); }
    if v != Some(PROTOCOL_VERSION) { return Err(UNSUPPORTED); }
    var relays := Filter(All(tags, Relay), rd.wss);
    var chatRelays := CollectDistinct(Filter(All(tags, ChatRelay), rd.wss) + Filter(relays, rd.interop));
    var chat := CollectDistinct(Filter(All(tags, Chat), IsBackend));
    var lists := Lists(Reject(relays, rd.interop), chatRelays, Filter(All(tags, Blossom), rd.https), chat, ReadChildren(tags));
    r := Ok(Assemble(eid, d.value, inbox.value, lists, ReadNumbers(rd, tags), ReadWords(rd, tags), ReadExtras(rd, tags),
                     ReadSpaceKind(eid, tags, d.value)));
  }

  // ---------------------------------------------------------------- what a build holds

  lemma {:induction false} RowsConcat(a: seq<Tag>, b: seq<Tag>, name: Name)
    ensures Rows(a + b, name) == Rows(a, name) + Rows(b, name)
    decreases |b|
  {
    if b == [] {
      assert a + b == a;
    } else {
      assert (a + b)[..|a + b| - 1] == a + b[..|b| - 1];
      RowsConcat(a, b[..|b| - 1], name);
    }
  }

  lemma {:induction false} RowsOfEmit(of: Name, rows: seq<seq<string>>, name: Name)
    ensures Rows(Emit(of, rows), name) == if of == name then rows else []
    decreases |rows|
  {
    if rows != [] {
      var init := rows[..|rows| - 1];
      RowsOfEmit(of, init, name);
      var t := Tag(of, rows[|rows| - 1]);
      assert (Emit(of, init) + [t])[..|Emit(of, init)|] == Emit(of, init);
      assert rows == init + [rows[|rows| - 1]];
    }
  }

  lemma EmitLast(rows: Pushed, names: seq<Name>)
    ensures names == [] ==> forall name :: Rows(EmitNames(rows, names), name) == []
    ensures names != [] ==>
              var init, last := names[..|names| - 1], names[|names| - 1];
              EmitNames(rows, names) == EmitNames(rows, init) + Emit(last, rows(last))
  {
  }

  lemma {:induction false} RowsOfNames(rows: Pushed, names: seq<Name>, name: Name)
    requires forall i, j :: 0 <= i < j < |names| ==> names[i] != names[j]
    ensures Rows(EmitNames(rows, names), name) == if name in names then rows(name) else []
    decreases |names|
  {
    hide Rows, EmitNames, Emit;
    EmitLast(rows, names);
    if names != [] {
      var init, last := names[..|names| - 1], names[|names| - 1];
      assert names == init + [last];
      assert forall i :: 0 <= i < |init| ==> init[i] == names[i] && names[i] != names[|names| - 1];
      RowsOfNames(rows, init, name);
      RowsConcat(EmitNames(rows, init), Emit(last, rows(last)), name);
      RowsOfEmit(last, rows(last), name);
    }
  }

  /** Where a name stands in the order. */
  function Rank(name: Name): nat {
    match name
    case D => 0 case A => 1 case V => 2 case Inbox => 3 case Coordinator => 4 case Relay => 5 case ChatRelay => 6
    case Blossom => 7 case MaxVideoSec => 8 case MaxTalkSec => 9 case Matching => 10 case MatchVisibility => 11
    case Approval => 12 case Eck => 13 case NostrContext => 14 case Lang => 15 case Talks => 16 case Chat => 17
    case Retention => 18 case Parent => 19 case Child => 20 case Other(_) => 21
  }

  /** The tags hold, under each name, what the builder pushes. */
  ghost predicate Holds(rd: Reader, cfg: Config, tags: seq<Tag>) {
    forall name: Name :: !name.Other? ==> Rows(tags, name) == RowsFor(rd, cfg, name)
  }

  lemma OrderIsDistinct(name: Name)
    requires !name.Other?
    ensures name in ORDER && forall i, j :: 0 <= i < j < |ORDER| ==> ORDER[i] != ORDER[j]
  {
    assert |ORDER| == 21;
    assert forall i :: 0 <= i < |ORDER| ==> Rank(ORDER[i]) == i;
    assert ORDER[Rank(name)] == name;
  }

  /** Reading a name out of what was built gives back what was pushed under it. */
  lemma BuiltHolds(rd: Reader, cfg: Config, names: seq<Name>)
    requires names == ORDER
    ensures Holds(rd, cfg, EmitNames(PushedBy(rd, cfg), names))
  {
    forall name: Name | !name.Other?
      ensures Rows(EmitNames(PushedBy(rd, cfg), names), name) == RowsFor(rd, cfg, name)
    {
      OrderIsDistinct(name);
      RowsOfNames(PushedBy(rd, cfg), names, name);
    }
  }

  // ---------------------------------------------------------------- lists that survive

  lemma {:induction false} HeadsOfEach(values: seq<string>)
    requires "" !in values
    ensures Heads(Each(values)) == values
    decreases |values|
  {
    if values != [] {
      var init, v := values[..|values| - 1], values[|values| - 1];
      HeadsOfEach(init);
      assert Each(values) == Each(init) + [[v]];
      assert v in values;
      assert values == init + [v];
    }
  }

  lemma {:induction false} HeadsNonEmpty(rows: seq<seq<string>>)
    ensures "" !in Heads(rows)
  {
    if rows != [] { HeadsNonEmpty(rows[..|rows| - 1]); }
  }

  lemma {:induction false} FilterAll(xs: seq<string>, p: string -> bool)
    requires forall x <- xs :: p(x)
    ensures Filter(xs, p) == xs
  {
    if xs != [] {
      var init, x := xs[..|xs| - 1], xs[|xs| - 1];
      assert xs == init + [x];
      assert x in xs;
      assert forall y <- init :: y in xs;
      FilterAll(init, p);
    }
  }

  lemma {:induction false} FilterNone(xs: seq<string>, p: string -> bool)
    requires forall x <- xs :: !p(x)
    ensures Filter(xs, p) == []
  {
    if xs != [] {
      assert xs[|xs| - 1] in xs;
      FilterNone(xs[..|xs| - 1], p);
    }
  }

  lemma {:induction false} RejectNone(xs: seq<string>, p: string -> bool)
    requires forall x <- xs :: !p(x)
    ensures Reject(xs, p) == xs
  {
    if xs != [] {
      var init, x := xs[..|xs| - 1], xs[|xs| - 1];
      assert xs == init + [x];
      assert x in xs;
      assert forall y <- init :: y in xs;
      RejectNone(init, p);
    }
  }

  ghost predicate NoRepeats(xs: seq<string>) {
    forall i, j :: 0 <= i < j < |xs| ==> xs[i] != xs[j]
  }

  lemma {:induction false} DedupStays(xs: seq<string>)
    requires NoRepeats(xs)
    ensures Dedup(xs) == xs
  {
    if xs != [] {
      var init, x := xs[..|xs| - 1], xs[|xs| - 1];
      assert forall i, j :: 0 <= i < j < |init| ==> init[i] == xs[i] && init[j] == xs[j];
      DedupStays(init);
      assert x !in init by {
        forall i | 0 <= i < |init|
          ensures init[i] != x
        {
          assert xs[i] != xs[|xs| - 1];
        }
      }
      assert xs == init + [x];
    }
  }

  /** A list of single-valued tags, all accepted, reads back as it was. */
  lemma ListSurvives(values: seq<string>, rows: seq<seq<string>>, p: string -> bool)
    requires rows == Each(values) && "" !in values && forall v <- values :: p(v)
    ensures Filter(Heads(rows), p) == values
  {
    HeadsOfEach(values);
    FilterAll(values, p);
  }

  // ---------------------------------------------------------------- what parsing yields

  ghost predicate CanonicalLists(rd: Reader, l: Lists) {
    && "" !in l.relays && (forall r <- l.relays :: rd.wss(r) && !rd.interop(r))
    && "" !in l.chatRelays && NoRepeats(l.chatRelays) && (forall r <- l.chatRelays :: rd.wss(r))
    && "" !in l.blossom && (forall b <- l.blossom :: rd.https(b))
    && (l.chat == [] || l.chat == ["marmot"])
    && (l.children.Some? ==> l.children.value != [] && |l.children.value| <= MAX_CHILDREN
                             && "" !in l.children.value && NoRepeats(l.children.value)
                             && forall c <- l.children.value :: IsChild(c))
  }

  ghost predicate CanonicalWords(w: Words) {
    w.matchVisibility in VISIBILITIES && w.approval in APPROVALS && w.talks in TALKS_MODES && TwoLetters(w.lang)
  }

  function ListsOf(cfg: Config): Lists {
    Lists(cfg.relays, cfg.chatRelays, cfg.blossom, cfg.chat, cfg.children)
  }

  function WordsOf(cfg: Config): Words {
    Words(cfg.matching, cfg.matchVisibility, cfg.approval, cfg.lang, cfg.talks)
  }

  /** What holds of every parsed config. */
  ghost predicate Canonical(rd: Reader, cfg: Config) {
    && cfg.d != "" && IsHex64(cfg.inbox)
    && (cfg.coordinator.Some? <==> cfg.coordinatorGen.Some?)
    && (cfg.coordinator.Some? ==> IsHex64(cfg.coordinator.value) && cfg.coordinatorGen.value >= 1)
    && CanonicalLists(rd, ListsOf(cfg)) && CanonicalWords(WordsOf(cfg))
    && cfg.eck >= 1
    && (cfg.retentionDays.Some? ==> cfg.retentionDays.value >= 1)
    && (cfg.parent.Some? ==> IsParent(cfg.parent.value))
    && (cfg.spaceKind.Some? ==> cfg.spaceKind.value == KIND_COMMUNITY)
  }

  lemma OneBackend(xs: seq<string>)
    requires NoRepeats(xs) && forall x <- xs :: IsBackend(x)
    ensures xs == [] || xs == ["marmot"]
  {
    forall i | 0 <= i < |xs|
      ensures IsBackend(xs[i])
    {
      assert xs[i] in xs;
    }
    if |xs| >= 2 { SameTwice(xs, 0, 1); }
  }

  lemma SameTwice(xs: seq<string>, i: nat, j: nat)
    requires NoRepeats(xs) && i < j < |xs|
    ensures xs[i] != xs[j]
  {
  }

  lemma TakeKeeps(xs: seq<string>, n: nat)
    requires NoRepeats(xs) && n > 0
    ensures NoRepeats(Take(xs, n)) && |Take(xs, n)| <= n && forall x <- Take(xs, n) :: x in xs
  {
  }

  lemma ListsAreCanonical(rd: Reader, tags: seq<Tag>)
    ensures CanonicalLists(rd, ReadLists(rd, tags))
  {
    HeadsNonEmpty(Rows(tags, Relay));
    HeadsNonEmpty(Rows(tags, Blossom));
    ChatRelaysAreCanonical(rd, tags);
    OneBackend(ReadLists(rd, tags).chat);
    ChildrenAreCanonical(tags);
  }

  lemma WordsAreCanonical(rd: Reader, tags: seq<Tag>)
    requires Faithful(rd)
    ensures CanonicalWords(ReadWords(rd, tags))
  {
    assert "pair" == VISIBILITIES[0] && "manual" == APPROVALS[0] && "off" == TALKS_MODES[0];
  }

  lemma ExtrasAreCanonical(rd: Reader, tags: seq<Tag>)
    ensures var x := ReadExtras(rd, tags);
            && (x.coordinator.Some? ==> IsHex64(x.coordinator.value.0) && x.coordinator.value.1 >= 1)
            && (x.retentionDays.Some? ==> x.retentionDays.value >= 1)
            && (x.parent.Some? ==> IsParent(x.parent.value))
  {
  }

  lemma AssembledIsCanonical(rd: Reader, eid: string, d: string, inbox: string, l: Lists, n: Numbers, w: Words, x: Extras, kind: Option<nat>)
    requires d != "" && IsHex64(inbox) && CanonicalLists(rd, l) && CanonicalWords(w) && n.eck >= 1
    requires x.coordinator.Some? ==> IsHex64(x.coordinator.value.0) && x.coordinator.value.1 >= 1
    requires (x.retentionDays.Some? ==> x.retentionDays.value >= 1) && (x.parent.Some? ==> IsParent(x.parent.value))
    requires kind.Some? ==> kind.value == KIND_COMMUNITY
    ensures Canonical(rd, Assemble(eid, d, inbox, l, n, w, x, kind))
  {
    var cfg := Assemble(eid, d, inbox, l, n, w, x, kind);
    assert ListsOf(cfg) == l && WordsOf(cfg) == w;
  }

  lemma ChildrenAreCanonical(tags: seq<Tag>)
    ensures var c := ReadChildren(tags);
            c.Some? ==> c.value != [] && |c.value| <= MAX_CHILDREN && "" !in c.value && NoRepeats(c.value)
                        && forall x <- c.value :: IsChild(x)
  {
    HeadsNonEmpty(Rows(tags, Child));
    TakeKeeps(Dedup(Filter(All(tags, Child), IsChild)), MAX_CHILDREN);
  }

  lemma ParsedIsCanonical(rd: Reader, eid: string, tags: seq<Tag>)
    requires Faithful(rd) && ParseEventConfig(rd, eid, tags).Ok?
    ensures Canonical(rd, ParseEventConfig(rd, eid, tags).value)
  {
    ListsAreCanonical(rd, tags);
    WordsAreCanonical(rd, tags);
    ExtrasAreCanonical(rd, tags);
    var d, inbox := First(tags, D).value, First(tags, Inbox).value;
    AssembledIsCanonical(rd, eid, d, inbox, ReadLists(rd, tags), ReadNumbers(rd, tags), ReadWords(rd, tags), ReadExtras(rd, tags),
                         ReadSpaceKind(eid, tags, d));
  }

  lemma ChatRelaysAreCanonical(rd: Reader, tags: seq<Tag>)
    ensures var r := ReadChatRelays(rd, tags); "" !in r && NoRepeats(r) && forall x <- r :: rd.wss(x)
  {
    HeadsNonEmpty(Rows(tags, Relay));
    HeadsNonEmpty(Rows(tags, ChatRelay));
  }

  // ---------------------------------------------------------------- the round trip

  lemma ChildrenStay(cfg: Config)
    requires cfg.children.Some? ==> NoRepeats(cfg.children.value)
    ensures Children(cfg) == if cfg.children.None? then [] else cfg.children.value
  {
    if cfg.children.Some? { DedupStays(cfg.children.value); }
  }

  lemma NothingToFault(cfg: Config, children: seq<string>)
    requires children == Children(cfg) && |children| <= MAX_CHILDREN && forall c <- children :: IsChild(c)
    requires cfg.spaceKind.Some? ==> cfg.spaceKind.value == KIND_COMMUNITY
    requires cfg.coordinator.Some? ==> cfg.coordinatorGen.Some? && cfg.coordinatorGen.value >= 1
    requires (cfg.retentionDays.Some? ==> cfg.retentionDays.value >= 1) && (cfg.parent.Some? ==> IsParent(cfg.parent.value))
    ensures Fault(cfg).None?
  {
  }

  lemma CanonicalBuilds(rd: Reader, cfg: Config)
    requires Canonical(rd, cfg)
    ensures Fault(cfg).None?
    ensures Children(cfg) == if cfg.children.None? then [] else cfg.children.value
  {
    ChildrenStay(cfg);
    NothingToFault(cfg, Children(cfg));
  }

  lemma PrintedInteger(rd: Reader, n: nat)
    requires Faithful(rd)
    ensures Integer(rd, rd.print_(n)) == Some(n)
  {
  }

  lemma PrintedIntTag(rd: Reader, tags: seq<Tag>, name: Name, default_: nat, n: nat)
    requires Faithful(rd) && Rows(tags, name) == [[rd.print_(n)]]
    ensures IntTag(rd, tags, name, default_) == n
  {
  }

  lemma KindsDiffer(eid: string, d: string)
    ensures MakeCoordinate(eid, d, KIND_CALENDAR_EVENT) != MakeCoordinate(eid, d, KIND_COMMUNITY)
  {
    var rest := ":" + (eid + (":" + d));
    if MakeCoordinate(eid, d, KIND_CALENDAR_EVENT) == MakeCoordinate(eid, d, KIND_COMMUNITY) {
      DecimalDecodes(KIND_CALENDAR_EVENT, KIND_COMMUNITY, rest, rest);
    }
  }

  lemma RelaysSurvive(rd: Reader, cfg: Config, tags: seq<Tag>)
    requires Canonical(rd, cfg)
    requires Rows(tags, Relay) == Each(cfg.relays) && Rows(tags, ChatRelay) == Each(cfg.chatRelays)
    ensures Reject(Filter(All(tags, Relay), rd.wss), rd.interop) == cfg.relays
    ensures ReadChatRelays(rd, tags) == cfg.chatRelays
  {
    ListSurvives(cfg.relays, Rows(tags, Relay), rd.wss);
    RejectNone(cfg.relays, rd.interop);
    FilterNone(cfg.relays, rd.interop);
    ListSurvives(cfg.chatRelays, Rows(tags, ChatRelay), rd.wss);
    assert cfg.chatRelays + [] == cfg.chatRelays;
    DedupStays(cfg.chatRelays);
  }

  lemma ChildrenSurvive(cfg: Config, rd: Reader, tags: seq<Tag>)
    requires Canonical(rd, cfg) && Rows(tags, Child) == Each(if cfg.children.None? then [] else cfg.children.value)
    ensures ReadChildren(tags) == cfg.children
  {
    var c := if cfg.children.None? then [] else cfg.children.value;
    ListSurvives(c, Rows(tags, Child), IsChild);
    DedupStays(c);
  }

  lemma ChatSurvives(cfg: Config, rd: Reader, tags: seq<Tag>)
    requires Canonical(rd, cfg) && Rows(tags, Chat) == Each(Filter(cfg.chat, IsBackend))
    ensures Dedup(Filter(All(tags, Chat), IsBackend)) == cfg.chat
  {
    FilterAll(cfg.chat, IsBackend);
    ListSurvives(cfg.chat, Rows(tags, Chat), IsBackend);
    DedupStays(cfg.chat);
  }

  lemma CoordinatorSurvives(cfg: Config, rd: Reader, tags: seq<Tag>)
    requires Faithful(rd) && Canonical(rd, cfg)
    requires Rows(tags, Coordinator) == if cfg.coordinator.Some? then [[cfg.coordinator.value, rd.print_(cfg.coordinatorGen.value)]] else []
    ensures ReadCoordinator(rd, tags) ==
              if cfg.coordinator.None? then None else Some((cfg.coordinator.value, cfg.coordinatorGen.value))
  {
    if cfg.coordinator.Some? { PrintedInteger(rd, cfg.coordinatorGen.value); }
  }

  /** Every parsed config can be rebuilt without a fault, and parses back to itself: the
      chat-relay split, the omitted defaults, and the coordinator with its generation
      included. */
  lemma ParsedConfigRoundTrips(rd: Reader, eid: string, tags: seq<Tag>)
    requires Faithful(rd) && ParseEventConfig(rd, eid, tags).Ok?
    ensures var cfg := ParseEventConfig(rd, eid, tags).value;
            BuildEventConfig(rd, cfg).Ok? && ParseEventConfig(rd, eid, BuildEventConfig(rd, cfg).value) == Ok(cfg)
  {
    var cfg := ParseEventConfig(rd, eid, tags).value;
    ParsedIsCanonical(rd, eid, tags);
    CanonicalRoundTrips(rd, eid, cfg);
  }

  lemma CanonicalRoundTrips(rd: Reader, eid: string, cfg: Config)
    requires Faithful(rd) && Canonical(rd, cfg) && cfg.eidPubkey == eid
    ensures BuildEventConfig(rd, cfg).Ok? && ParseEventConfig(rd, eid, BuildEventConfig(rd, cfg).value) == Ok(cfg)
  {
    CanonicalBuilds(rd, cfg);
    var built := EmitNames(PushedBy(rd, cfg), ORDER);
    BuiltHolds(rd, cfg, ORDER);
    HeaderSurvives(rd, cfg, built);
    ListsSurvive(rd, cfg, built);
    NumbersSurvive(rd, cfg, built);
    WordsSurvive(rd, cfg, built);
    ExtrasSurvive(rd, cfg, built);
    AllTogether(rd, cfg, built);
  }

  lemma AllTogether(rd: Reader, cfg: Config, built: seq<Tag>)
    requires cfg.d != "" && IsHex64(cfg.inbox) && (cfg.coordinator.Some? <==> cfg.coordinatorGen.Some?)
    requires First(built, D) == Some(cfg.d) && First(built, Inbox) == Some(cfg.inbox)
    requires First(built, V).Some? && Integer(rd, First(built, V).value) == Some(PROTOCOL_VERSION)
    requires ReadSpaceKind(cfg.eidPubkey, built, cfg.d) == cfg.spaceKind
    requires ReadLists(rd, built) == Lists(cfg.relays, cfg.chatRelays, cfg.blossom, cfg.chat, cfg.children)
    requires ReadNumbers(rd, built) == Numbers(cfg.maxVideoSec, cfg.maxTalkSec, cfg.eck, cfg.nostrContext)
    requires ReadWords(rd, built) == Words(cfg.matching, cfg.matchVisibility, cfg.approval, cfg.lang, cfg.talks)
    requires ReadExtras(rd, built) ==
               Extras(if cfg.coordinator.None? then None else Some((cfg.coordinator.value, cfg.coordinatorGen.value)),
                      cfg.retentionDays, cfg.parent)
    ensures ParseEventConfig(rd, cfg.eidPubkey, built) == Ok(cfg)
  {
  }

  lemma HeaderSurvives(rd: Reader, cfg: Config, built: seq<Tag>)
    requires Faithful(rd) && Canonical(rd, cfg) && Holds(rd, cfg, built)
    ensures First(built, D) == Some(cfg.d) && First(built, Inbox) == Some(cfg.inbox)
    ensures First(built, V).Some? && Integer(rd, First(built, V).value) == Some(PROTOCOL_VERSION)
    ensures ReadSpaceKind(cfg.eidPubkey, built, cfg.d) == cfg.spaceKind
  {
    assert Rows(built, D) == RowsFor(rd, cfg, D);
    assert Rows(built, Inbox) == RowsFor(rd, cfg, Inbox);
    assert Rows(built, V) == RowsFor(rd, cfg, V);
    assert Rows(built, A) == RowsFor(rd, cfg, A);
    PrintedInteger(rd, PROTOCOL_VERSION);
    KindsDiffer(cfg.eidPubkey, cfg.d);
  }

  lemma BlossomSurvives(rd: Reader, cfg: Config, tags: seq<Tag>)
    requires Canonical(rd, cfg) && Rows(tags, Blossom) == Each(cfg.blossom)
    ensures Filter(All(tags, Blossom), rd.https) == cfg.blossom
  {
    ListSurvives(cfg.blossom, Rows(tags, Blossom), rd.https);
  }

  lemma ListsSurvive(rd: Reader, cfg: Config, built: seq<Tag>)
    requires Faithful(rd) && Canonical(rd, cfg) && Holds(rd, cfg, built)
    ensures ReadLists(rd, built) == Lists(cfg.relays, cfg.chatRelays, cfg.blossom, cfg.chat, cfg.children)
  {
    ListRows(rd, cfg, built);
    CanonicalBuilds(rd, cfg);
    RelaysSurvive(rd, cfg, built);
    BlossomSurvives(rd, cfg, built);
    ChatSurvives(cfg, rd, built);
    ChildrenSurvive(cfg, rd, built);
  }

  lemma ListRows(rd: Reader, cfg: Config, built: seq<Tag>)
    requires Holds(rd, cfg, built)
    ensures Rows(built, Relay) == Each(cfg.relays) && Rows(built, ChatRelay) == Each(cfg.chatRelays)
    ensures Rows(built, Blossom) == Each(cfg.blossom) && Rows(built, Chat) == Each(Filter(cfg.chat, IsBackend))
    ensures Rows(built, Child) == Each(Children(cfg))
  {
    assert Rows(built, Relay) == RowsFor(rd, cfg, Relay);
    assert Rows(built, ChatRelay) == RowsFor(rd, cfg, ChatRelay);
    assert Rows(built, Blossom) == RowsFor(rd, cfg, Blossom);
    assert Rows(built, Chat) == RowsFor(rd, cfg, Chat);
    assert Rows(built, Child) == RowsFor(rd, cfg, Child);
  }

  lemma NumbersSurvive(rd: Reader, cfg: Config, built: seq<Tag>)
    requires Faithful(rd) && Canonical(rd, cfg) && Holds(rd, cfg, built)
    ensures ReadNumbers(rd, built) == Numbers(cfg.maxVideoSec, cfg.maxTalkSec, cfg.eck, cfg.nostrContext)
  {
    assert Rows(built, MaxVideoSec) == RowsFor(rd, cfg, MaxVideoSec);
    assert Rows(built, MaxTalkSec) == RowsFor(rd, cfg, MaxTalkSec);
    assert Rows(built, Eck) == RowsFor(rd, cfg, Eck);
    assert Rows(built, NostrContext) == RowsFor(rd, cfg, NostrContext);
    PrintedIntTag(rd, built, MaxVideoSec, 90, cfg.maxVideoSec);
    PrintedIntTag(rd, built, MaxTalkSec, 900, cfg.maxTalkSec);
    PrintedIntTag(rd, built, Eck, 1, cfg.eck);
    PrintedIntTag(rd, built, NostrContext, 0, cfg.nostrContext);
  }

  lemma WordSurvives(tags: seq<Tag>, name: Name, word: string, allowed: seq<string>, default_: string)
    requires Rows(tags, name) == [[word]] && word in allowed
    ensures OneOf(First(tags, name), allowed, default_) == word
  {
  }

  lemma DefaultSurvives(tags: seq<Tag>, name: Name, word: string, allowed: seq<string>, default_: string)
    requires Rows(tags, name) == (if word == default_ then [] else [[word]]) && word in allowed
    ensures OneOf(First(tags, name), allowed, default_) == word
  {
  }

  lemma LangSurvives(rd: Reader, cfg: Config, tags: seq<Tag>)
    requires Faithful(rd) && Canonical(rd, cfg)
    requires Rows(tags, Lang) == if rd.lang(cfg.lang) != "en" then [[rd.lang(cfg.lang)]] else []
    ensures rd.lang(if First(tags, Lang).None? then "en" else First(tags, Lang).value) == cfg.lang
  {
    assert TwoLetters("en");
  }

  lemma WordRows(rd: Reader, cfg: Config, built: seq<Tag>)
    requires Holds(rd, cfg, built) && cfg.talks != ""
    ensures Rows(built, Matching) == [[if cfg.matching then "on" else "off"]]
    ensures Rows(built, MatchVisibility) == [[cfg.matchVisibility]] && Rows(built, Approval) == [[cfg.approval]]
    ensures Rows(built, Lang) == if rd.lang(cfg.lang) != "en" then [[rd.lang(cfg.lang)]] else []
    ensures Rows(built, Talks) == if cfg.talks == "off" then [] else [[cfg.talks]]
  {
    assert Rows(built, Matching) == RowsFor(rd, cfg, Matching);
    assert Rows(built, MatchVisibility) == RowsFor(rd, cfg, MatchVisibility);
    assert Rows(built, Approval) == RowsFor(rd, cfg, Approval);
    assert Rows(built, Lang) == RowsFor(rd, cfg, Lang);
    assert Rows(built, Talks) == RowsFor(rd, cfg, Talks);
  }

  lemma TalksNotBlank(talks: string)
    requires talks in TALKS_MODES
    ensures talks != ""
  {
  }

  lemma WordsSurvive(rd: Reader, cfg: Config, built: seq<Tag>)
    requires Faithful(rd) && Canonical(rd, cfg) && Holds(rd, cfg, built)
    ensures ReadWords(rd, built) == Words(cfg.matching, cfg.matchVisibility, cfg.approval, cfg.lang, cfg.talks)
  {
    TalksNotBlank(cfg.talks);
    WordRows(rd, cfg, built);
    WordSurvives(built, MatchVisibility, cfg.matchVisibility, VISIBILITIES, "pair");
    WordSurvives(built, Approval, cfg.approval, APPROVALS, "manual");
    LangSurvives(rd, cfg, built);
    DefaultSurvives(built, Talks, cfg.talks, TALKS_MODES, "off");
  }

  lemma ExtrasSurvive(rd: Reader, cfg: Config, built: seq<Tag>)
    requires Faithful(rd) && Canonical(rd, cfg) && Holds(rd, cfg, built)
    ensures ReadExtras(rd, built) ==
              Extras(if cfg.coordinator.None? then None else Some((cfg.coordinator.value, cfg.coordinatorGen.value)),
                     cfg.retentionDays, cfg.parent)
  {
    assert Rows(built, Coordinator) == RowsFor(rd, cfg, Coordinator);
    CoordinatorSurvives(cfg, rd, built);
    assert Rows(built, Retention) == RowsFor(rd, cfg, Retention);
    if cfg.retentionDays.Some? { PrintedInteger(rd, cfg.retentionDays.value); }
    ParentSurvives(rd, cfg, built);
  }

  lemma ParentSurvives(rd: Reader, cfg: Config, built: seq<Tag>)
    requires Canonical(rd, cfg) && Holds(rd, cfg, built)
    ensures ReadParent(built) == cfg.parent
  {
    assert Rows(built, Parent) == RowsFor(rd, cfg, Parent);
    if cfg.parent.Some? { ParentIsPresent(cfg.parent.value); }
  }

  lemma ParentIsPresent(c: string)
    requires IsParent(c)
    ensures c != ""
  {
  }
}
