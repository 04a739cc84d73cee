/** The roster payload as JSON text: its size is additive in its entries, and no two
    payloads print the same text. */
module RosterText {
  import opened Wrappers
  import opened Text
  import opened Json
  import opened Packing

  const MAX_D := 200
  const MAX_CHAT_KEY_LABEL := 60
  const MAX_CHAT_KEYS_PER_ACCOUNT := 10

  datatype ChatKey = ChatKey(pubkey: string, label_: Option<string>, external: bool, addedAt: int)

  datatype Role = Member | Organizer

  datatype Attendee = Attendee(pubkey: string, d: string, role: Role, chatKeys: Option<seq<ChatKey>>)

  datatype Roster = Roster(v: int, eckCurrent: int, groupId: Option<string>, pages: Option<int>, attendees: seq<Attendee>)

  // ---------------------------------------------------------------- printing

  /** A field that is present or omitted: its key and its printed value. */
  function Field(key: string, text: Option<string>): string {
    if text.None? then "" else key + text.value
  }

  function Quoted(s: Option<string>): Option<string> {
    if s.None? then None else Some(Quote(s.value))
  }

  function Truth(b: bool): Option<string> {
    if b then Some("true") else None
  }

  function Numbered(n: Option<int>): Option<string> {
    if n.None? then None else Some(Numeral(n.value))
  }

  function ChatKeys(keys: Option<seq<ChatKey>>): Option<string> {
    if keys.None? then None else Some(Array(ChatKeyJson, keys.value))
  }

  function RoleName(role: Role): string {
    if role == Organizer then "organizer" else "attendee"
  }

  function ChatKeyJson(k: ChatKey): string {
    "{\"pubkey\":" + (Quote(k.pubkey) + AfterPubkey(k))
  }

  function AfterPubkey(k: ChatKey): string {
    Field(",\"label\":", Quoted(k.label_)) + AfterLabel(k)
  }

  function AfterLabel(k: ChatKey): string {
    Field(",\"external\":", Truth(k.external)) + AfterExternal(k)
  }

  function AfterExternal(k: ChatKey): string {
    ",\"added_at\":" + (Numeral(k.addedAt) + "}")
  }

  function AttendeeJson(a: Attendee): string {
    "{\"pubkey\":" + (Quote(a.pubkey) + AttendeeRest(a))
  }

  function AttendeeRest(a: Attendee): string {
    ",\"d\":" + (Quote(a.d) + (",\"role\":" + (Quote(RoleName(a.role)) + (Field(",\"chat_keys\":", ChatKeys(a.chatKeys)) + "}"))))
  }

  function RosterJson(r: Roster): string {
    "{\"v\":" + (Numeral(r.v) + (",\"eck_current\":" + (Numeral(r.eckCurrent) + AfterEck(r))))
  }

  function AfterEck(r: Roster): string {
    Field(",\"nostr_group_id\":", Quoted(r.groupId)) + AfterGroup(r)
  }

  function AfterGroup(r: Roster): string {
    Field(",\"pages\":", Numbered(r.pages)) + AfterPages(r)
  }

  function AfterPages(r: Roster): string {
    ",\"attendees\":" + (Array(AttendeeJson, r.attendees) + "}")
  }

  // ---------------------------------------------------------------- reading back

  lemma PeelQuote(p: string, q: string, x: string, y: string, s: string, t: string)
    requires (Quote(p) + x) + s == (Quote(q) + y) + t
    ensures p == q && x + s == y + t
  {
    Reassociate(Quote(p), x, s);
    Reassociate(Quote(q), y, t);
    QuoteDecodes(p, q, x + s, y + t);
  }

  lemma PeelNumeral(m: int, n: int, x: string, y: string, s: string, t: string)
    requires (Numeral(m) + x) + s == (Numeral(n) + y) + t
    requires EndsNumber(x) && EndsNumber(y)
    ensures m == n && x + s == y + t
  {
    Reassociate(Numeral(m), x, s);
    Reassociate(Numeral(n), y, t);
    HeadOfSum(x, s);
    HeadOfSum(y, t);
    NumeralDecodes(m, n, x + s, y + t);
  }

  lemma PeelArray<T(!new)>(print_: T -> string, xs: seq<T>, ys: seq<T>, x: string, y: string, s: string, t: string)
    requires Decodable(print_) && (Array(print_, xs) + x) + s == (Array(print_, ys) + y) + t
    ensures xs == ys && x + s == y + t
  {
    Reassociate(Array(print_, xs), x, s);
    Reassociate(Array(print_, ys), y, t);
    ArrayDecodes(print_, xs, ys, x + s, y + t);
  }

  lemma Reassociate(a: string, b: string, c: string)
    ensures (a + b) + c == a + (b + c)
  {
  }

  /** The text does not open with `key`: it differs from it at position `i`. */
  ghost predicate Differs(x: string, key: string, i: nat) {
    i < |x| && i < |key| && x[i] != key[i]
  }

  /** An omitted field is told from a present one by what follows. */
  lemma PeelField(key: string, a: Option<string>, b: Option<string>, x: string, y: string, s: string, t: string, i: nat)
    requires (Field(key, a) + x) + s == (Field(key, b) + y) + t
    requires Differs(x, key, i) && Differs(y, key, i)
    ensures a.Some? <==> b.Some?
    ensures if a.None? then x + s == y + t else (a.value + x) + s == (b.value + y) + t
  {
    var l, r := (Field(key, a) + x) + s, (Field(key, b) + y) + t;
    assert l[i] == if a.Some? then key[i] else x[i];
    assert r[i] == if b.Some? then key[i] else y[i];
    if a.Some? {
      Reassociate(key, a.value, x);
      Reassociate(key, b.value, y);
      CancelHead(key, a.value + x, b.value + y, s, t);
    } else {
      assert Field(key, a) + x == x && Field(key, b) + y == y;
    }
  }

  lemma AfterLabelDecodes(k: ChatKey, l: ChatKey, s: string, t: string)
    requires AfterLabel(k) + s == AfterLabel(l) + t
    ensures k.external == l.external && k.addedAt == l.addedAt && s == t
  {
    var x, y := AfterExternal(k), AfterExternal(l);
    assert x[2] == 'a' && y[2] == 'a';
    PeelField(",\"external\":", Truth(k.external), Truth(l.external), x, y, s, t, 2);
    if k.external { CancelHead("true", x, y, s, t); }
    CancelHead(",\"added_at\":", Numeral(k.addedAt) + "}", Numeral(l.addedAt) + "}", s, t);
    PeelNumeral(k.addedAt, l.addedAt, "}", "}", s, t);
    CancelEqual("}", "}", s, t);
  }

  lemma ChatKeyDecodes(k: ChatKey, l: ChatKey, s: string, t: string)
    requires ChatKeyJson(k) + s == ChatKeyJson(l) + t
    ensures k == l && s == t
  {
    CancelHead("{\"pubkey\":", Quote(k.pubkey) + AfterPubkey(k), Quote(l.pubkey) + AfterPubkey(l), s, t);
    PeelQuote(k.pubkey, l.pubkey, AfterPubkey(k), AfterPubkey(l), s, t);
    var x, y := AfterLabel(k), AfterLabel(l);
    assert x[2] == if k.external then 'e' else 'a';
    assert y[2] == if l.external then 'e' else 'a';
    PeelField(",\"label\":", Quoted(k.label_), Quoted(l.label_), x, y, s, t, 2);
    if k.label_.Some? { PeelQuote(k.label_.value, l.label_.value, x, y, s, t); }
    AfterLabelDecodes(k, l, s, t);
  }

  lemma ChatKeysDecodable()
    ensures Decodable(ChatKeyJson)
  {
    forall k: ChatKey, l: ChatKey, s: string, t: string | ChatKeyJson(k) + s == ChatKeyJson(l) + t
      ensures k == l && s == t
    {
      ChatKeyDecodes(k, l, s, t);
    }
  }

  lemma AttendeeRestDecodes(a: Attendee, b: Attendee, s: string, t: string)
    requires AttendeeRest(a) + s == AttendeeRest(b) + t
    ensures a.d == b.d && a.role == b.role && a.chatKeys == b.chatKeys && s == t
  {
    var keysA, keysB := Field(",\"chat_keys\":", ChatKeys(a.chatKeys)) + "}", Field(",\"chat_keys\":", ChatKeys(b.chatKeys)) + "}";
    var roleA, roleB := ",\"role\":" + (Quote(RoleName(a.role)) + keysA), ",\"role\":" + (Quote(RoleName(b.role)) + keysB);
    CancelHead(",\"d\":", Quote(a.d) + roleA, Quote(b.d) + roleB, s, t);
    PeelQuote(a.d, b.d, roleA, roleB, s, t);
    CancelHead(",\"role\":", Quote(RoleName(a.role)) + keysA, Quote(RoleName(b.role)) + keysB, s, t);
    PeelQuote(RoleName(a.role), RoleName(b.role), keysA, keysB, s, t);
    assert RoleName(a.role)[0] == if a.role == Organizer then 'o' else 'a';
    assert RoleName(b.role)[0] == if b.role == Organizer then 'o' else 'a';
    PeelField(",\"chat_keys\":", ChatKeys(a.chatKeys), ChatKeys(b.chatKeys), "}", "}", s, t, 0);
    if a.chatKeys.Some? {
      ChatKeysDecodable();
      PeelArray(ChatKeyJson, a.chatKeys.value, b.chatKeys.value, "}", "}", s, t);
    }
    CancelEqual("}", "}", s, t);
  }

  lemma AttendeeDecodes(a: Attendee, b: Attendee, s: string, t: string)
    requires AttendeeJson(a) + s == AttendeeJson(b) + t
    ensures a == b && s == t
  {
    CancelHead("{\"pubkey\":", Quote(a.pubkey) + AttendeeRest(a), Quote(b.pubkey) + AttendeeRest(b), s, t);
    PeelQuote(a.pubkey, b.pubkey, AttendeeRest(a), AttendeeRest(b), s, t);
    AttendeeRestDecodes(a, b, s, t);
  }

  lemma AttendeesDecodable()
    ensures Decodable(AttendeeJson)
  {
    forall a: Attendee, b: Attendee, s: string, t: string | AttendeeJson(a) + s == AttendeeJson(b) + t
      ensures a == b && s == t
    {
      AttendeeDecodes(a, b, s, t);
    }
  }

  lemma AfterGroupDecodes(r: Roster, q: Roster, s: string, t: string)
    requires AfterGroup(r) + s == AfterGroup(q) + t
    ensures r.pages == q.pages && r.attendees == q.attendees && s == t
  {
    var x, y := AfterPages(r), AfterPages(q);
    assert x[2] == 'a' && y[2] == 'a';
    PeelField(",\"pages\":", Numbered(r.pages), Numbered(q.pages), x, y, s, t, 2);
    if r.pages.Some? { PeelNumeral(r.pages.value, q.pages.value, x, y, s, t); }
    CancelHead(",\"attendees\":", Array(AttendeeJson, r.attendees) + "}", Array(AttendeeJson, q.attendees) + "}", s, t);
    AttendeesDecodable();
    PeelArray(AttendeeJson, r.attendees, q.attendees, "}", "}", s, t);
    CancelEqual("}", "}", s, t);
  }

  lemma AfterEckDecodes(r: Roster, q: Roster, s: string, t: string)
    requires AfterEck(r) + s == AfterEck(q) + t
    ensures r.groupId == q.groupId && r.pages == q.pages && r.attendees == q.attendees && s == t
  {
    var x, y := AfterGroup(r), AfterGroup(q);
    assert x[2] == if r.pages.Some? then 'p' else 'a';
    assert y[2] == if q.pages.Some? then 'p' else 'a';
    PeelField(",\"nostr_group_id\":", Quoted(r.groupId), Quoted(q.groupId), x, y, s, t, 2);
    if r.groupId.Some? { PeelQuote(r.groupId.value, q.groupId.value, x, y, s, t); }
    AfterGroupDecodes(r, q, s, t);
  }

  /** The text determines the payload: what decrypts to the same bytes is the same page. */
  lemma RosterJsonIsInjective(r: Roster, q: Roster)
    requires RosterJson(r) == RosterJson(q)
    ensures r == q
  {
    assert RosterJson(r) + "" == RosterJson(r) && RosterJson(q) + "" == RosterJson(q);
    var eckR, eckQ := Numeral(r.eckCurrent) + AfterEck(r), Numeral(q.eckCurrent) + AfterEck(q);
    var x, y := ",\"eck_current\":" + eckR, ",\"eck_current\":" + eckQ;
    CancelHead("{\"v\":", Numeral(r.v) + x, Numeral(q.v) + y, "", "");
    PeelNumeral(r.v, q.v, x, y, "", "");
    CancelHead(",\"eck_current\":", eckR, eckQ, "", "");
    assert AfterEck(r)[0] == ',' && AfterEck(q)[0] == ',';
    PeelNumeral(r.eckCurrent, q.eckCurrent, AfterEck(r), AfterEck(q), "", "");
    AfterEckDecodes(r, q, "", "");
  }

  // ---------------------------------------------------------------- sizes

  /** `payloadBytes`: the bytes an encrypted payload counts. */
  function PayloadBytes(r: Roster): nat {
    Utf8Length(RosterJson(r))
  }

  /** What one entry adds to a page: its text and a comma. */
  function EntryBytes(a: Attendee): nat {
    Utf8Length(AttendeeJson(a)) + 1
  }

  function Entries(attendees: seq<Attendee>): nat {
    Cost(EntryBytes, attendees)
  }

  lemma {:induction false} EntriesAreTheLoad(attendees: seq<Attendee>)
    ensures Entries(attendees) == Json.Load(AttendeeJson, attendees)
  {
    if attendees != [] { EntriesAreTheLoad(attendees[..|attendees| - 1]); }
  }

  lemma AfterPagesSize(r: Roster)
    ensures Utf8Length(AfterPages(r)) == Utf8Length(",\"attendees\":") + 2 + Entries(r.attendees) - (if r.attendees == [] then 0 else 1) + 1
  {
    var entries := Array(AttendeeJson, r.attendees);
    ArraySize(AttendeeJson, r.attendees);
    EntriesAreTheLoad(r.attendees);
    ClosedSize(",\"attendees\":", entries);
  }

  lemma ClosedSize(key: string, value: string)
    ensures Utf8Length(key + (value + "}")) == Utf8Length(key) + Utf8Length(value) + 1
  {
    Utf8Additive(key, value + "}");
    Utf8Additive(value, "}");
    AsciiLength("}");
  }

  /** The size of everything before the attendees. */
  function EnvelopeBytes(v: int, eckCurrent: int, groupId: Option<string>, pages: Option<int>): nat {
    Utf8Length("{\"v\":") + Utf8Length(Numeral(v)) + Utf8Length(",\"eck_current\":") + Utf8Length(Numeral(eckCurrent))
      + Utf8Length(Field(",\"nostr_group_id\":", Quoted(groupId))) + Utf8Length(Field(",\"pages\":", Numbered(pages)))
      + Utf8Length(",\"attendees\":") + 3
  }

  /** A payload's size is its envelope's plus its entries', one comma between entries. */
  lemma PayloadSize(r: Roster)
    ensures PayloadBytes(r) == EnvelopeBytes(r.v, r.eckCurrent, r.groupId, r.pages)
                               + Entries(r.attendees) - if r.attendees == [] then 0 else 1
  {
    var eck := Numeral(r.eckCurrent) + AfterEck(r);
    Utf8Additive("{\"v\":", Numeral(r.v) + (",\"eck_current\":" + eck));
    Utf8Additive(Numeral(r.v), ",\"eck_current\":" + eck);
    Utf8Additive(",\"eck_current\":", eck);
    Utf8Additive(Numeral(r.eckCurrent), AfterEck(r));
    Utf8Additive(Field(",\"nostr_group_id\":", Quoted(r.groupId)), AfterGroup(r));
    Utf8Additive(Field(",\"pages\":", Numbered(r.pages)), AfterPages(r));
    AfterPagesSize(r);
  }

  lemma NumeralSize(n: int)
    ensures Utf8Length(Numeral(n)) == |Numeral(n)|
  {
    NumeralIsAscii(n);
    AsciiLength(Numeral(n));
  }

  /** A page count within the page cap never prints wider than the cap itself. */
  lemma PageCountWidth(n: nat)
    requires n < 100
    ensures Utf8Length(Field(",\"pages\":", Numbered(Some(n)))) <= Utf8Length(Field(",\"pages\":", Numbered(Some(40))))
    ensures Utf8Length(Field(",\"pages\":", Numbered(None))) <= Utf8Length(Field(",\"pages\":", Numbered(Some(40))))
  {
    Utf8Additive(",\"pages\":", Numeral(n));
    Utf8Additive(",\"pages\":", Numeral(40));
    NumeralSize(n);
    NumeralSize(40);
    assert Pow10(2) == 100 by { assert Pow10(1) == 10; }
    DecimalLength(n, 2);
    assert |Decimal(40)| == 2;
  }

  // ---------------------------------------------------------------- how wide an entry can be

  /** An integer that prints in plain decimal (below 10^21 in absolute value). */
  ghost predicate PrintsPlain(n: int) {
    n < Pow10(21) && -n < Pow10(21)
  }

  ghost predicate ValidChatKey(k: ChatKey) {
    && IsHex64(k.pubkey) && PrintsPlain(k.addedAt)
    && (k.label_.Some? ==> Units(k.label_.value) <= MAX_CHAT_KEY_LABEL)
  }

  /** What the attendee schema accepts. */
  ghost predicate ValidAttendee(a: Attendee) {
    && IsHex64(a.pubkey) && Units(a.d) <= MAX_D
    && (a.chatKeys.Some? ==> |a.chatKeys.value| <= MAX_CHAT_KEYS_PER_ACCOUNT && forall k <- a.chatKeys.value :: ValidChatKey(k))
  }

  lemma {:induction false} Utf8AtMost(s: string)
    ensures Utf8Length(s) <= 4 * |s|
  {
    if s != [] { Utf8AtMost(s[1..]); }
  }

  lemma {:induction false} HexUnits(s: string)
    requires forall c <- s :: IsHexChar(c)
    ensures Units(s) == |s|
  {
    if s != [] {
      assert s[0] in s;
      assert forall c <- s[1..] :: c in s;
      HexUnits(s[1..]);
    }
  }

  lemma NumeralAtMost(n: int)
    requires PrintsPlain(n)
    ensures Utf8Length(Numeral(n)) <= 22
  {
    NumeralSize(n);
    DecimalLength(if n < 0 then -n else n, 21);
  }

  lemma LabelSize(k: ChatKey)
    requires ValidChatKey(k)
    ensures Utf8Length(Field(",\"label\":", Quoted(k.label_))) <= 398
  {
    if k.label_.Some? {
      Utf8Additive(",\"label\":", Quote(k.label_.value));
      Utf8AtMost(",\"label\":");
      QuoteSize(k.label_.value);
    }
  }

  lemma ChatKeySize(k: ChatKey)
    requires ValidChatKey(k)
    ensures Utf8Length(ChatKeyJson(k)) <= 1000
  {
    Utf8Additive("{\"pubkey\":", Quote(k.pubkey) + AfterPubkey(k));
    Utf8Additive(Quote(k.pubkey), AfterPubkey(k));
    Utf8Additive(Field(",\"label\":", Quoted(k.label_)), AfterLabel(k));
    Utf8AtMost("{\"pubkey\":");
    HexUnits(k.pubkey);
    QuoteSize(k.pubkey);
    LabelSize(k);
    AfterLabelSize(k);
  }

  lemma AfterLabelSize(k: ChatKey)
    requires ValidChatKey(k)
    ensures Utf8Length(AfterLabel(k)) <= 150
  {
    Utf8Additive(Field(",\"external\":", Truth(k.external)), AfterExternal(k));
    Utf8AtMost(Field(",\"external\":", Truth(k.external)));
    ClosedSize(",\"added_at\":", Numeral(k.addedAt));
    Utf8AtMost(",\"added_at\":");
    NumeralAtMost(k.addedAt);
  }

  lemma {:induction false} ChatKeysLoad(keys: seq<ChatKey>)
    requires forall k <- keys :: ValidChatKey(k)
    ensures Json.Load(ChatKeyJson, keys) <= 1001 * |keys|
  {
    if keys != [] {
      ChatKeysLoad(keys[..|keys| - 1]);
      assert keys[|keys| - 1] in keys;
      ChatKeySize(keys[|keys| - 1]);
    }
  }

  /** The widest entry the schema accepts is far below a page's budget. */
  lemma EntryAtMost(a: Attendee)
    requires ValidAttendee(a)
    ensures EntryBytes(a) <= 13_000
  {
    Utf8Additive("{\"pubkey\":", Quote(a.pubkey) + AttendeeRest(a));
    Utf8Additive(Quote(a.pubkey), AttendeeRest(a));
    Utf8AtMost("{\"pubkey\":");
    HexUnits(a.pubkey);
    QuoteSize(a.pubkey);
    RestAtMost(a);
  }

  lemma RestAtMost(a: Attendee)
    requires ValidAttendee(a)
    ensures Utf8Length(AttendeeRest(a)) <= 12_000
  {
    var role := ",\"role\":" + (Quote(RoleName(a.role)) + (Field(",\"chat_keys\":", ChatKeys(a.chatKeys)) + "}"));
    Utf8Additive(",\"d\":", Quote(a.d) + role);
    Utf8Additive(Quote(a.d), role);
    Utf8AtMost(",\"d\":");
    QuoteSize(a.d);
    RoleAtMost(a);
  }

  lemma RoleAtMost(a: Attendee)
    requires ValidAttendee(a)
    ensures Utf8Length(",\"role\":" + (Quote(RoleName(a.role)) + (Field(",\"chat_keys\":", ChatKeys(a.chatKeys)) + "}"))) <= 10_400
  {
    var keys := Field(",\"chat_keys\":", ChatKeys(a.chatKeys));
    Utf8Additive(",\"role\":", Quote(RoleName(a.role)) + (keys + "}"));
    Utf8Additive(Quote(RoleName(a.role)), keys + "}");
    Utf8Additive(keys, "}");
    Utf8AtMost(",\"role\":");
    Utf8AtMost("}");
    QuoteSize(RoleName(a.role));
    RoleUnits(a.role);
    KeysFieldSize(a);
  }

  lemma RoleUnits(role: Role)
    ensures Units(RoleName(role)) <= 18
  {
    UnitsAtMost(RoleName(role));
  }

  lemma {:induction false} UnitsAtMost(s: string)
    ensures Units(s) <= 2 * |s|
  {
    if s != [] { UnitsAtMost(s[1..]); }
  }

  lemma KeysFieldSize(a: Attendee)
    requires ValidAttendee(a)
    ensures Utf8Length(Field(",\"chat_keys\":", ChatKeys(a.chatKeys))) <= 10_100
  {
    hide Utf8Length;
    assert Utf8Length("") == 0 by { Utf8AtMost(""); }
    if a.chatKeys.Some? {
      Utf8Additive(",\"chat_keys\":", Array(ChatKeyJson, a.chatKeys.value));
      Utf8AtMost(",\"chat_keys\":");
      ArraySize(ChatKeyJson, a.chatKeys.value);
      ChatKeysLoad(a.chatKeys.value);
    }
  }

  lemma {:induction false} QuoteAtLeast(s: string)
    ensures |Quote(s)| >= |s| + 2
  {
    if s != [] { QuoteAtLeast(s[1..]); }
  }

  /** Even the emptiest entry takes 38 bytes, and a comma. */
  lemma EntryAtLeast(a: Attendee)
    ensures EntryBytes(a) >= 39
  {
    QuoteAtLeast(a.pubkey);
    QuoteAtLeast(a.d);
    QuoteAtLeast(RoleName(a.role));
    assert |",\"role\":"| == 8 && |",\"d\":"| == 5 && |"{\"pubkey\":"| == 10;
    var keys := Field(",\"chat_keys\":", ChatKeys(a.chatKeys)) + "}";
    assert |AttendeeRest(a)| == 5 + |Quote(a.d)| + 8 + |Quote(RoleName(a.role))| + |keys|;
    assert |AttendeeJson(a)| == 10 + |Quote(a.pubkey)| + |AttendeeRest(a)|;
  }
}
