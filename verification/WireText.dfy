/** The printed text read by the standards it follows: a JSON string (section 7 of RFC 8259)
    comes back as it was, and the sizes counted are those of its UTF-8 (section 3 of
    RFC 3629). */
module WireText {
  import opened Wrappers
  import opened Text
  import opened Json
  import opened RosterText

  // ---------------------------------------------------------------- reading a JSON string

  function HexValue(c: char): Option<nat> {
    if '0' <= c <= '9' then Some(c as int - '0' as int)
    else if 'a' <= c <= 'f' then Some(c as int - 'a' as int + 10)
    else if 'A' <= c <= 'F' then Some(c as int - 'A' as int + 10)
    else None
  }

  /** What the character after a backslash stands for. */
  function Unescaped(c: char): Option<char> {
    match c
    case '"' => Some('"')
    case '\\' => Some('\\')
    case '/' => Some('/')
    case 'b' => Some(8 as char)
    case 'f' => Some(12 as char)
    case 'n' => Some(10 as char)
    case 'r' => Some(13 as char)
    case 't' => Some(9 as char)
    case _ => None
  }

  /** Four hex digits naming one character outside the surrogates. */
  function Coded(t: string): Option<char>
    requires |t| >= 4
  {
    var a, b, c, d := HexValue(t[0]), HexValue(t[1]), HexValue(t[2]), HexValue(t[3]);
    if a.None? || b.None? || c.None? || d.None? then None
    else
      var n := ((a.value * 16 + b.value) * 16 + c.value) * 16 + d.value;
      if n >= 0x1_0000 || 0xD800 <= n <= 0xDFFF then None else Some(n as char)
  }

  /** The character a text opens with, and how much of it that took. */
  function ReadChar(t: string): Option<(char, nat)>
    requires t != []
  {
    if t[0] as int < 0x20 || t[0] == '"' then None
    else if t[0] != '\\' then Some((t[0], 1))
    else if |t| < 2 then None
    else if t[1] != 'u' then (if Unescaped(t[1]).Some? then Some((Unescaped(t[1]).value, 2)) else None)
    else if |t| >= 6 && Coded(t[2..]).Some? then Some((Coded(t[2..]).value, 6))
    else None
  }

  /** A string up to its closing quote, and what follows it. */
  function ReadBody(t: string): Option<(string, string)>
    decreases |t|
  {
    if t == [] then None
    else if t[0] == '"' then Some(("", t[1..]))
    else
      var c := ReadChar(t);
      if c.None? || c.value.1 == 0 || c.value.1 > |t| then None
      else
        var rest := ReadBody(t[c.value.1..]);
        if rest.None? then None else Some(([c.value.0] + rest.value.0, rest.value.1))
  }

  function ReadString(t: string): Option<(string, string)> {
    if t == [] || t[0] != '"' then None else ReadBody(t[1..])
  }

  lemma HexDigitReads(n: nat)
    requires n < 16
    ensures HexValue(HexDigit(n)) == Some(n)
  {
  }

  lemma EscapedCharReads(c: char, t: string)
    ensures var e := EscapeChar(c); ReadChar(e + t) == Some((c, |e|)) && (e + t)[|e|..] == t
  {
    var e, n := EscapeChar(c), c as int;
    if n < 0x20 && n != 8 && n != 9 && n != 10 && n != 12 && n != 13 {
      HexDigitReads(n / 16);
      HexDigitReads(n % 16);
      assert e == ['\\', 'u', '0', '0', HexDigit(n / 16), HexDigit(n % 16)];
      assert (e + t)[2..] == ['0', '0', HexDigit(n / 16), HexDigit(n % 16)] + t;
      assert HexValue('0') == Some(0);
      assert Coded((e + t)[2..]) == Some(c);
    }
  }

  lemma Grouped(a: string, b: string, c: string)
    ensures (a + b) + c == a + (b + c)
  {
  }

  lemma CharThenBody(e: string, t: string, c: char)
    requires e != [] && e[0] != '"' && ReadChar(e + t) == Some((c, |e|)) && ReadBody(t).Some?
    ensures ReadBody(e + t) == Some(([c] + ReadBody(t).value.0, ReadBody(t).value.1))
  {
    assert (e + t)[0] == e[0] && (e + t)[|e|..] == t;
  }

  lemma {:induction false} EscapedReads(a: string, s: string)
    ensures ReadBody(Escape(a) + ("\"" + s)) == Some((a, s))
  {
    if a == [] {
      assert Escape(a) + ("\"" + s) == "\"" + s;
      assert ("\"" + s)[1..] == s;
    } else {
      var t := Escape(a[1..]) + ("\"" + s);
      EscapedReads(a[1..], s);
      EscapedCharReads(a[0], t);
      Grouped(EscapeChar(a[0]), Escape(a[1..]), "\"" + s);
      CharThenBody(EscapeChar(a[0]), t, a[0]);
      assert a == [a[0]] + a[1..];
    }
  }

  /** A quoted string, whatever follows it, is read back as the string it was. */
  lemma QuoteReads(a: string, s: string)
    ensures ReadString(Quote(a) + s) == Some((a, s))
  {
    EscapedReads(a, s);
    assert Quote(a) + s == "\"" + (Escape(a) + ("\"" + s));
    assert ("\"" + (Escape(a) + ("\"" + s)))[1..] == Escape(a) + ("\"" + s);
  }

  // ---------------------------------------------------------------- UTF-8

  /** The bytes of one character. */
  function Utf8(c: char): seq<int> {
    var n := c as int;
    if n < 0x80 then [n]
    else if n < 0x800 then [0xC0 + n / 0x40, 0x80 + n % 0x40]
    else if n < 0x1_0000 then [0xE0 + n / 0x1000, 0x80 + n / 0x40 % 0x40, 0x80 + n % 0x40]
    else [0xF0 + n / 0x4_0000, 0x80 + n / 0x1000 % 0x40, 0x80 + n / 0x40 % 0x40, 0x80 + n % 0x40]
  }

  function Encode(s: string): seq<int> {
    if s == [] then [] else Utf8(s[0]) + Encode(s[1..])
  }

  /** How many bytes a leading byte announces. */
  function Announced(lead: int): nat {
    if lead < 0x80 then 1 else if lead < 0xE0 then 2 else if lead < 0xF0 then 3 else 4
  }

  /** The code point the first `n` bytes spell. */
  function Spelled(bytes: seq<int>, n: nat): int
    requires 1 <= n <= 4 && n <= |bytes|
  {
    if n == 1 then bytes[0]
    else if n == 2 then (bytes[0] - 0xC0) * 0x40 + (bytes[1] - 0x80)
    else if n == 3 then ((bytes[0] - 0xE0) * 0x40 + (bytes[1] - 0x80)) * 0x40 + (bytes[2] - 0x80)
    else (((bytes[0] - 0xF0) * 0x40 + (bytes[1] - 0x80)) * 0x40 + (bytes[2] - 0x80)) * 0x40 + (bytes[3] - 0x80)
  }

  lemma CharSpelled(c: char, rest: seq<int>)
    ensures var b := Utf8(c) + rest;
            && |Utf8(c)| == Utf8Bytes(c) == Announced(b[0])
            && Spelled(b, Announced(b[0])) == c as int
            && b[Announced(b[0])..] == rest
            && forall x <- Utf8(c) :: 0 <= x < 256
  {
    var n := c as int;
    assert n / 0x1000 == n / 0x40 / 0x40;
    assert n / 0x4_0000 == n / 0x40 / 0x40 / 0x40;
  }

  /** The code points some bytes spell. */
  function Decode(bytes: seq<int>): Option<seq<int>>
    decreases |bytes|
  {
    if bytes == [] then Some([])
    else
      var n := Announced(bytes[0]);
      if n > |bytes| then None
      else
        var rest := Decode(bytes[n..]);
        if rest.None? then None else Some([Spelled(bytes, n)] + rest.value)
  }

  function CodePoints(s: string): (r: seq<int>)
    ensures |r| == |s| && forall i :: 0 <= i < |s| ==> r[i] == s[i] as int
  {
    seq(|s|, i requires 0 <= i < |s| => s[i] as int)
  }

  /** The size counted for a text is the number of bytes of its UTF-8, which spell exactly
      that text. */
  lemma {:induction false} SizeIsUtf8(s: string)
    ensures |Encode(s)| == Utf8Length(s)
    ensures Decode(Encode(s)) == Some(CodePoints(s))
  {
    if s != [] {
      SizeIsUtf8(s[1..]);
      CharSpelled(s[0], Encode(s[1..]));
      assert CodePoints(s) == [s[0] as int] + CodePoints(s[1..]);
    } else {
      assert CodePoints(s) == [];
    }
  }

  // ---------------------------------------------------------------- the payload

  /** The fields of a payload, by name and in order. */
  lemma PayloadFields(r: Roster)
    ensures RosterJson(r) ==
              "{\"v\":" + (Numeral(r.v) + (",\"eck_current\":" + (Numeral(r.eckCurrent)
                + ((if r.groupId.Some? then ",\"nostr_group_id\":" + Quote(r.groupId.value) else "")
                + ((if r.pages.Some? then ",\"pages\":" + Numeral(r.pages.value) else "")
                + (",\"attendees\":" + (Array(AttendeeJson, r.attendees) + "}")))))))
  {
    hide Numeral, Quote, Array;
  }

  lemma AttendeeFields(a: Attendee)
    ensures AttendeeJson(a) ==
              "{\"pubkey\":" + (Quote(a.pubkey) + (",\"d\":" + (Quote(a.d)
                + (",\"role\":" + (Quote(if a.role == Organizer then "organizer" else "attendee")
                + ((if a.chatKeys.Some? then ",\"chat_keys\":" + Array(ChatKeyJson, a.chatKeys.value) else "") + "}"))))))
  {
    hide Quote, Array;
  }

  lemma ChatKeyFields(k: ChatKey)
    ensures ChatKeyJson(k) ==
              "{\"pubkey\":" + (Quote(k.pubkey)
                + ((if k.label_.Some? then ",\"label\":" + Quote(k.label_.value) else "")
                + ((if k.external then ",\"external\":true" else "")
                + (",\"added_at\":" + (Numeral(k.addedAt) + "}")))))
  {
    hide Quote, Numeral;
    assert ",\"external\":" + "true" == ",\"external\":true";
  }
}
