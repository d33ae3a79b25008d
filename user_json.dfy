/** The text form of the session record that the app shell keeps in
    local storage: what `JSON.stringify` writes for a `User` and the part of
    `JSON.parse` that reads it back. */
module UserJson {
  import opened Types

  // ---------------------------------------------------------------------
  // Writing

  function HexDigit(d: nat): (c: char)
    requires d < 16
  {
    if d < 10 then ('0' as int + d) as char else ('a' as int + d - 10) as char
  }

  /** How `JSON.stringify` writes one character inside a string literal:
      the quote and the backslash are escaped, control characters use the
      short escapes where JSON has one and `\u00xx` otherwise. */
  function EscapeChar(c: char): string {
    if c == '"' then "\\\""
    else if c == '\\' then "\\\\"
    else if c as int == 0x08 then "\\b"
    else if c as int == 0x0C then "\\f"
    else if c == '\n' then "\\n"
    else if c == '\r' then "\\r"
    else if c == '\t' then "\\t"
    else if c as int < 0x20 then "\\u00" + [HexDigit(c as int / 16), HexDigit(c as int % 16)]
    else [c]
  }

  function Escape(s: string): (e: string)
    ensures |e| >= |s|
    decreases |s|
  {
    if s == [] then [] else EscapeChar(s[0]) + Escape(s[1..])
  }

  const NAME_KEY := "{\"name\":\""
  const EMAIL_KEY := ",\"email\":\""
  const AVATAR_KEY := ",\"avatar\":\""
  const CLOSE := "}"

  /** A key prefix, the escaped value, its closing quote, then `rest`. */
  function Field(key: string, value: string, rest: string): string {
    key + Escape(value) + "\"" + rest
  }

  /** `JSON.stringify(user)` for `{ name, email, avatar }`, keys in that
      order: `{"name":"…","email":"…","avatar":"…"}`. */
  function Stringify(u: User): (text: string)
    ensures NAME_KEY <= text && text[|text| - 1] == '}'
    ensures |text| > |u.name| + |u.email| + |u.avatar|
  {
    Field(NAME_KEY, u.name, Field(EMAIL_KEY, u.email, Field(AVATAR_KEY, u.avatar, CLOSE)))
  }

  // ---------------------------------------------------------------------
  // Reading

  function HexValue(c: char): Option<nat> {
    if '0' <= c <= '9' then Some(c as int - '0' as int)
    else if 'a' <= c <= 'f' then Some(c as int - 'a' as int + 10)
    else if 'A' <= c <= 'F' then Some(c as int - 'A' as int + 10)
    else None
  }

  /** The value of four hexadecimal digits. */
  function Hex4(h: string): Option<nat>
    requires |h| == 4
  {
    match (HexValue(h[0]), HexValue(h[1]), HexValue(h[2]), HexValue(h[3]))
    case (Some(a), Some(b), Some(c), Some(d)) => Some(((a * 16 + b) * 16 + c) * 16 + d)
    case _ => None
  }

  /** Reads one character of a string literal body, unescaping it, and says
      how many source characters it took. A closing quote, a raw control
      character or a malformed escape reads as None. */
  function ReadChar(s: string): (r: Option<(char, nat)>)
    ensures r.Some? ==> 1 <= r.value.1 <= |s|
  {
    if s == [] || s[0] == '"' || s[0] as int < 0x20 then None
    else if s[0] != '\\' then Some((s[0], 1))
    else if |s| < 2 then None
    else
      var e := s[1];
      if e == '"' || e == '\\' || e == '/' then Some((e, 2))
      else if e == 'b' then Some((0x08 as char, 2))
      else if e == 'f' then Some((0x0C as char, 2))
      else if e == 'n' then Some(('\n', 2))
      else if e == 'r' then Some(('\r', 2))
      else if e == 't' then Some(('\t', 2))
      else if e == 'u' && |s| >= 6 then
        match Hex4(s[2..6])
        case Some(v) => if v < 0xD800 || 0xE000 <= v < 0x11_0000 then Some((v as char, 6)) else None
        case None => None
      else None
  }

  /** Reads a string literal body up to its closing quote: the text and what
      follows the quote. */
  function ReadString(s: string): (r: Option<(string, string)>)
    ensures r.Some? ==> |r.value.1| < |s| && (r.value.1 != [] ==> r.value.1[|r.value.1| - 1] == s[|s| - 1])
    decreases |s|
  {
    if s == [] then None
    else if s[0] == '"' then Some(([], s[1..]))
    else
      match ReadChar(s)
      case None => None
      case Some((c, n)) =>
        match ReadString(s[n..])
        case None => None
        case Some((t, rest)) => Some(([c] + t, rest))
  }

  /** Reads `"key":"` followed by a string body. */
  function ReadField(key: string, s: string): (r: Option<(string, string)>)
    ensures r.Some? ==> key <= s && |r.value.1| < |s| && (r.value.1 != [] ==> r.value.1[|r.value.1| - 1] == s[|s| - 1])
  {
    if key <= s then ReadString(s[|key|..]) else None
  }

  /** `JSON.parse` restricted to the text `Stringify` writes; any other
      text reads as unparseable. */
  function Parse(text: string): (u: Option<User>)
    ensures u.Some? ==> NAME_KEY <= text
  {
    match ReadField(NAME_KEY, text)
    case None => None
    case Some((name, r1)) =>
      match ReadField(EMAIL_KEY, r1)
      case None => None
      case Some((email, r2)) =>
        match ReadField(AVATAR_KEY, r2)
        case None => None
        case Some((avatar, r3)) => if r3 == CLOSE then Some(User(name, email, avatar)) else None
  }

  // ---------------------------------------------------------------------
  // Round trip

  lemma HexRoundTrip(d: nat)
    requires d < 16
    ensures HexValue(HexDigit(d)) == Some(d)
  {
  }

  /** Every escaped character reads back as itself. */
  lemma ReadEscapedChar(c: char, tail: string)
    ensures (EscapeChar(c) + tail)[0] != '"'
    ensures ReadChar(EscapeChar(c) + tail) == Some((c, |EscapeChar(c)|))
  {
    var s := EscapeChar(c) + tail;
    if c as int < 0x20 && c as int !in {0x08, 0x0C, 0x0A, 0x0D, 0x09} {
      var hi, lo := c as int / 16, c as int % 16;
      HexRoundTrip(hi);
      HexRoundTrip(lo);
      assert s[2..6] == ['0', '0', HexDigit(hi), HexDigit(lo)];
      assert Hex4(s[2..6]) == Some(c as int);
    }
  }

  lemma {:induction false} ReadStringRoundTrip(t: string, rest: string)
    ensures ReadString(Escape(t) + "\"" + rest) == Some((t, rest))
    decreases |t|
  {
    var s := Escape(t) + "\"" + rest;
    if t == [] {
      assert s == "\"" + rest;
    } else {
      var e := EscapeChar(t[0]);
      var tail := Escape(t[1..]) + "\"" + rest;
      assert Escape(t) == e + Escape(t[1..]);
      assert s == e + tail;
      ReadEscapedChar(t[0], tail);
      assert s[|e|..] == tail;
      ReadStringRoundTrip(t[1..], rest);
      assert [t[0]] + t[1..] == t;
    }
  }

  lemma ReadFieldRoundTrip(key: string, t: string, rest: string)
    ensures ReadField(key, Field(key, t, rest)) == Some((t, rest))
  {
    var s := Field(key, t, rest);
    assert key <= s;
    assert s[|key|..] == Escape(t) + "\"" + rest;
    ReadStringRoundTrip(t, rest);
  }

  /** Only text shaped as a record is accepted: it opens with the `name`
      key and ends with the closing brace. */
  lemma ParseAcceptsOnlyRecords(text: string)
    ensures Parse(text).Some? ==> NAME_KEY <= text && text[|text| - 1] == '}'
  {
    if Parse(text).Some? {
      var (_, r1) := ReadField(NAME_KEY, text).value;
      var (_, r2) := ReadField(EMAIL_KEY, r1).value;
      var (_, r3) := ReadField(AVATAR_KEY, r2).value;
      assert r3 == CLOSE;
    }
  }

  /** A stored session reads back as the same user. */
  lemma ParseStringify(u: User)
    ensures Parse(Stringify(u)) == Some(u)
  {
    var r3 := CLOSE;
    var r2 := Field(AVATAR_KEY, u.avatar, r3);
    var r1 := Field(EMAIL_KEY, u.email, r2);
    ReadFieldRoundTrip(NAME_KEY, u.name, r1);
    ReadFieldRoundTrip(EMAIL_KEY, u.email, r2);
    ReadFieldRoundTrip(AVATAR_KEY, u.avatar, r3);
  }
}
