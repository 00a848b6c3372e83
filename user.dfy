/** The signed-in user's profile and its serialised form in storage. */
module Users {
  import opened Wrappers

  /** The `User` record the API returns; optional properties may be absent. */
  datatype User = User(
    id: string,
    name: string,
    email: string,
    cpf: string,
    phone: string,
    country: string,
    accountNumber: string,
    branch: string,
    clientSince: string,
    tier: string,
    hasAdvisor: Option<bool>,
    advisorName: Option<string>,
    createdAt: Option<string>,
    token: Option<string>)

  /** Two hexadecimal digits, for the `\u00XX` escape of a control character. */
  function Hex2(n: nat): (r: string)
    requires n < 256
    ensures |r| == 2
    ensures HexDigit(r[0]) == Some(n / 16) && HexDigit(r[1]) == Some(n % 16)
  {
    var digits := "0123456789abcdef";
    LowerHexDigits(n / 16);
    LowerHexDigits(n % 16);
    [digits[n / 16], digits[n % 16]]
  }

  /** The value of a hexadecimal digit of either case. */
  function HexDigit(c: char): (r: Option<nat>)
    ensures r.Some? ==> r.value < 16
  {
    if '0' <= c <= '9' then Some(c as int - '0' as int)
    else if 'a' <= c <= 'f' then Some(c as int - 'a' as int + 10)
    else if 'A' <= c <= 'F' then Some(c as int - 'A' as int + 10)
    else None
  }

  /** Each lower-case digit reads back as its position. */
  lemma LowerHexDigits(k: nat)
    requires k < 16
    ensures HexDigit("0123456789abcdef"[k]) == Some(k)
  {
    var digits := "0123456789abcdef";
    if k < 8 {
      assert k == 0 || k == 1 || k == 2 || k == 3 || k == 4 || k == 5 || k == 6 || k == 7;
    } else {
      assert k == 8 || k == 9 || k == 10 || k == 11 || k == 12 || k == 13 || k == 14 || k == 15;
    }
  }

  /** A JSON string literal, with the escapes JSON.stringify uses. */
  function Quote(s: string): (r: string)
    ensures |r| >= 2 && r[0] == '"' && r[|r| - 1] == '"'
  {
    "\"" + Escape(s) + "\""
  }

  /** One character as JSON.stringify writes it inside a string literal. */
  function EscapeChar(c: char): (e: string)
    ensures 1 <= |e|
  {
    if c == '"' then "\\\""
    else if c == '\\' then "\\\\"
    else if c == '\n' then "\\n"
    else if c == '\r' then "\\r"
    else if c == '\t' then "\\t"
    else if c == '\U{0008}' then "\\b"
    else if c == '\U{000C}' then "\\f"
    else if (c as int) < 32 then "\\u00" + Hex2(c as int)
    else [c]
  }

  function Escape(s: string): string {
    if s == [] then [] else EscapeChar(s[0]) + Escape(s[1..])
  }

  // ---------------------------------------------------------------------------
  // Reading a string literal back, as section 7 of RFC 8259 defines it
  // ---------------------------------------------------------------------------

  /** The character a one-letter escape `\k` stands for. */
  function SimpleEscape(k: char): Option<char> {
    if k == '"' then Some('"')
    else if k == '\\' then Some('\\')
    else if k == '/' then Some('/')
    else if k == 'b' then Some('\U{0008}')
    else if k == 'f' then Some('\U{000C}')
    else if k == 'n' then Some('\n')
    else if k == 'r' then Some('\r')
    else if k == 't' then Some('\t')
    else None
  }

  /** The code a `\uXXXX` escape names, from its four digits. */
  function Hex4(d: string): (r: Option<nat>)
    requires |d| == 4
    ensures r.Some? ==> r.value < 0x1_0000
  {
    match (HexDigit(d[0]), HexDigit(d[1]), HexDigit(d[2]), HexDigit(d[3]))
    case (Some(a), Some(b), Some(c), Some(e)) => Some(((a * 16 + b) * 16 + c) * 16 + e)
    case _ => None
  }

  function Prepend(c: char, r: Option<string>): Option<string> {
    if r.Some? then Some([c] + r.value) else None
  }

  /**
   * The characters a string literal's body stands for; `None` for a bare
   * quote or control character, or a malformed escape. A `\u` escape of a
   * surrogate is refused rather than paired.
   */
  function Unescape(t: string): Option<string>
    decreases |t|
  {
    if t == [] then Some([])
    else if t[0] == '"' || (t[0] as int) < 32 then None
    else if t[0] != '\\' then Prepend(t[0], Unescape(t[1..]))
    else if |t| < 2 then None
    else if t[1] == 'u' then
      if |t| < 6 then None
      else
        match Hex4(t[2..6])
        case Some(n) =>
          if 0xD800 <= n < 0xE000 then None else Prepend(n as char, Unescape(t[6..]))
        case None => None
    else
      match SimpleEscape(t[1])
      case Some(c) => Prepend(c, Unescape(t[2..]))
      case None => None
  }

  /** The string a string literal stands for. */
  function Unquote(t: string): Option<string> {
    if |t| >= 2 && t[0] == '"' && t[|t| - 1] == '"' then Unescape(t[1..|t| - 1]) else None
  }

  /** Reading back one escaped character gives that character before the rest. */
  lemma UnescapeEscapeChar(c: char, rest: string)
    ensures Unescape(EscapeChar(c) + rest) == Prepend(c, Unescape(rest))
  {
    var t := EscapeChar(c) + rest;
    if c == '"' || c == '\\' || c == '\n' || c == '\r' || c == '\t' || c == '\U{0008}' || c == '\U{000C}' {
      assert t[2..] == rest;
    } else if (c as int) < 32 {
      UnescapeHexEscape(c, rest);
    } else {
      assert t[1..] == rest;
    }
  }

  /** A control character written as `\u00XX` reads back as itself. */
  lemma UnescapeHexEscape(c: char, rest: string)
    requires (c as int) < 32
    ensures Unescape("\\u00" + Hex2(c as int) + rest) == Prepend(c, Unescape(rest))
  {
    var h := Hex2(c as int);
    var t := "\\u00" + h + rest;
    assert t[2..6] == ['0', '0', h[0], h[1]];
    assert Hex4(t[2..6]) == Some(c as int);
    assert t[6..] == rest;
  }

  /** Reading back what `Escape` writes gives the original string. */
  lemma {:induction false} UnescapeEscape(s: string)
    ensures Unescape(Escape(s)) == Some(s)
  {
    if s != [] {
      UnescapeEscapeChar(s[0], Escape(s[1..]));
      UnescapeEscape(s[1..]);
      assert [s[0]] + s[1..] == s;
    }
  }

  /** JSON.parse reads back what `Quote` writes: the literal stands for exactly the original string. */
  lemma QuoteRoundTrip(s: string)
    ensures Unquote(Quote(s)) == Some(s)
  {
    var q := Quote(s);
    assert q[1..|q| - 1] == Escape(s);
    UnescapeEscape(s);
  }

  /** A property value as JSON.stringify writes it. */
  datatype Json = JString(s: string) | JBool(b: bool)

  /** The text of one value. */
  function Value(v: Json): string {
    match v
    case JString(s) => Quote(s)
    case JBool(b) => if b then "true" else "false"
  }

  /** An optional property: JSON.stringify leaves out an undefined one. */
  function Optional(key: string, value: Option<Json>): seq<(string, Json)> {
    match value
    case None => []
    case Some(v) => [(key, v)]
  }

  /** `JString` of an optional string. */
  function OptionalString(value: Option<string>): Option<Json> {
    match value
    case None => None
    case Some(s) => Some(JString(s))
  }

  /** The user's defined properties, in the order the record declares them. */
  function Properties(u: User): seq<(string, Json)> {
    [ ("id", JString(u.id)), ("name", JString(u.name)), ("email", JString(u.email)),
      ("cpf", JString(u.cpf)), ("phone", JString(u.phone)), ("country", JString(u.country)),
      ("accountNumber", JString(u.accountNumber)), ("branch", JString(u.branch)),
      ("clientSince", JString(u.clientSince)), ("tier", JString(u.tier)) ]
    + Optional("hasAdvisor", if u.hasAdvisor.Some? then Some(JBool(u.hasAdvisor.value)) else None)
    + Optional("advisorName", OptionalString(u.advisorName))
    + Optional("createdAt", OptionalString(u.createdAt))
    + Optional("token", OptionalString(u.token))
  }

  /** The comma-separated `"key":value` pairs of an object. */
  function Members(ps: seq<(string, Json)>): string {
    if ps == [] then []
    else
      var member := Quote(ps[0].0) + ":" + Value(ps[0].1);
      if |ps| == 1 then member else member + "," + Members(ps[1..])
  }

  /**
   * `JSON.stringify(user)` with the properties in the order the record
   * declares them. Always a JSON object text, so never the empty string.
   */
  function Stringify(u: User): (json: string)
    ensures |json| >= 2 && json[0] == '{' && json[|json| - 1] == '}'
  {
    "{" + Members(Properties(u)) + "}"
  }
}
