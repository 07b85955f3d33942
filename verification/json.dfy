/** The JSON values the server sends on its event stream, and `JSON.stringify`
    over them (integers only: the floating-point `cost` field is not part of this
    model). The one property the framing relies on is that the text
    `JSON.stringify` produces never holds a raw newline and never begins or ends
    with whitespace; the string case is also shown to be undone by the string
    case of `JSON.parse`. */
module Json {
  import opened Wrappers
  import opened Text

  datatype Json =
    | JNull
    | JBool(bit: bool)
    | JInt(num: int)
    | JStr(str: string)
    | JArr(elems: seq<Json>)
    | JObj(fields: seq<(string, Json)>)

  // ---------------------------------------------------------------------------
  // Property access and truthiness, as `obj.key` and `if (x)` see them
  // ---------------------------------------------------------------------------

  /** `v.key` on a parsed value: the value stored under `key` when `v` is an
      object that has it (the last one, as `JSON.parse` keeps the last duplicate),
      `None` (JavaScript `undefined`) otherwise. */
  function Get(v: Json, key: string): (r: Option<Json>)
    ensures r.Some? ==> v.JObj? && exists i :: 0 <= i < |v.fields| && v.fields[i] == (key, r.value)
    ensures r.None? && v.JObj? ==> forall i :: 0 <= i < |v.fields| ==> v.fields[i].0 != key
  {
    if v.JObj? then Lookup(v.fields, key) else None
  }

  function Lookup(fields: seq<(string, Json)>, key: string): (r: Option<Json>)
    ensures r.Some? ==> exists i :: 0 <= i < |fields| && fields[i] == (key, r.value)
    ensures r.None? ==> forall i :: 0 <= i < |fields| ==> fields[i].0 != key
  {
    if fields == [] then None
    else if fields[|fields| - 1].0 == key then Some(fields[|fields| - 1].1)
    else Lookup(fields[..|fields| - 1], key)
  }

  /** JavaScript truthiness of a parsed value. */
  predicate Truthy(v: Json) {
    match v
    case JNull => false
    case JBool(b) => b
    case JInt(n) => n != 0
    case JStr(s) => s != []
    case JArr(_) => true
    case JObj(_) => true
  }

  /** `typeof v === 'string' ? v : undefined`. */
  function AsString(v: Option<Json>): (r: Option<string>)
    ensures r.Some? <==> v.Some? && v.value.JStr?
    ensures r.Some? ==> v.value == JStr(r.value)
  {
    if v.Some? && v.value.JStr? then Some(v.value.str) else None
  }

  // ---------------------------------------------------------------------------
  // `JSON.stringify`
  // ---------------------------------------------------------------------------

  function HexDigit(d: nat): (c: char)
    requires d < 16
  {
    if d < 10 then ('0' as int + d) as char else ('a' as int + d - 10) as char
  }

  /** How `JSON.stringify` writes one character inside a string literal: the
      quote and the backslash are escaped, the control characters get their short
      escape or `\u00xx`, everything else is written as it is. */
  function EscapeChar(c: char): (r: string)
    ensures r != [] && '\n' !in r
    ensures r[0] == '\\' || (r == [c] && c != '"' && c as int >= 0x20)
  {
    if c == '"' then "\\\""
    else if c == '\\' then "\\\\"
    else if c == '\U{0008}' then "\\b"
    else if c == '\t' then "\\t"
    else if c == '\n' then "\\n"
    else if c == '\U{000C}' then "\\f"
    else if c == '\r' then "\\r"
    else if (c as int) < 0x20 then "\\u00" + [HexDigit(c as int / 16), HexDigit(c as int % 16)]
    else [c]
  }

  function Escape(s: string): (r: string)
    ensures '\n' !in r
  {
    if s == [] then "" else EscapeChar(s[0]) + Escape(s[1..])
  }

  /** `JSON.stringify` of a string: the escaped characters between double quotes. */
  function Quote(s: string): (r: string)
    ensures |r| >= 2 && r[0] == '"' && r[|r| - 1] == '"' && '\n' !in r
  {
    "\"" + Escape(s) + "\""
  }

  /** The text of a value on the wire: never empty, never holding a raw newline,
      and never starting or ending with whitespace. */
  predicate WireSafe(t: string) {
    t != [] && '\n' !in t && !IsSpace(t[0]) && !IsSpace(t[|t| - 1])
  }

  lemma {:induction false} JoinNoNewline(parts: seq<string>, sep: string)
    requires '\n' !in sep
    requires forall i :: 0 <= i < |parts| ==> '\n' !in parts[i]
    ensures '\n' !in Join(parts, sep)
  {
    if |parts| > 1 {
      JoinNoNewline(parts[1..], sep);
    }
  }

  /** `JSON.stringify(v)` without indentation: arrays and objects are written
      with `,` and `:` and no spaces. */
  function Stringify(v: Json): (r: string)
    ensures WireSafe(r)
    decreases v
  {
    match v
    case JNull => "null"
    case JBool(b) => if b then "true" else "false"
    case JInt(n) => IntToString(n)
    case JStr(s) => Quote(s)
    case JArr(elems) =>
      var parts := seq(|elems|, i requires 0 <= i < |elems| => Stringify(elems[i]));
      JoinNoNewline(parts, ",");
      "[" + Join(parts, ",") + "]"
    case JObj(fields) =>
      var parts := seq(|fields|, i requires 0 <= i < |fields| => Quote(fields[i].0) + ":" + Stringify(fields[i].1));
      JoinNoNewline(parts, ",");
      "{" + Join(parts, ",") + "}"
  }

  // ---------------------------------------------------------------------------
  // The string case of `JSON.parse`
  // ---------------------------------------------------------------------------

  function HexValue(c: char): Option<nat> {
    if '0' <= c <= '9' then Some(c as int - '0' as int)
    else if 'a' <= c <= 'f' then Some(c as int - 'a' as int + 10)
    else if 'A' <= c <= 'F' then Some(c as int - 'A' as int + 10)
    else None
  }

  /** The character a `\uXXXX` escape stands for; escapes into the surrogate
      range are not decoded by this model. */
  function UnicodeEscape(h: string): Option<char>
    requires |h| == 4
  {
    var a, b, c, d := HexValue(h[0]), HexValue(h[1]), HexValue(h[2]), HexValue(h[3]);
    if a.None? || b.None? || c.None? || d.None? then None
    else
      var n := ((a.value * 16 + b.value) * 16 + c.value) * 16 + d.value;
      if 0xD800 <= n < 0xE000 then None else Some(n as char)
  }

  /** Decodes the characters between the quotes of a JSON string literal:
      `None` on a bare quote, a bare control character, or a malformed escape. */
  function Unescape(t: string): (r: Option<string>)
    decreases |t|
  {
    if t == [] then Some("")
    else if t[0] == '\\' then
      if |t| < 2 then None
      else
        var e := t[1];
        if e == 'u' then
          if |t| < 6 then None
          else match UnicodeEscape(t[2..6])
            case None => None
            case Some(c) => Prepend(c, Unescape(t[6..]))
        else
          var c :=
            if e == '"' then Some('"') else if e == '\\' then Some('\\')
            else if e == '/' then Some('/') else if e == 'b' then Some('\U{0008}')
            else if e == 'f' then Some('\U{000C}') else if e == 'n' then Some('\n')
            else if e == 'r' then Some('\r') else if e == 't' then Some('\t')
            else None;
          if c.None? then None else Prepend(c.value, Unescape(t[2..]))
    else if t[0] == '"' || (t[0] as int) < 0x20 then None
    else Prepend(t[0], Unescape(t[1..]))
  }

  function Prepend(c: char, r: Option<string>): Option<string> {
    if r.None? then None else Some([c] + r.value)
  }

  /** `JSON.parse` of a text that is a string literal. */
  function ParseString(t: string): (r: Option<string>)
  {
    if |t| >= 2 && t[0] == '"' && t[|t| - 1] == '"' then Unescape(t[1..|t| - 1]) else None
  }

  lemma UnescapeChar(c: char, rest: string)
    ensures Unescape(EscapeChar(c) + rest) == Prepend(c, Unescape(rest))
  {
    var t := EscapeChar(c) + rest;
    if (c as int) < 0x20 && c != '\U{0008}' && c != '\t' && c != '\n' && c != '\U{000C}' && c != '\r' {
      var n := c as int;
      assert t[2..6] == "00" + [HexDigit(n / 16), HexDigit(n % 16)];
      assert t[6..] == rest;
    } else if EscapeChar(c)[0] == '\\' {
      assert t[2..] == rest;
    } else {
      assert t[1..] == rest;
    }
  }

  /** `JSON.parse(JSON.stringify(s)) === s` for every string. */
  lemma {:induction false} ParseQuote(s: string)
    ensures ParseString(Quote(s)) == Some(s)
  {
    var q := Quote(s);
    assert q[1..|q| - 1] == Escape(s);
    EscapeRoundTrip(s);
  }

  lemma {:induction false} EscapeRoundTrip(s: string)
    ensures Unescape(Escape(s)) == Some(s)
  {
    if s != [] {
      EscapeRoundTrip(s[1..]);
      UnescapeChar(s[0], Escape(s[1..]));
      assert [s[0]] + s[1..] == s;
    }
  }
}
