/** Embedding a path in generated source: `JSON.stringify(path).slice(1, -1)`, the
    body of the JSON string literal for the path (section 7 of RFC 8259), and the
    matching decoder that states what the escaping preserves. */
module JsonString {
  import opened Types

  const HexDigits: string := "0123456789abcdef"

  function HexDigit(n: nat): char
    requires n < 16
  {
    HexDigits[n]
  }

  /** The value of a hexadecimal digit of either case. */
  function HexValue(c: char): Option<nat>
  {
    if '0' <= c <= '9' then Some(c as int - '0' as int)
    else if 'a' <= c <= 'f' then Some(c as int - 'a' as int + 10)
    else if 'A' <= c <= 'F' then Some(c as int - 'A' as int + 10)
    else None
  }

  /** How JSON.stringify writes one character inside the quotes: the two-character
      escapes for quote, backslash, backspace, form feed, newline, carriage return
      and tab, `\u00xx` with lower-case digits for the other control characters, and
      every other character as itself. */
  function EscapeChar(c: char): string
  {
    var n := c as int;
    if c == '"' then "\\\""
    else if c == '\\' then "\\\\"
    else if n == 8 then "\\b"
    else if n == 12 then "\\f"
    else if c == '\n' then "\\n"
    else if c == '\r' then "\\r"
    else if c == '\t' then "\\t"
    else if n < 0x20 then "\\u00" + [HexDigit(n / 16), HexDigit(n % 16)]
    else [c]
  }

  /** `getPathInJs`: the JSON string body of `s`. It holds no control character,
      so in particular no line break. */
  function Escape(s: string): (r: string)
    ensures forall i :: 0 <= i < |r| ==> r[i] as int >= 0x20
    ensures '\n' !in r
  {
    if s == "" then "" else EscapeChar(s[0]) + Escape(s[1..])
  }

  /** The character a two-character escape `\e` stands for. */
  function SimpleEscape(e: char): Option<char>
  {
    if e == '"' || e == '\\' || e == '/' then Some(e)
    else if e == 'b' then Some(8 as char)
    else if e == 'f' then Some(12 as char)
    else if e == 'n' then Some('\n')
    else if e == 'r' then Some('\r')
    else if e == 't' then Some('\t')
    else None
  }

  function HexValue4(s: string): Option<nat>
    requires |s| == 4
  {
    match (HexValue(s[0]), HexValue(s[1]), HexValue(s[2]), HexValue(s[3]))
    case (Some(a), Some(b), Some(c), Some(d)) => Some(((a * 16 + b) * 16 + c) * 16 + d)
    case _ => None
  }

  /** The character of a `\uXXXX` escape with digits `s`; `None` for a surrogate
      half or a non-hexadecimal digit. */
  function UnicodeEscape(s: string): Option<char>
    requires |s| == 4
  {
    match HexValue4(s)
    case None => None
    case Some(n) =>
      if 0xD800 <= n < 0xE000 || n >= 0x11_0000 then None else Some(n as char)
  }

  function Prepend(c: char, rest: Option<string>): Option<string>
  {
    match rest
    case None => None
    case Some(t) => Some([c] + t)
  }

  /** Decodes the body of a JSON string literal; `None` when it is not one (a bare
      quote or control character, an unknown escape). A `\u` escape of a surrogate
      half is rejected rather than paired. */
  function Decode(s: string): Option<string>
    decreases |s|
  {
    if s == "" then Some("")
    else if s[0] == '\\' then
      if |s| < 2 then None
      else if s[1] == 'u' then
        if |s| < 6 then None
        else match UnicodeEscape(s[2..6])
          case None => None
          case Some(c) => Prepend(c, Decode(s[6..]))
      else match SimpleEscape(s[1])
        case None => None
        case Some(c) => Prepend(c, Decode(s[2..]))
    else if s[0] == '"' || s[0] as int < 0x20 then None
    else Prepend(s[0], Decode(s[1..]))
  }

  lemma HexRoundTrip(n: nat)
    requires n < 16
    ensures HexValue(HexDigit(n)) == Some(n)
  {
    assert HexDigits == ['0','1','2','3','4','5','6','7','8','9','a','b','c','d','e','f'];
  }

  lemma DecodeEscapeChar(c: char, rest: string)
    ensures Decode(EscapeChar(c) + rest) == Prepend(c, Decode(rest))
  {
    var n := c as int;
    var s := EscapeChar(c) + rest;
    if c == '"' || c == '\\' || n == 8 || n == 12 || c == '\n' || c == '\r' || c == '\t' {
      assert |EscapeChar(c)| == 2 && s[2..] == rest;
      assert SimpleEscape(s[1]) == Some(c);
    } else if n < 0x20 {
      HexRoundTrip(n / 16);
      HexRoundTrip(n % 16);
      assert s[2..6] == ['0', '0', HexDigit(n / 16), HexDigit(n % 16)];
      assert HexValue4(s[2..6]) == Some(n);
      assert UnicodeEscape(s[2..6]) == Some(c);
      assert s[6..] == rest;
    } else {
      assert s[1..] == rest;
    }
  }

  /** Round trip: decoding the escaped text gives the original string back, so
      every quote and backslash of it is escaped. */
  lemma {:induction false} DecodeEscape(s: string)
    ensures Decode(Escape(s)) == Some(s)
  {
    if s != "" {
      DecodeEscapeChar(s[0], Escape(s[1..]));
      DecodeEscape(s[1..]);
      assert [s[0]] + s[1..] == s;
    }
  }

  /** A string with no quote, backslash or control character is embedded as
      itself; in particular an apostrophe is not escaped. */
  lemma {:induction false} EscapePlain(s: string)
    requires forall i :: 0 <= i < |s| ==> s[i] != '"' && s[i] != '\\' && s[i] as int >= 0x20
    ensures Escape(s) == s
  {
    if s != "" {
      EscapePlain(s[1..]);
      assert [s[0]] + s[1..] == s;
    }
  }
}
