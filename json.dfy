/// The one JSON text the chat handler produces, `JSON.stringify({ content })`,
/// written out as the JSON.stringify and QuoteJSONString operations of
/// ECMA-262 define it, and a reference decoder for exactly that shape.
module Json {
  import opened Js

  /** The lower-case hexadecimal digit for `d`, as QuoteJSONString writes it. */
  function HexDigit(d: nat): (c: char)
    requires d < 16
  {
    if d < 10 then ('0' as int + d) as char else ('a' as int + d - 10) as char
  }

  /** The value of a hexadecimal digit of either case. */
  function HexDigitValue(c: char): (v: Option<nat>)
    ensures v.Some? ==> v.value < 16
  {
    if '0' <= c <= '9' then Some(c as int - '0' as int)
    else if 'a' <= c <= 'f' then Some(c as int - 'a' as int + 10)
    else if 'A' <= c <= 'F' then Some(c as int - 'A' as int + 10)
    else None
  }

  lemma HexDigitRoundTrip(d: nat)
    requires d < 16
    ensures HexDigitValue(HexDigit(d)) == Some(d)
  {
  }

  /** The code unit written by four hexadecimal digits. */
  function CodeUnit(s: string): (v: Option<nat>)
    requires |s| == 4
    ensures v.Some? ==> v.value < 0x1_0000
  {
    match (HexDigitValue(s[0]), HexDigitValue(s[1]), HexDigitValue(s[2]), HexDigitValue(s[3]))
    case (Some(a), Some(b), Some(c), Some(d)) => Some(((a * 16 + b) * 16 + c) * 16 + d)
    case _ => None
  }

  /** How QuoteJSONString writes one character: the two-character escapes for
      backspace, tab, line feed, form feed, carriage return, quotation mark and
      reverse solidus, `\u00XX` for the other control characters, and every
      other character as itself. */
  function EscapeChar(c: char): (r: string)
    ensures r != [] && '\n' !in r
  {
    if c == '\U{0008}' then "\\b"
    else if c == '\t' then "\\t"
    else if c == '\n' then "\\n"
    else if c == '\U{000C}' then "\\f"
    else if c == '\r' then "\\r"
    else if c == '"' then "\\\""
    else if c == '\\' then "\\\\"
    else if c < ' ' then "\\u00" + [HexDigit(c as int / 16), HexDigit(c as int % 16)]
    else [c]
  }

  /** The body of a JSON string literal for `s`; it never holds a line break. */
  function Escape(s: string): (r: string)
    ensures '\n' !in r
  {
    if s == [] then [] else EscapeChar(s[0]) + Escape(s[1..])
  }

  /** What the chat handler frames: `{"content":"…"}` with no white space. It is a
      single line and starts with `{`. */
  function EncodeContent(t: string): (r: string)
    ensures '\n' !in r
    ensures |r| > 0 && r[0] == '{'
  {
    "{\"content\":\"" + Escape(t) + "\"}"
  }

  /** The character a two-character escape `\c` stands for. */
  function SimpleEscape(c: char): Option<char> {
    if c == '"' then Some('"')
    else if c == '\\' then Some('\\')
    else if c == '/' then Some('/')
    else if c == 'b' then Some('\U{0008}')
    else if c == 'f' then Some('\U{000C}')
    else if c == 'n' then Some('\n')
    else if c == 'r' then Some('\r')
    else if c == 't' then Some('\t')
    else None
  }

  function Prepend(c: char, rest: Option<string>): Option<string> {
    if rest.Some? then Some([c] + rest.value) else None
  }

  /** Reads the body of a JSON string literal; `None` for an unescaped quotation
      mark or control character, a malformed escape, or a surrogate code unit. */
  function Unescape(s: string): Option<string>
    decreases |s|
  {
    if s == [] then Some([])
    else if s[0] == '\\' then
      if |s| >= 2 && SimpleEscape(s[1]).Some? then
        Prepend(SimpleEscape(s[1]).value, Unescape(s[2..]))
      else if |s| >= 6 && s[1] == 'u' && CodeUnit(s[2..6]).Some?
              && !(0xD800 <= CodeUnit(s[2..6]).value < 0xE000) then
        Prepend(CodeUnit(s[2..6]).value as char, Unescape(s[6..]))
      else None
    else if s[0] == '"' || s[0] < ' ' then None
    else Prepend(s[0], Unescape(s[1..]))
  }

  /** Reads a text of the shape `{"content":"…"}`; `None` for anything else. */
  function DecodeContent(s: string): Option<string> {
    var open := "{\"content\":\"";
    if |s| >= |open| + 2 && s[..|open|] == open && s[|s| - 2..] == "\"}" then
      Unescape(s[|open|..|s| - 2])
    else None
  }

  /** A two-character escape reads back as its character. */
  lemma UnescapeSimple(e: char, c: char, rest: string)
    requires SimpleEscape(e) == Some(c)
    ensures Unescape(['\\', e] + rest) == Prepend(c, Unescape(rest))
  {
    var s := ['\\', e] + rest;
    assert s[0] == '\\' && s[1] == e && s[2..] == rest;
  }

  /** A `\u00XX` escape of a control character reads back as that character. */
  lemma UnescapeControl(c: char, rest: string)
    requires c < ' '
    ensures Unescape("\\u00" + [HexDigit(c as int / 16), HexDigit(c as int % 16)] + rest) == Prepend(c, Unescape(rest))
  {
    var hi, lo := c as int / 16, c as int % 16;
    var s := "\\u00" + [HexDigit(hi), HexDigit(lo)] + rest;
    HexDigitRoundTrip(hi);
    HexDigitRoundTrip(lo);
    assert s[0] == '\\' && s[1] == 'u' && SimpleEscape(s[1]).None?;
    assert s[2..6] == ['0', '0', HexDigit(hi), HexDigit(lo)];
    assert CodeUnit(s[2..6]) == Some(c as int);
    assert s[6..] == rest;
  }

  /** A character written as itself reads back as itself. */
  lemma UnescapeLiteral(c: char, rest: string)
    requires c != '\\' && c != '"' && c >= ' '
    ensures Unescape([c] + rest) == Prepend(c, Unescape(rest))
  {
    assert ([c] + rest)[1..] == rest;
  }

  /** Reading an escaped character back gives the character. */
  lemma UnescapeChar(c: char, rest: string)
    ensures Unescape(EscapeChar(c) + rest) == Prepend(c, Unescape(rest))
  {
    if c == '\U{0008}' {
      UnescapeSimple('b', c, rest);
    } else if c == '\t' {
      UnescapeSimple('t', c, rest);
    } else if c == '\n' {
      UnescapeSimple('n', c, rest);
    } else if c == '\U{000C}' {
      UnescapeSimple('f', c, rest);
    } else if c == '\r' {
      UnescapeSimple('r', c, rest);
    } else if c == '"' {
      UnescapeSimple('"', c, rest);
    } else if c == '\\' {
      UnescapeSimple('\\', c, rest);
    } else if c < ' ' {
      UnescapeControl(c, rest);
    } else {
      UnescapeLiteral(c, rest);
    }
  }

  /** Reading an escaped string back gives the string. */
  lemma {:induction false} UnescapeEscape(t: string)
    ensures Unescape(Escape(t)) == Some(t)
    decreases |t|
  {
    if t != [] {
      UnescapeEscape(t[1..]);
      UnescapeChar(t[0], Escape(t[1..]));
      assert [t[0]] + t[1..] == t;
    }
  }

  /** The reference decoder reads back what the chat handler encodes. */
  lemma DecodeEncode(t: string)
    ensures DecodeContent(EncodeContent(t)) == Some(t)
  {
    var open := "{\"content\":\"";
    var s := EncodeContent(t);
    assert s == open + Escape(t) + "\"}";
    assert s[..|open|] == open;
    assert s[|s| - 2..] == "\"}";
    assert s[|open|..|s| - 2] == Escape(t);
    UnescapeEscape(t);
  }
}
