/**
 * The JSON string literal used when serde writes a string-valued field:
 * the characters '"', '\', backspace, form feed and the line controls are
 * escaped with a backslash, the other control characters below U+0020 as
 * `\u00XX`, and a reader undoes exactly that.
 */
module Json {
  import opened Wrappers

  /** A control character, which JSON allows in a string only escaped. */
  predicate IsControl(c: char)
  {
    c < ' '
  }

  /** The value of a hexadecimal digit, in either case. */
  function HexValue(c: char): (r: Option<nat>)
    ensures r.Some? ==> r.value < 16
  {
    if '0' <= c <= '9' then Some(c as int - '0' as int)
    else if 'a' <= c <= 'f' then Some(c as int - 'a' as int + 10)
    else if 'A' <= c <= 'F' then Some(c as int - 'A' as int + 10)
    else None
  }

  /** The lower-case hexadecimal digit serde writes for `n`. */
  function HexDigit(n: nat): (c: char)
    requires n < 16
    ensures HexValue(c) == Some(n)
  {
    if n < 10 then (48 + n) as char else (87 + n) as char
  }

  /** The escape sequence serde writes for `c`, or `c` itself when it needs none. */
  function EscapeChar(c: char): (r: string)
    ensures |r| >= 1
    ensures c != '"' && c != '\\' ==> r[0] != '"'
    ensures forall i :: 0 <= i < |r| ==> !IsControl(r[i])
    ensures |r| == 1 <==> r == [c] && !IsControl(c) && c != '"' && c != '\\'
  {
    match c
    case '"' => "\\\""
    case '\\' => "\\\\"
    case '\n' => "\\n"
    case '\r' => "\\r"
    case '\t' => "\\t"
    case '\U{0008}' => "\\b"
    case '\U{000C}' => "\\f"
    case _ =>
      if IsControl(c) then "\\u00" + [HexDigit(c as int / 16), HexDigit(c as int % 16)] else [c]
  }

  /**
   * The body of a JSON string literal holding `s`: no unescaped quote and no
   * raw control character occurs in it.
   */
  function Escape(s: string): (r: string)
    ensures forall i :: 0 <= i < |r| && r[i] == '"' ==> 0 < i && r[i - 1] == '\\'
    ensures forall i :: 0 <= i < |r| ==> !IsControl(r[i])
  {
    if s == [] then "" else EscapeChar(s[0]) + Escape(s[1..])
  }

  /** A string none of whose characters needs escaping is its own escaped body. */
  lemma {:induction false} EscapePlain(s: string)
    requires forall i :: 0 <= i < |s| ==> !IsControl(s[i]) && s[i] != '"' && s[i] != '\\'
    ensures Escape(s) == s
  {
    if s != [] {
      EscapePlain(s[1..]);
      assert EscapeChar(s[0]) == [s[0]];
      assert [s[0]] + s[1..] == s;
    }
  }

  /** The complete JSON string literal for `s`, quotes included. */
  function Quote(s: string): (r: string)
    ensures |r| >= 2 && r[0] == '"' && r[|r| - 1] == '"'
  {
    "\"" + Escape(s) + "\""
  }

  /** The character an escape `\c` stands for, if `c` is one JSON allows here besides `u`. */
  function Unescape(c: char): Option<char>
  {
    match c
    case '"' => Some('"')
    case '\\' => Some('\\')
    case '/' => Some('/')
    case 'n' => Some('\n')
    case 'r' => Some('\r')
    case 't' => Some('\t')
    case 'b' => Some('\U{0008}')
    case 'f' => Some('\U{000C}')
    case _ => None
  }

  /**
   * The character of a `\uXXXX` escape whose four hex digits start `t`. A
   * code in the surrogate range gives None: surrogate pairs are not read.
   */
  function ReadHex4(t: string): (r: Option<char>)
    ensures r.Some? ==> |t| >= 4
  {
    if |t| < 4 then None
    else match (HexValue(t[0]), HexValue(t[1]), HexValue(t[2]), HexValue(t[3]))
      case (Some(d0), Some(d1), Some(d2), Some(d3)) =>
        var v := d0 * 4096 + d1 * 256 + d2 * 16 + d3;
        if 0xD800 <= v < 0xE000 then None else Some(v as char)
      case _ => None
  }

  /**
   * Reads the body of a string literal up to its closing quote; gives the
   * decoded string and what follows the quote, or None when the literal is
   * not closed, holds a raw control character or holds an unknown escape.
   */
  function ReadBody(t: string): (r: Option<(string, string)>)
    ensures r.Some? ==> |r.value.1| < |t|
  {
    if t == [] then None
    else if t[0] == '"' then Some(("", t[1..]))
    else if IsControl(t[0]) then None
    else if t[0] == '\\' then
      if |t| < 2 then None
      else if t[1] == 'u' then
        match ReadHex4(t[2..])
        case None => None
        case Some(c) =>
          match ReadBody(t[6..])
          case None => None
          case Some(p) => Some(([c] + p.0, p.1))
      else match Unescape(t[1])
        case None => None
        case Some(c) =>
          match ReadBody(t[2..])
          case None => None
          case Some(p) => Some(([c] + p.0, p.1))
    else
      match ReadBody(t[1..])
      case None => None
      case Some(p) => Some(([t[0]] + p.0, p.1))
  }

  /** Reads one string literal at the start of `t`. */
  function ReadString(t: string): (r: Option<(string, string)>)
    ensures r.Some? ==> |r.value.1| < |t|
  {
    if t != [] && t[0] == '"' then ReadBody(t[1..]) else None
  }

  /** The `\u00XX` escape of a control character reads back as that character. */
  lemma ReadControlEscape(c: char, t: string)
    requires IsControl(c) && |t| >= 4
    requires t[..4] == "00" + [HexDigit(c as int / 16), HexDigit(c as int % 16)]
    ensures ReadHex4(t) == Some(c)
  {
    assert t[0] == '0' && t[1] == '0';
  }

  /** What reading a body gives once one more character is in front of what it reads. */
  function Prepend(c: char, r: Option<(string, string)>): Option<(string, string)>
  {
    match r
    case None => None
    case Some(p) => Some(([c] + p.0, p.1))
  }

  /** Reading an escaped character reads `c`, then goes on with what follows. */
  lemma ReadEscapedChar(c: char, u: string)
    ensures ReadBody(EscapeChar(c) + u) == Prepend(c, ReadBody(u))
  {
    var e := EscapeChar(c);
    var t := e + u;
    if |e| == 1 {
      assert t[0] == c && t[1..] == u;
    } else if |e| == 6 {
      ReadUnicodeEscape(c, u);
    } else {
      assert |e| == 2 && e[0] == '\\' && Unescape(e[1]) == Some(c);
      assert t[0] == '\\' && t[1] == e[1] && t[2..] == u;
    }
  }

  /** The six-character escape of a control character reads back as that character. */
  lemma ReadUnicodeEscape(c: char, u: string)
    requires |EscapeChar(c)| == 6
    ensures ReadBody(EscapeChar(c) + u) == Prepend(c, ReadBody(u))
  {
    var e := EscapeChar(c);
    var t := e + u;
    assert IsControl(c);
    assert t[0] == '\\' && t[1] == 'u';
    assert t[2..][..4] == e[2..];
    ReadControlEscape(c, t[2..]);
    assert t[6..] == u;
  }

  /** Reading back an escaped body stops at the first unescaped quote and yields the original. */
  lemma {:induction false} ReadBodyEscape(s: string, rest: string)
    ensures ReadBody(Escape(s) + "\"" + rest) == Some((s, rest))
  {
    if s == [] {
      assert Escape(s) + "\"" + rest == "\"" + rest;
    } else {
      ReadBodyEscape(s[1..], rest);
      var u := Escape(s[1..]) + "\"" + rest;
      assert Escape(s) + "\"" + rest == EscapeChar(s[0]) + u;
      ReadEscapedChar(s[0], u);
      assert [s[0]] + s[1..] == s;
    }
  }

  /** Every string survives a trip through its JSON literal, whatever follows it. */
  lemma QuoteRoundTrip(s: string, rest: string)
    ensures ReadString(Quote(s) + rest) == Some((s, rest))
  {
    var t := Quote(s) + rest;
    assert t[1..] == Escape(s) + "\"" + rest;
    ReadBodyEscape(s, rest);
  }

  /** JSON whitespace. */
  predicate IsSpace(c: char)
  {
    c == ' ' || c == '\n' || c == '\r' || c == '\t'
  }

  /** Drops leading whitespace. */
  function SkipSpace(t: string): (r: string)
    ensures |r| <= |t| && r == t[|t| - |r|..]
    ensures r == [] || !IsSpace(r[0])
  {
    if t != [] && IsSpace(t[0]) then SkipSpace(t[1..]) else t
  }
}
