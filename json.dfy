/** The part of JSON the relay writes by hand: `JSON.stringify` applied to a
    string (the QuoteJSONString operation of ECMA-262), and the decoding of
    such a literal back to its string, as `JSON.parse` does it. */
module Json {
  import opened Wrappers

  /** No character below U+0020: in particular no line feed. */
  predicate NoControl(s: string) {
    forall i :: 0 <= i < |s| ==> s[i] >= ' '
  }

  lemma NoControlAppend(x: string, y: string)
    requires NoControl(x) && NoControl(y)
    ensures NoControl(x + y)
  {
    forall i | 0 <= i < |x + y| ensures (x + y)[i] >= ' ' {
      if i >= |x| {
        assert (x + y)[i] == y[i - |x|];
      }
    }
  }

  lemma NoControlNoLineFeed(s: string)
    requires NoControl(s)
    ensures '\n' !in s
  {
    assert forall i :: 0 <= i < |s| ==> s[i] != '\n';
  }

  function HexDigit(n: nat): (r: char)
    requires n < 16
    ensures '0' <= r
  {
    "0123456789abcdef"[n]
  }

  /** The value of a hexadecimal digit, either case, as `JSON.parse` reads it. */
  function HexValue(c: char): (r: Option<nat>)
    ensures r.Some? ==> r.value < 16
  {
    if '0' <= c <= '9' then Some(c as nat - '0' as nat)
    else if 'a' <= c <= 'f' then Some(c as nat - 'a' as nat + 10)
    else if 'A' <= c <= 'F' then Some(c as nat - 'A' as nat + 10)
    else None
  }

  lemma HexValueDigit(n: nat)
    requires n < 16
    ensures HexValue(HexDigit(n)) == Some(n)
  {
    assert "0123456789abcdef"[10] == 'a';
  }

  /** The JSON text for one character of a string: the two-character escapes
      for backspace, tab, line feed, form feed, carriage return, quotation
      mark and reverse solidus, `\u00xx` with lower-case hex digits for the
      other control characters, and the character itself otherwise. */
  function EscapeChar(c: char): (r: string)
    ensures NoControl(r) && |r| > 0
  {
    if c == '\U{0008}' then "\\b"
    else if c == '\t' then "\\t"
    else if c == '\n' then "\\n"
    else if c == '\U{000C}' then "\\f"
    else if c == '\r' then "\\r"
    else if c == '"' then "\\\""
    else if c == '\\' then "\\\\"
    else if c < ' ' then ControlEscape(c)
    else [c]
  }

  /** `\u00xx`, the escape `JSON.stringify` writes for a control character
      without a two-character escape. */
  function ControlEscape(c: char): (r: string)
    requires c < ' '
    ensures NoControl(r) && |r| == 6
  {
    var r := "\\u00" + [HexDigit(c as nat / 16), HexDigit(c as nat % 16)];
    assert r[4] >= ' ' && r[5] >= ' ';
    r
  }

  /** The characters of a JSON string literal between its quotes. */
  function Escape(s: string): (r: string)
    ensures NoControl(r)
    decreases |s|
  {
    if s == [] then [] else EscapeChar(s[0]) + Escape(s[1..])
  }

  /** `JSON.stringify(s)` for a string `s`. */
  function Quote(s: string): (r: string)
    ensures NoControl(r)
    ensures |r| >= 2 && r[0] == '"' && r[|r| - 1] == '"'
  {
    "\"" + Escape(s) + "\""
  }

  function Prepend(c: char, rest: Option<string>): Option<string> {
    match rest
    case None => None
    case Some(t) => Some([c] + t)
  }

  /** The character a two-character escape `\e` stands for. */
  function ShortEscape(e: char): Option<char> {
    if e == 'b' then Some('\U{0008}')
    else if e == 't' then Some('\t')
    else if e == 'n' then Some('\n')
    else if e == 'f' then Some('\U{000C}')
    else if e == 'r' then Some('\r')
    else if e == '"' then Some('"')
    else if e == '\\' then Some('\\')
    else if e == '/' then Some('/')
    else None
  }

  /** The value of the four hexadecimal digits of a `\uXXXX` escape. */
  function HexQuad(q: string): (r: Option<nat>)
    requires |q| == 4
    ensures r.Some? ==> r.value < 0x10000
  {
    match (HexValue(q[0]), HexValue(q[1]), HexValue(q[2]), HexValue(q[3]))
    case (Some(a), Some(b), Some(c), Some(d)) => Some(((a * 16 + b) * 16 + c) * 16 + d)
    case _ => None
  }

  /** The character a `\uXXXX` escape stands for; `None` for malformed
      digits and for a surrogate code unit, which is not a character here. */
  function UnicodeEscape(q: string): (r: Option<char>)
    requires |q| == 4
  {
    match HexQuad(q)
    case None => None
    case Some(v) => if v < 0xD800 || 0xE000 <= v then Some(v as char) else None
  }

  /** Decodes the characters between the quotes of a JSON string literal;
      `None` for text `JSON.parse` rejects (a raw control character or
      quotation mark, an unknown escape). */
  function Unescape(t: string): Option<string>
    decreases |t|
  {
    if t == [] then Some([])
    else if t[0] != '\\' then
      if t[0] == '"' || t[0] < ' ' then None else Prepend(t[0], Unescape(t[1..]))
    else if |t| >= 2 && ShortEscape(t[1]).Some? then Prepend(ShortEscape(t[1]).value, Unescape(t[2..]))
    else if |t| >= 6 && t[1] == 'u' then
      match UnicodeEscape(t[2..6])
      case None => None
      case Some(c) => Prepend(c, Unescape(t[6..]))
    else None
  }

  /** `\u00` and two lower-case hex digits decode to the control character
      they spell. */
  lemma UnescapeControl(c: char, rest: string)
    requires c < ' '
    ensures Unescape(ControlEscape(c) + rest) == Prepend(c, Unescape(rest))
  {
    var hi, lo := c as nat / 16, c as nat % 16;
    var t := ControlEscape(c) + rest;
    HexValueDigit(hi);
    HexValueDigit(lo);
    assert t[2..6] == ['0', '0', HexDigit(hi), HexDigit(lo)];
    assert HexQuad(t[2..6]) == Some(c as nat);
    assert UnicodeEscape(t[2..6]) == Some(c);
    assert t[6..] == rest;
    assert t[0] == '\\' && t[1] == 'u' && ShortEscape(t[1]).None?;
  }

  /** Decoding undoes the escape of one character. */
  lemma UnescapeChar(c: char, rest: string)
    ensures Unescape(EscapeChar(c) + rest) == Prepend(c, Unescape(rest))
  {
    var t := EscapeChar(c) + rest;
    if c < ' ' && c != '\U{0008}' && c != '\t' && c != '\n' && c != '\U{000C}' && c != '\r' {
      UnescapeControl(c, rest);
    } else if |EscapeChar(c)| == 2 {
      assert t[2..] == rest;
    } else {
      assert t[1..] == rest;
    }
  }

  /** `JSON.parse` inverts `JSON.stringify` on strings: decoding the escaped
      text gives the original string back. */
  lemma {:induction false} UnescapeEscape(s: string)
    ensures Unescape(Escape(s)) == Some(s)
    decreases |s|
  {
    if s != [] {
      UnescapeChar(s[0], Escape(s[1..]));
      UnescapeEscape(s[1..]);
      assert [s[0]] + s[1..] == s;
    }
  }

  /** Decodes a whole JSON string literal, quotes included. */
  function Unquote(t: string): Option<string> {
    if |t| >= 2 && t[0] == '"' && t[|t| - 1] == '"' then Unescape(t[1..|t| - 1]) else None
  }

  lemma UnquoteQuote(s: string)
    ensures Unquote(Quote(s)) == Some(s)
  {
    assert Quote(s)[1..|Quote(s)| - 1] == Escape(s);
    UnescapeEscape(s);
  }
}
