/** JSON string literals (section 7 of RFC 8259) as Go's encoding/json writes
    them, and a reader for them, so that the encoder is proved invertible. */
module Json {
  import opened Wrappers

  /** A lower-case hexadecimal digit, as Go's encoder writes them. */
  function HexDigit(d: nat): (c: char)
    requires d < 16
    ensures HexValue(c) == Some(d)
  {
    if d < 10 then ('0' as int + d) as char else ('a' as int + d - 10) as char
  }

  /** The value of a hexadecimal digit of either case. */
  function HexValue(c: char): (r: Option<nat>)
    ensures r.Some? ==> r.value < 16
  {
    if '0' <= c <= '9' then Some(c as int - '0' as int)
    else if 'a' <= c <= 'f' then Some(c as int - 'a' as int + 10)
    else if 'A' <= c <= 'F' then Some(c as int - 'A' as int + 10)
    else None
  }

  /** Characters Go's encoder copies unchanged into a string literal (with HTML
      escaping on, as json.Marshal has it). */
  predicate Plain(c: char) {
    ' ' <= c && c != '"' && c != '\\' && c != '<' && c != '>' && c != '&'
    && c != '\U{2028}' && c != '\U{2029}'
  }

  /** How one character is written inside a string literal: quote and backslash
      are backslash-escaped, newline, carriage return and tab use their short
      escapes, every other control character and the HTML-sensitive <, > and &
      become \u00XX, and U+2028 and U+2029 become \u2028 and \u2029. */
  function EscapeChar(c: char): (r: string)
    ensures Plain(c) <==> r == [c]
  {
    if c == '"' then "\\\""
    else if c == '\\' then "\\\\"
    else if c == '\n' then "\\n"
    else if c == '\r' then "\\r"
    else if c == '\t' then "\\t"
    else if c < ' ' || c == '<' || c == '>' || c == '&' then
      "\\u00" + [HexDigit(c as int / 16), HexDigit(c as int % 16)]
    else if c == '\U{2028}' || c == '\U{2029}' then
      "\\u202" + [HexDigit(c as int % 16)]
    else [c]
  }

  /** The body of a string literal, without the surrounding quotes. */
  function Escape(s: string): (r: string)
    ensures |r| >= |s|
    decreases |s|
  {
    if s == [] then [] else EscapeChar(s[0]) + Escape(s[1..])
  }

  /** A complete string literal. */
  function Quote(s: string): string {
    "\"" + Escape(s) + "\""
  }

  /** Adds `c` in front of the text a successful read returned. */
  function Prepend(c: char, o: Option<(string, string)>): (r: Option<(string, string)>)
    ensures r.Some? <==> o.Some?
    ensures r.Some? ==> r.value == ([c] + o.value.0, o.value.1)
  {
    match o
    case None => None
    case Some(p) => Some(([c] + p.0, p.1))
  }

  /** Reads the escape sequence that follows a backslash: the character it
      stands for and how many characters it occupies. Lone surrogates are
      refused. */
  function ReadEscape(s: string): (r: Option<(char, nat)>)
    ensures r.Some? ==> 1 <= r.value.1 <= |s|
  {
    if |s| == 0 then None
    else if s[0] == '"' then Some(('"', 1))
    else if s[0] == '\\' then Some(('\\', 1))
    else if s[0] == '/' then Some(('/', 1))
    else if s[0] == 'b' then Some(('\U{0008}', 1))
    else if s[0] == 'f' then Some(('\U{000c}', 1))
    else if s[0] == 'n' then Some(('\n', 1))
    else if s[0] == 'r' then Some(('\r', 1))
    else if s[0] == 't' then Some(('\t', 1))
    else if s[0] == 'u' && |s| >= 5 then
      match (HexValue(s[1]), HexValue(s[2]), HexValue(s[3]), HexValue(s[4]))
      case (Some(a), Some(b), Some(c), Some(d)) =>
        var v := a * 4096 + b * 256 + c * 16 + d;
        if 0xD800 <= v < 0xE000 then None else Some((v as char, 5))
      case _ => None
    else None
  }

  /** Reads the body of a string literal up to and including its closing quote,
      giving the text it denotes and what follows the quote. Unescaped control
      characters are refused, as RFC 8259 requires. */
  function ReadString(s: string): (r: Option<(string, string)>)
    ensures r.Some? ==> |r.value.1| < |s|
    decreases |s|
  {
    if |s| == 0 then None
    else if s[0] == '"' then Some(([], s[1..]))
    else if s[0] == '\\' then
      match ReadEscape(s[1..])
      case None => None
      case Some(e) => Prepend(e.0, ReadString(s[1 + e.1..]))
    else if s[0] < ' ' then None
    else Prepend(s[0], ReadString(s[1..]))
  }

  /** Reads a complete string literal. */
  function ReadQuoted(s: string): (r: Option<(string, string)>)
    ensures r.Some? ==> |r.value.1| < |s|
  {
    if |s| > 0 && s[0] == '"' then ReadString(s[1..]) else None
  }

  /** A \u00XX sequence reads as the character with that code. */
  lemma ReadByteEscape(hi: nat, lo: nat, t: string)
    requires hi < 16 && lo < 16
    ensures ReadEscape(['u', '0', '0', HexDigit(hi), HexDigit(lo)] + t) == Some(((hi * 16 + lo) as char, 5))
  {
    var s := ['u', '0', '0', HexDigit(hi), HexDigit(lo)] + t;
    assert s[0] == 'u' && s[1] == '0' && s[2] == '0' && s[3] == HexDigit(hi) && s[4] == HexDigit(lo);
  }

  /** A backslash and a readable escape sequence contribute the character it
      stands for. */
  lemma ReadStringEscape(s: string, c: char, n: nat)
    requires |s| > 0 && s[0] == '\\' && ReadEscape(s[1..]) == Some((c, n))
    ensures ReadString(s) == Prepend(c, ReadString(s[1 + n..]))
  {
  }

  /** How a control or HTML-sensitive character is written. */
  lemma HexEscapeForm(c: char)
    requires (c < ' ' && c != '\n' && c != '\r' && c != '\t') || c == '<' || c == '>' || c == '&'
    ensures EscapeChar(c) == ['\\', 'u', '0', '0', HexDigit(c as int / 16), HexDigit(c as int % 16)]
  {
  }

  /** The \u00XX form of a control or HTML-sensitive character reads back. */
  lemma ReadHexEscape(c: char, t: string)
    requires (c < ' ' && c != '\n' && c != '\r' && c != '\t') || c == '<' || c == '>' || c == '&'
    ensures ReadString(EscapeChar(c) + t) == Prepend(c, ReadString(t))
  {
    var hi, lo := c as int / 16, c as int % 16;
    HexEscapeForm(c);
    var s := ['\\', 'u', '0', '0', HexDigit(hi), HexDigit(lo)] + t;
    assert s[1..] == ['u', '0', '0', HexDigit(hi), HexDigit(lo)] + t;
    ReadByteEscape(hi, lo, t);
    assert (hi * 16 + lo) as char == c;
    assert s[6..] == t;
    ReadStringEscape(s, c, 5);
  }

  /** The \u202X form of a line or paragraph separator reads back. */
  lemma ReadSeparatorEscape(c: char, t: string)
    requires c == '\U{2028}' || c == '\U{2029}'
    ensures ReadString(EscapeChar(c) + t) == Prepend(c, ReadString(t))
  {
    var s := EscapeChar(c) + t;
    assert EscapeChar(c) == "\\u202" + [HexDigit(c as int % 16)];
    assert s[1..] == ['u', '2', '0', '2', HexDigit(c as int % 16)] + t;
    assert ReadEscape(s[1..]) == Some((c, 5));
    assert s[6..] == t;
    ReadStringEscape(s, c, 5);
  }

  /** Reading back one escaped character gives that character. */
  lemma ReadEscapedChar(c: char, t: string)
    ensures ReadString(EscapeChar(c) + t) == Prepend(c, ReadString(t))
  {
    var s := EscapeChar(c) + t;
    if (c < ' ' && c != '\n' && c != '\r' && c != '\t') || c == '<' || c == '>' || c == '&' {
      ReadHexEscape(c, t);
    } else if c == '\U{2028}' || c == '\U{2029}' {
      ReadSeparatorEscape(c, t);
    } else if !Plain(c) {
      assert s[2..] == t;
    } else {
      assert s[1..] == t;
    }
  }

  /** The reader inverts the escaper, and stops exactly at the closing quote. */
  lemma {:induction false} ReadEscaped(s: string, rest: string)
    ensures ReadString(Escape(s) + "\"" + rest) == Some((s, rest))
    decreases |s|
  {
    if s == [] {
      assert Escape(s) + "\"" + rest == "\"" + rest;
    } else {
      var t := Escape(s[1..]) + "\"" + rest;
      assert Escape(s) + "\"" + rest == EscapeChar(s[0]) + t;
      ReadEscapedChar(s[0], t);
      ReadEscaped(s[1..], rest);
      assert [s[0]] + s[1..] == s;
    }
  }

  /** A quoted literal followed by anything reads back as its text. */
  lemma QuoteRoundTrip(s: string, rest: string)
    ensures ReadQuoted(Quote(s) + rest) == Some((s, rest))
  {
    assert (Quote(s) + rest)[1..] == Escape(s) + "\"" + rest;
    ReadEscaped(s, rest);
  }

  /** Two literals with the same text are the same; so is their continuation. */
  lemma QuoteInjective(s1: string, r1: string, s2: string, r2: string)
    requires Quote(s1) + r1 == Quote(s2) + r2
    ensures s1 == s2 && r1 == r2
  {
    QuoteRoundTrip(s1, r1);
    QuoteRoundTrip(s2, r2);
  }

  /** Text made of plain characters is copied unchanged. */
  lemma {:induction false} EscapePlain(s: string)
    requires forall i :: 0 <= i < |s| ==> Plain(s[i])
    ensures Escape(s) == s
    decreases |s|
  {
    if s != [] {
      EscapePlain(s[1..]);
      assert [s[0]] + s[1..] == s;
    }
  }
}
