/** `JSON.stringify` on the values the harvester serialises: strings (quoted as section 7 of
    RFC 8259 and ECMAScript's QuoteJSONString prescribe), flat objects of optional strings and
    arrays of already-serialised values. */
module Json {
  import opened Js

  function HexDigit(d: nat): char
    requires d < 16
  {
    if d < 10 then ('0' as int + d) as char else ('a' as int + d - 10) as char
  }

  function HexValue(c: char): Option<nat> {
    if '0' <= c <= '9' then Some(c as int - '0' as int)
    else if 'a' <= c <= 'f' then Some(c as int - 'a' as int + 10)
    else if 'A' <= c <= 'F' then Some(c as int - 'A' as int + 10)
    else None
  }

  /** The escape `JSON.stringify` writes for one character of a string. */
  function EscapeChar(c: char): string {
    if c == '\U{8}' then "\\b"
    else if c == '\t' then "\\t"
    else if c == '\n' then "\\n"
    else if c == '\U{C}' then "\\f"
    else if c == '\r' then "\\r"
    else if c == '"' then "\\\""
    else if c == '\\' then "\\\\"
    else if (c as int) < 0x20 then "\\u00" + [HexDigit(c as int / 16), HexDigit(c as int % 16)]
    else [c]
  }

  function Escape(s: string): string
    decreases |s|
  {
    if |s| == 0 then "" else EscapeChar(s[0]) + Escape(s[1..])
  }

  /** `JSON.stringify(s)` for a string `s`. */
  function Quote(s: string): string {
    "\"" + Escape(s) + "\""
  }

  /** The character a simple two-character escape `\e` stands for. */
  function SimpleEscape(e: char): Option<char> {
    if e == 'b' then Some('\U{8}')
    else if e == 't' then Some('\t')
    else if e == 'n' then Some('\n')
    else if e == 'f' then Some('\U{C}')
    else if e == 'r' then Some('\r')
    else if e == '"' then Some('"')
    else if e == '\\' then Some('\\')
    else if e == '/' then Some('/')
    else None
  }

  /** The value of four hexadecimal digits, when they denote a Unicode scalar value. */
  function Hex4(h: string): Option<char>
    requires |h| == 4
  {
    var a, b, c, d := HexValue(h[0]), HexValue(h[1]), HexValue(h[2]), HexValue(h[3]);
    if a.None? || b.None? || c.None? || d.None? then None
    else
      var v := ((a.value * 16 + b.value) * 16 + c.value) * 16 + d.value;
      if 0xD800 <= v < 0xE000 then None else Some(v as char)
  }

  function Prepend(c: char, r: Option<string>): Option<string> {
    if r.Some? then Some([c] + r.value) else None
  }

  /** Reads the body of a JSON string (between the quotes) back to the text it denotes. */
  function Unescape(s: string): Option<string>
    decreases |s|
  {
    if |s| == 0 then Some("")
    else if s[0] == '"' || (s[0] as int) < 0x20 then None
    else if s[0] != '\\' then Prepend(s[0], Unescape(s[1..]))
    else if |s| < 2 then None
    else if SimpleEscape(s[1]).Some? then Prepend(SimpleEscape(s[1]).value, Unescape(s[2..]))
    else if s[1] == 'u' && |s| >= 6 && Hex4(s[2..6]).Some? then Prepend(Hex4(s[2..6]).value, Unescape(s[6..]))
    else None
  }

  /** Reads a JSON string literal back to the text it denotes. */
  function Unquote(s: string): Option<string> {
    if |s| >= 2 && s[0] == '"' && s[|s| - 1] == '"' then Unescape(s[1..|s| - 1]) else None
  }

  lemma HexDigitValue(d: nat)
    requires d < 16
    ensures HexValue(HexDigit(d)) == Some(d)
  {
  }

  /** Reading back one escaped character. */
  lemma EscapeCharThenRest(c: char, t: string)
    ensures Unescape(EscapeChar(c) + t) == Prepend(c, Unescape(t))
  {
    if c == '\U{8}' {
      SimpleThenRest('b', t);
    } else if c == '\t' {
      SimpleThenRest('t', t);
    } else if c == '\n' {
      SimpleThenRest('n', t);
    } else if c == '\U{C}' {
      SimpleThenRest('f', t);
    } else if c == '\r' {
      SimpleThenRest('r', t);
    } else if c == '"' {
      SimpleThenRest('"', t);
    } else if c == '\\' {
      SimpleThenRest('\\', t);
    } else if (c as int) < 0x20 {
      ControlThenRest(c, t);
    } else {
      assert ([c] + t)[1..] == t;
    }
  }

  /** Reading back a two-character escape. */
  lemma SimpleThenRest(e: char, t: string)
    requires SimpleEscape(e).Some?
    ensures Unescape(['\\', e] + t) == Prepend(SimpleEscape(e).value, Unescape(t))
  {
    assert (['\\', e] + t)[2..] == t;
  }

  /** Reading back a `\u00XX` escape of a control character. */
  lemma ControlThenRest(c: char, t: string)
    requires (c as int) < 0x20
    ensures Unescape("\\u00" + [HexDigit(c as int / 16), HexDigit(c as int % 16)] + t) == Prepend(c, Unescape(t))
  {
    var hi, lo := c as int / 16, c as int % 16;
    var s := "\\u00" + [HexDigit(hi), HexDigit(lo)] + t;
    HexDigitValue(hi);
    HexDigitValue(lo);
    assert s[2..6] == ['0', '0', HexDigit(hi), HexDigit(lo)];
    assert s[6..] == t;
  }

  /** Escaping loses nothing: reading back the escaped text gives the original. */
  lemma {:induction false} EscapeRoundTrip(s: string)
    ensures Unescape(Escape(s)) == Some(s)
    decreases |s|
  {
    if |s| > 0 {
      EscapeRoundTrip(s[1..]);
      EscapeCharThenRest(s[0], Escape(s[1..]));
      assert s == [s[0]] + s[1..];
    }
  }

  /** `JSON.stringify` on a string is inverted by reading the literal back. */
  lemma QuoteRoundTrip(s: string)
    ensures Unquote(Quote(s)) == Some(s)
  {
    var q := Quote(s);
    assert q[1..|q| - 1] == Escape(s);
    EscapeRoundTrip(s);
  }

  /** Two strings quote the same only when they are equal. */
  lemma QuoteInjective(s: string, t: string)
    requires Quote(s) == Quote(t)
    ensures s == t
  {
    QuoteRoundTrip(s);
    QuoteRoundTrip(t);
  }

  /** An escaped text holds no control character, so a quoted string never breaks a line. */
  lemma {:induction false} EscapeNoControl(s: string)
    ensures forall i :: 0 <= i < |Escape(s)| ==> Escape(s)[i] as int >= 0x20
    decreases |s|
  {
    if |s| > 0 {
      EscapeNoControl(s[1..]);
      var e := EscapeChar(s[0]);
      assert forall i :: 0 <= i < |e| ==> e[i] as int >= 0x20;
      var r := Escape(s);
      assert r == e + Escape(s[1..]);
      forall i | 0 <= i < |r| ensures r[i] as int >= 0x20 {
        if i >= |e| {
          assert r[i] == Escape(s[1..])[i - |e|];
        }
      }
    }
  }

  lemma QuoteNoNewline(s: string)
    ensures '\n' !in Quote(s)
  {
    EscapeNoControl(s);
    var q := Quote(s);
    forall i | 0 <= i < |q| ensures q[i] != '\n' {
      if 0 < i < |q| - 1 {
        assert q[i] == Escape(s)[i - 1];
      }
    }
  }

  // ---------------------------------------------------------------------------
  // Objects and arrays

  /** The `"key":value` members of an object, in property order; undefined properties are left out. */
  function Members(props: seq<(string, Option<string>)>): seq<string>
    decreases |props|
  {
    if |props| == 0 then []
    else
      var rest := Members(props[1..]);
      if props[0].1.Some? then [Quote(props[0].0) + ":" + Quote(props[0].1.value)] + rest else rest
  }

  /** `JSON.stringify` of an object whose properties are strings or undefined. */
  function Object(props: seq<(string, Option<string>)>): string {
    "{" + Join(Members(props), ",") + "}"
  }

  /** `JSON.stringify` of an array, given its serialised elements. */
  function Array(items: seq<string>): string {
    "[" + Join(items, ",") + "]"
  }
}
