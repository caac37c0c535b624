/**
 * The string case of `JSON.stringify` (QuoteJSONString, section 25.5.2.3 of ECMA-262) and the
 * matching reading of a JSON string body (section 9 of ECMA-404), so that a request body can be
 * shown to carry its text unchanged.
 */
module Json {
  import opened Wrappers

  function HexDigit(d: int): (c: char)
    requires 0 <= d < 16
  {
    if d < 10 then (d + '0' as int) as char else (d - 10 + 'a' as int) as char
  }

  /** The value of a hexadecimal digit of either case, or -1. */
  function HexValue(c: char): (v: int)
    ensures -1 <= v < 16
  {
    if '0' <= c <= '9' then c as int - '0' as int
    else if 'a' <= c <= 'f' then c as int - 'a' as int + 10
    else if 'A' <= c <= 'F' then c as int - 'A' as int + 10
    else -1
  }

  lemma HexRoundTrip(d: int)
    requires 0 <= d < 16
    ensures HexValue(HexDigit(d)) == d
  {
  }

  /** How one character is written inside a JSON string. */
  function EscapeChar(c: char): (e: string)
    ensures |e| >= 1
  {
    if c == '"' then "\\\""
    else if c == '\\' then "\\\\"
    else if c == '\U{0008}' then "\\b"
    else if c == '\t' then "\\t"
    else if c == '\n' then "\\n"
    else if c == '\U{000C}' then "\\f"
    else if c == '\r' then "\\r"
    else if c < ' ' then "\\u00" + [HexDigit(c as int / 16), HexDigit(c as int % 16)]
    else [c]
  }

  function Escape(s: string): string
  {
    if s == [] then [] else EscapeChar(s[0]) + Escape(s[1..])
  }

  /** `JSON.stringify(s)` for a string `s`. */
  function Quote(s: string): string
  {
    "\"" + Escape(s) + "\""
  }

  function Prepend(c: char, r: Option<string>): Option<string>
  {
    if r.None? then None else Some([c] + r.value)
  }

  /** The character of a one-letter escape `\x`, if `x` is one. */
  function ShortEscape(x: char): Option<char>
  {
    if x == '"' then Some('"')
    else if x == '\\' then Some('\\')
    else if x == '/' then Some('/')
    else if x == 'b' then Some('\U{0008}')
    else if x == 'f' then Some('\U{000C}')
    else if x == 'n' then Some('\n')
    else if x == 'r' then Some('\r')
    else if x == 't' then Some('\t')
    else None
  }

  /** The value of four hex digits. */
  function Hex4(a: char, b: char, c: char, d: char): int
  {
    if HexValue(a) < 0 || HexValue(b) < 0 || HexValue(c) < 0 || HexValue(d) < 0 then -1
    else ((HexValue(a) * 16 + HexValue(b)) * 16 + HexValue(c)) * 16 + HexValue(d)
  }

  /**
   * Reads the body of a JSON string (between the quotes): unescaped `"`, `\` and control
   * characters are errors, as are unknown escapes and `\u` escapes of surrogate halves,
   * which a Dafny string cannot hold.
   */
  function Unescape(s: string): Option<string>
    decreases |s|
  {
    if s == [] then Some([])
    else if s[0] == '"' || s[0] < ' ' then None
    else if s[0] != '\\' then Prepend(s[0], Unescape(s[1..]))
    else if |s| < 2 then None
    else if s[1] != 'u' then
      var c := ShortEscape(s[1]);
      if c.None? then None else Prepend(c.value, Unescape(s[2..]))
    else if |s| < 6 then None
    else
      var v := Hex4(s[2], s[3], s[4], s[5]);
      if v < 0 || (0xD800 <= v < 0xE000) then None
      else Prepend(v as char, Unescape(s[6..]))
  }

  lemma {:induction false} EscapeCharRoundTrip(c: char, rest: string)
    ensures Unescape(EscapeChar(c) + rest) == Prepend(c, Unescape(rest))
  {
    var e := EscapeChar(c);
    if c == '"' || c == '\\' || c == '\U{0008}' || c == '\t' || c == '\n' || c == '\U{000C}' || c == '\r' {
      assert (e + rest)[2..] == rest;
    } else if c < ' ' {
      var hi, lo := c as int / 16, c as int % 16;
      HexRoundTrip(hi);
      HexRoundTrip(lo);
      HexRoundTrip(0);
      assert (e + rest)[6..] == rest;
      assert Hex4('0', '0', HexDigit(hi), HexDigit(lo)) == c as int;
    } else {
      assert (e + rest)[1..] == rest;
    }
  }

  lemma {:induction false} EscapeAppend(s: string, t: string)
    ensures Escape(s + t) == Escape(s) + Escape(t)
  {
    if s != [] {
      assert (s + t)[1..] == s[1..] + t;
      EscapeAppend(s[1..], t);
    } else {
      assert s + t == t;
    }
  }

  /** Reading an escaped text gives back the text: `JSON.parse(JSON.stringify(s)) === s`. */
  lemma {:induction false} UnescapeEscape(s: string)
    ensures Unescape(Escape(s)) == Some(s)
  {
    if s != [] {
      UnescapeEscape(s[1..]);
      EscapeCharRoundTrip(s[0], Escape(s[1..]));
      assert [s[0]] + s[1..] == s;
    }
  }

  /** An escaped text never holds a bare `"`, so the closing quote of `Quote(s)` is its last. */
  lemma {:induction false} EscapeHasNoQuote(s: string)
    ensures forall i :: 0 <= i < |Escape(s)| && Escape(s)[i] == '"' ==> i > 0 && Escape(s)[i - 1] == '\\'
  {
    if s != [] {
      EscapeHasNoQuote(s[1..]);
      var e, r := EscapeChar(s[0]), Escape(s[1..]);
      assert Escape(s) == e + r;
      forall i | 0 <= i < |e + r| && (e + r)[i] == '"' ensures i > 0 && (e + r)[i - 1] == '\\' {
        if i < |e| {
          assert s[0] == '"' && i == 1;
        } else if i > |e| {
          assert r[i - |e|] == '"';
        }
      }
    }
  }
}
