/**
 * JSON string literals: the encoder is Go's json.Marshal applied to a string
 * (HTML-safe escaping, as encoding/json does by default, in the form of Go
 * 1.22 and later) and the decoder is JSON.parse applied to text that should
 * hold one JSON string. Strings here are sequences of Unicode scalar values,
 * so a \u escape of a lone surrogate, which JSON.parse accepts, does not
 * decode.
 */
module JsonString {
  import opened Wrappers
  import opened Text

  function HexDigit(d: nat): char
    requires d < 16
  {
    if d < 10 then ('0' as int + d) as char else ('a' as int + d - 10) as char
  }

  /** Four lower-case hexadecimal digits, as in Go's \u00XX escapes. */
  function Hex4(v: nat): (r: string)
    requires v < 0x10000
    ensures |r| == 4
  {
    Hex2(v / 256) + Hex2(v % 256)
  }

  function Hex2(x: nat): (r: string)
    requires x < 0x100
    ensures |r| == 2
  {
    [HexDigit(x / 16), HexDigit(x % 16)]
  }

  function HexValue(c: char): Option<nat>
  {
    if '0' <= c <= '9' then Some(c as int - '0' as int)
    else if 'a' <= c <= 'f' then Some(c as int - 'a' as int + 10)
    else if 'A' <= c <= 'F' then Some(c as int - 'A' as int + 10)
    else None
  }

  function Hex4Value(s: string): (r: Option<nat>)
    requires |s| == 4
    ensures r.Some? ==> r.value < 0x10000
  {
    match (HexValue(s[0]), HexValue(s[1]), HexValue(s[2]), HexValue(s[3]))
    case (Some(a), Some(b), Some(c), Some(d)) =>
      assert a < 16 && b < 16 && c < 16 && d < 16;
      Some(((a * 16 + b) * 16 + c) * 16 + d)
    case _ => None
  }

  lemma HexDigitValue(d: nat)
    requires d < 16
    ensures HexValue(HexDigit(d)) == Some(d)
  {
  }

  lemma Hex2Digits(x: nat)
    requires x < 0x100
    ensures HexValue(Hex2(x)[0]) == Some(x / 16) && HexValue(Hex2(x)[1]) == Some(x % 16)
    ensures x / 16 * 16 + x % 16 == x
  {
    HexDigitValue(x / 16);
    HexDigitValue(x % 16);
  }

  lemma Hex4RoundTrip(v: nat)
    requires v < 0x10000
    ensures Hex4Value(Hex4(v)) == Some(v)
  {
    var x, y := v / 256, v % 256;
    Hex2Digits(x);
    Hex2Digits(y);
    var h := Hex4(v);
    assert h[0] == Hex2(x)[0] && h[1] == Hex2(x)[1] && h[2] == Hex2(y)[0] && h[3] == Hex2(y)[1];
    assert ((x / 16 * 16 + x % 16) * 16 + y / 16) * 16 + y % 16 == x * 256 + y;
  }

  /** Characters Go writes as a \u escape: other control characters, the
      HTML-sensitive <, > and &, and the JavaScript line separators. */
  predicate NeedsUnicodeEscape(c: char)
  {
    c < ' ' || c == '<' || c == '>' || c == '&' || c == '\U{2028}' || c == '\U{2029}'
  }

  /** One character as Go 1.22 and later escape it: backspace and form feed
      as \b and \f (earlier releases write \u0008 and \u000c). */
  function EscapeChar(c: char): (r: string)
    ensures |r| >= 1
  {
    if c == '"' then "\\\""
    else if c == '\\' then "\\\\"
    else if c == '\n' then "\\n"
    else if c == '\r' then "\\r"
    else if c == '\t' then "\\t"
    else if c == '\U{8}' then "\\b"
    else if c == '\U{C}' then "\\f"
    else if NeedsUnicodeEscape(c) then "\\u" + Hex4(c as int)
    else [c]
  }

  function EscapeBody(s: string): string
  {
    if s == [] then "" else EscapeChar(s[0]) + EscapeBody(s[1..])
  }

  /** json.Marshal of a Go string. */
  function Encode(s: string): (r: string)
    ensures |r| >= 2 && r[0] == '"' && r[|r| - 1] == '"'
  {
    "\"" + EscapeBody(s) + "\""
  }

  function Prepend(c: char, r: Option<string>): Option<string>
  {
    match r
    case None => None
    case Some(t) => Some([c] + t)
  }

  /** The code point of a UTF-16 surrogate pair. */
  function Combine(hi: nat, lo: nat): (cp: nat)
    requires 0xD800 <= hi < 0xDC00 && 0xDC00 <= lo < 0xE000
    ensures 0x10000 <= cp < 0x110000
  {
    0x10000 + (hi - 0xD800) * 0x400 + (lo - 0xDC00)
  }

  /** Decodes the rest of a string literal after its opening quote; the closing
      quote must be the last character. */
  function DecodeBody(t: string): Option<string>
    decreases |t|
  {
    if |t| == 0 then None
    else if t[0] == '"' then (if |t| == 1 then Some("") else None)
    else if t[0] == '\\' then
      if |t| < 2 then None
      else
        var e := t[1];
        if e == '"' || e == '\\' || e == '/' then Prepend(e, DecodeBody(t[2..]))
        else if e == 'b' then Prepend('\U{8}', DecodeBody(t[2..]))
        else if e == 'f' then Prepend('\U{C}', DecodeBody(t[2..]))
        else if e == 'n' then Prepend('\n', DecodeBody(t[2..]))
        else if e == 'r' then Prepend('\r', DecodeBody(t[2..]))
        else if e == 't' then Prepend('\t', DecodeBody(t[2..]))
        else if e == 'u' && |t| >= 6 then
          match Hex4Value(t[2..6])
          case None => None
          case Some(v) =>
            if v < 0xD800 || v >= 0xE000 then Prepend(v as char, DecodeBody(t[6..]))
            else if v < 0xDC00 && |t| >= 12 && t[6] == '\\' && t[7] == 'u' then
              match Hex4Value(t[8..12])
              case None => None
              case Some(w) =>
                if 0xDC00 <= w < 0xE000 then Prepend(Combine(v, w) as char, DecodeBody(t[12..]))
                else None
            else None
        else None
    else if t[0] < ' ' then None
    else Prepend(t[0], DecodeBody(t[1..]))
  }

  /** JSON.parse of text expected to hold a single JSON string: surrounding
      JSON whitespace is allowed; anything else that is not one string
      literal gives None. */
  function Decode(s: string): Option<string>
  {
    var u := Trim(s, JsonSpace);
    if |u| >= 1 && u[0] == '"' then DecodeBody(u[1..]) else None
  }

  lemma {:induction false} EscapeCharDecodes(c: char, rest: string)
    ensures DecodeBody(EscapeChar(c) + rest) == Prepend(c, DecodeBody(rest))
  {
    var t := EscapeChar(c) + rest;
    if c == '"' || c == '\\' || c == '\n' || c == '\r' || c == '\t' || c == '\U{8}' || c == '\U{C}' {
      assert t[2..] == rest;
    } else if NeedsUnicodeEscape(c) {
      Hex4RoundTrip(c as int);
      assert t[2..6] == Hex4(c as int);
      assert t[6..] == rest;
    } else {
      assert t[1..] == rest;
    }
  }

  lemma {:induction false} EscapeBodyDecodes(s: string)
    ensures DecodeBody(EscapeBody(s) + "\"") == Some(s)
  {
    if s == [] {
      assert EscapeBody(s) + "\"" == "\"";
    } else {
      EscapeBodyDecodes(s[1..]);
      assert EscapeBody(s) + "\"" == EscapeChar(s[0]) + (EscapeBody(s[1..]) + "\"");
      EscapeCharDecodes(s[0], EscapeBody(s[1..]) + "\"");
      assert [s[0]] + s[1..] == s;
    }
  }

  /** Decoding what Go encodes gives back the original text. */
  lemma RoundTrip(s: string)
    ensures Decode(Encode(s)) == Some(s)
  {
    var e := Encode(s);
    TrimLeftNoop(e, JsonSpace);
    TrimRightNoop(e, JsonSpace);
    assert e[1..] == EscapeBody(s) + "\"";
    EscapeBodyDecodes(s);
  }

  lemma {:induction false} EscapeBodyPrintable(s: string)
    ensures forall k :: 0 <= k < |EscapeBody(s)| ==> ' ' <= EscapeBody(s)[k]
  {
    if s != [] {
      EscapeBodyPrintable(s[1..]);
      var a, b := EscapeChar(s[0]), EscapeBody(s[1..]);
      if NeedsUnicodeEscape(s[0]) && !(s[0] == '\n' || s[0] == '\r' || s[0] == '\t' || s[0] == '\U{8}' || s[0] == '\U{C}') {
        assert forall k :: 0 <= k < |a| ==> ' ' <= a[k];
      }
      forall k | 0 <= k < |a + b|
        ensures ' ' <= (a + b)[k]
      {
        if k >= |a| {
          assert (a + b)[k] == b[k - |a|];
        }
      }
    }
  }

  /** The encoding holds no control character, in particular no line feed and no
      carriage return: it always fits on one line of an event stream. */
  lemma EncodePrintable(s: string)
    ensures forall k :: 0 <= k < |Encode(s)| ==> ' ' <= Encode(s)[k]
    ensures '\n' !in Encode(s) && '\r' !in Encode(s)
  {
    EscapeBodyPrintable(s);
    var e := Encode(s);
    forall k | 0 <= k < |e|
      ensures ' ' <= e[k]
    {
      if 0 < k < |e| - 1 {
        assert e[k] == EscapeBody(s)[k - 1];
      }
    }
  }
}
