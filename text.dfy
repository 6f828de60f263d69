/**
 * String helpers shared by the Go services and the web client.
 * Strings are sequences of Unicode scalar values. Where Go and JavaScript
 * disagree (what counts as whitespace, how a length is measured) the helper
 * takes the runtime as a parameter.
 */
module Text {
  import opened Wrappers

  /** The whitespace notion in use: Go's unicode.IsSpace (strings.TrimSpace),
      JavaScript's String.prototype.trim, or JSON's insignificant whitespace. */
  datatype Space = GoSpace | JsSpace | JsonSpace

  predicate IsSpace(c: char, sp: Space)
  {
    match sp
    case JsonSpace => c == ' ' || c == '\t' || c == '\n' || c == '\r'
    case GoSpace =>
      c == ' ' || ('\t' <= c <= '\r') || c == '\U{85}' || c == '\U{A0}' || c == '\U{1680}'
      || ('\U{2000}' <= c <= '\U{200A}') || c == '\U{2028}' || c == '\U{2029}'
      || c == '\U{202F}' || c == '\U{205F}' || c == '\U{3000}'
    case JsSpace =>
      c == ' ' || ('\t' <= c <= '\r') || c == '\U{A0}' || c == '\U{1680}'
      || ('\U{2000}' <= c <= '\U{200A}') || c == '\U{2028}' || c == '\U{2029}'
      || c == '\U{202F}' || c == '\U{205F}' || c == '\U{3000}' || c == '\U{FEFF}'
  }

  /** ASCII characters are whitespace for Go exactly when they are for JavaScript. */
  lemma AsciiSpaceAgrees(c: char)
    requires c < '\U{80}'
    ensures IsSpace(c, GoSpace) <==> IsSpace(c, JsSpace)
  {
  }

  function TrimLeft(s: string, sp: Space): (r: string)
    ensures |r| <= |s| && r == s[|s| - |r|..]
    ensures forall k :: 0 <= k < |s| - |r| ==> IsSpace(s[k], sp)
    ensures |r| > 0 ==> !IsSpace(r[0], sp)
    decreases |s|
  {
    if |s| > 0 && IsSpace(s[0], sp) then TrimLeft(s[1..], sp) else s
  }

  function TrimRight(s: string, sp: Space): (r: string)
    ensures |r| <= |s| && r == s[..|r|]
    ensures forall k :: |r| <= k < |s| ==> IsSpace(s[k], sp)
    ensures |r| > 0 ==> !IsSpace(r[|r| - 1], sp)
    decreases |s|
  {
    if |s| > 0 && IsSpace(s[|s| - 1], sp) then TrimRight(s[..|s| - 1], sp) else s
  }

  /** Removes leading and trailing whitespace (strings.TrimSpace, String.prototype.trim). */
  function Trim(s: string, sp: Space): (r: string)
  {
    TrimRight(TrimLeft(s, sp), sp)
  }

  predicate Trimmed(s: string, sp: Space)
  {
    |s| > 0 ==> !IsSpace(s[0], sp) && !IsSpace(s[|s| - 1], sp)
  }

  lemma TrimLeftNoop(s: string, sp: Space)
    requires |s| == 0 || !IsSpace(s[0], sp)
    ensures TrimLeft(s, sp) == s
  {
  }

  lemma TrimRightNoop(s: string, sp: Space)
    requires |s| == 0 || !IsSpace(s[|s| - 1], sp)
    ensures TrimRight(s, sp) == s
  {
  }

  /** Trim yields a trimmed infix of its input, and leaves a trimmed string alone. */
  lemma TrimShape(s: string, sp: Space)
    ensures Trimmed(Trim(s, sp), sp)
    ensures exists i, j :: 0 <= i <= j <= |s| && Trim(s, sp) == s[i..j]
    ensures Trimmed(s, sp) ==> Trim(s, sp) == s
  {
    var l := TrimLeft(s, sp);
    var r := TrimRight(l, sp);
    if |r| > 0 {
      assert r[0] == l[0];
    }
    assert r == s[|s| - |l|..|s| - |l| + |r|];
    if Trimmed(s, sp) {
      TrimLeftNoop(s, sp);
      TrimRightNoop(s, sp);
    }
  }

  lemma TrimIsTrimmed(s: string, sp: Space)
    ensures Trimmed(Trim(s, sp), sp)
  {
    TrimShape(s, sp);
  }

  lemma TrimIdempotent(s: string, sp: Space)
    ensures Trim(Trim(s, sp), sp) == Trim(s, sp)
  {
    TrimShape(s, sp);
    TrimShape(Trim(s, sp), sp);
  }

  lemma {:induction false} TrimLeftSpaces(pre: string, t: string, sp: Space)
    requires forall k :: 0 <= k < |pre| ==> IsSpace(pre[k], sp)
    requires |t| > 0 && !IsSpace(t[0], sp)
    ensures TrimLeft(pre + t, sp) == t
    decreases |pre|
  {
    if pre == [] {
      assert pre + t == t;
    } else {
      assert (pre + t)[0] == pre[0];
      assert (pre + t)[1..] == pre[1..] + t;
      TrimLeftSpaces(pre[1..], t, sp);
    }
  }

  lemma {:induction false} TrimRightSpaces(t: string, post: string, sp: Space)
    requires forall k :: 0 <= k < |post| ==> IsSpace(post[k], sp)
    requires |t| > 0 && !IsSpace(t[|t| - 1], sp)
    ensures TrimRight(t + post, sp) == t
    decreases |post|
  {
    if post == [] {
      assert t + post == t;
    } else {
      var s := t + post;
      assert s[|s| - 1] == post[|post| - 1];
      assert s[..|s| - 1] == t + post[..|post| - 1];
      TrimRightSpaces(t, post[..|post| - 1], sp);
    }
  }

  /** White space around a text with no white space at its ends is what Trim removes. */
  lemma TrimSurrounded(pre: string, t: string, post: string, sp: Space)
    requires forall k :: 0 <= k < |pre| ==> IsSpace(pre[k], sp)
    requires forall k :: 0 <= k < |post| ==> IsSpace(post[k], sp)
    requires |t| > 0 && !IsSpace(t[0], sp) && !IsSpace(t[|t| - 1], sp)
    ensures Trim(pre + t + post, sp) == t
  {
    assert pre + t + post == pre + (t + post);
    assert (t + post)[0] == t[0];
    TrimLeftSpaces(pre, t + post, sp);
    TrimRightSpaces(t, post, sp);
  }

  /** strings.TrimSuffix */
  function TrimSuffix(s: string, suffix: string): string
  {
    if |suffix| <= |s| && s[|s| - |suffix|..] == suffix then s[..|s| - |suffix|] else s
  }

  /** strings.HasPrefix / String.prototype.startsWith */
  predicate HasPrefix(s: string, prefix: string)
  {
    |prefix| <= |s| && s[..|prefix|] == prefix
  }

  /** Whether `sub` occurs in `s` at index `k`. */
  predicate OccursAt(s: string, sub: string, k: int)
  {
    0 <= k && k + |sub| <= |s| && s[k..k + |sub|] == sub
  }

  function IndexFrom(s: string, sub: string, i: nat): (r: Option<nat>)
    requires i <= |s|
    ensures r.Some? ==> (i <= r.value && OccursAt(s, sub, r.value)
                         && forall k :: i <= k < r.value ==> !OccursAt(s, sub, k))
    ensures r.None? ==> forall k :: i <= k <= |s| ==> !OccursAt(s, sub, k)
    decreases |s| - i
  {
    if OccursAt(s, sub, i) then Some(i)
    else if i + |sub| >= |s| then None
    else IndexFrom(s, sub, i + 1)
  }

  /** The first occurrence of `sub` in `s` (strings.Index, String.prototype.indexOf). */
  function IndexOf(s: string, sub: string): (r: Option<nat>)
    ensures r.Some? ==> OccursAt(s, sub, r.value) && forall k :: 0 <= k < r.value ==> !OccursAt(s, sub, k)
    ensures r.None? ==> forall k :: 0 <= k <= |s| ==> !OccursAt(s, sub, k)
  {
    IndexFrom(s, sub, 0)
  }

  predicate Contains(s: string, sub: string)
  {
    IndexOf(s, sub).Some?
  }

  lemma ContainsWitness(s: string, sub: string, k: int)
    requires OccursAt(s, sub, k)
    ensures Contains(s, sub)
  {
  }

  /** A string contains its own end. */
  lemma ContainsEnd(s: string, sub: string)
    ensures Contains(s + sub, sub)
  {
    assert (s + sub)[|s|..|s| + |sub|] == sub;
    ContainsWitness(s + sub, sub, |s|);
  }

  /** Appending text keeps what a string contains. */
  lemma ContainsGrow(s: string, sub: string, t: string)
    requires Contains(s, sub)
    ensures Contains(s + t, sub)
  {
    var k := IndexOf(s, sub).value;
    assert (s + t)[k..k + |sub|] == s[k..k + |sub|];
    ContainsWitness(s + t, sub, k);
  }

  /** strings.Split / String.prototype.split for a non-empty separator. */
  function Split(s: string, sep: string): (r: seq<string>)
    requires |sep| > 0
    ensures |r| >= 1
    decreases |s|
  {
    match IndexOf(s, sep)
    case None => [s]
    case Some(i) => [s[..i]] + Split(s[i + |sep|..], sep)
  }

  /** Each piece followed by the separator, concatenated. */
  function JoinTerminated(parts: seq<string>, sep: string): string
  {
    if parts == [] then "" else parts[0] + sep + JoinTerminated(parts[1..], sep)
  }

  /** strings.Join / Array.prototype.join */
  function Join(parts: seq<string>, sep: string): string
  {
    if parts == [] then "" else JoinTerminated(parts[..|parts| - 1], sep) + parts[|parts| - 1]
  }

  lemma JoinTerminatedAppend(a: seq<string>, b: seq<string>, sep: string)
    ensures JoinTerminated(a + b, sep) == JoinTerminated(a, sep) + JoinTerminated(b, sep)
  {
    if a == [] {
      assert a + b == b;
    } else {
      assert (a + b)[0] == a[0];
      assert (a + b)[1..] == a[1..] + b;
      JoinTerminatedAppend(a[1..], b, sep);
      calc {
        JoinTerminated(a + b, sep);
        a[0] + sep + JoinTerminated(a[1..] + b, sep);
        a[0] + sep + (JoinTerminated(a[1..], sep) + JoinTerminated(b, sep));
        (a[0] + sep + JoinTerminated(a[1..], sep)) + JoinTerminated(b, sep);
      }
    }
  }

  /** A piece that Split can cut off: the first occurrence of `sep` in `p + sep` is the appended one. */
  predicate SplitsCleanly(p: string, sep: string)
  {
    forall k :: 0 <= k < |p| ==> !OccursAt(p + sep, sep, k)
  }

  /** The first occurrence is unique. */
  lemma IndexOfIs(s: string, sub: string, k: nat)
    requires OccursAt(s, sub, k) && forall j :: 0 <= j < k ==> !OccursAt(s, sub, j)
    ensures IndexOf(s, sub) == Some(k)
  {
  }

  /** One step of Split: the piece before the first separator, then the rest. */
  lemma SplitStep(s: string, sep: string, i: nat)
    requires |sep| > 0 && IndexOf(s, sep) == Some(i)
    ensures i + |sep| <= |s|
    ensures Split(s, sep) == [s[..i]] + Split(s[i + |sep|..], sep)
    ensures s == s[..i] + sep + s[i + |sep|..]
    ensures SplitsCleanly(s[..i], sep)
  {
    var p := s[..i];
    var t := s[..i + |sep|];
    assert s[i..i + |sep|] == sep;
    assert p + sep == t;
    forall k | 0 <= k < |p|
      ensures !OccursAt(t, sep, k)
    {
      assert !OccursAt(s, sep, k);
      if k + |sep| <= |t| {
        assert t[k..k + |sep|] == s[k..k + |sep|];
      }
    }
    assert s == t + s[i + |sep|..];
  }

  /** Every piece but the last splits cleanly, and the last holds no separator. */
  lemma {:induction false} SplitPieces(s: string, sep: string)
    requires |sep| > 0
    ensures forall k :: 0 <= k < |Split(s, sep)| - 1 ==> SplitsCleanly(Split(s, sep)[k], sep)
    ensures !Contains(Split(s, sep)[|Split(s, sep)| - 1], sep)
    decreases |s|
  {
    match IndexOf(s, sep)
    case None =>
    case Some(i) =>
      SplitStep(s, sep, i);
      SplitPieces(s[i + |sep|..], sep);
  }

  /** Splitting and joining back restores the input. */
  lemma {:induction false} SplitJoin(s: string, sep: string)
    requires |sep| > 0
    ensures var ps := Split(s, sep); JoinTerminated(ps[..|ps| - 1], sep) + ps[|ps| - 1] == s
    ensures Join(Split(s, sep), sep) == s
    decreases |s|
  {
    var ps := Split(s, sep);
    if IndexOf(s, sep).Some? {
      var i := IndexOf(s, sep).value;
      var rest := s[i + |sep|..];
      SplitStep(s, sep, i);
      SplitJoin(rest, sep);
      var qs := Split(rest, sep);
      JoinStep(s[..i], qs, sep);
    }
  }

  lemma JoinStep(p: string, qs: seq<string>, sep: string)
    requires |qs| >= 1
    ensures var ps := [p] + qs;
      JoinTerminated(ps[..|ps| - 1], sep) + ps[|ps| - 1]
      == p + sep + (JoinTerminated(qs[..|qs| - 1], sep) + qs[|qs| - 1])
  {
    var ps := [p] + qs;
    assert ps[..|ps| - 1] == [p] + qs[..|qs| - 1];
    assert ps[..|ps| - 1][1..] == qs[..|qs| - 1];
  }

  /** Cleanly split pieces followed by a separator-free tail split back into themselves:
      splitting is insensitive to where a longer stream was cut into prefixes. */
  lemma {:induction false} SplitOfJoined(parts: seq<string>, tail: string, sep: string)
    requires |sep| > 0
    requires forall k :: 0 <= k < |parts| ==> SplitsCleanly(parts[k], sep)
    requires !Contains(tail, sep)
    ensures Split(JoinTerminated(parts, sep) + tail, sep) == parts + [tail]
    decreases |parts|
  {
    if parts == [] {
      assert JoinTerminated(parts, sep) + tail == tail;
    } else {
      var p := parts[0];
      var rest := JoinTerminated(parts[1..], sep) + tail;
      assert JoinTerminated(parts, sep) + tail == (p + sep) + rest;
      SplitPrepend(p, sep, rest);
      forall k | 0 <= k < |parts[1..]|
        ensures SplitsCleanly(parts[1..][k], sep)
      {
        assert parts[1..][k] == parts[k + 1];
      }
      SplitOfJoined(parts[1..], tail, sep);
      assert parts == [p] + parts[1..];
    }
  }

  /** A piece free of a one-character separator splits cleanly and holds no separator. */
  lemma CharFree(p: string, c: char)
    requires c !in p
    ensures SplitsCleanly(p, [c]) && !Contains(p, [c])
  {
    forall k | 0 <= k < |p|
      ensures !OccursAt(p + [c], [c], k)
    {
      assert (p + [c])[k] == p[k];
    }
    forall k | 0 <= k <= |p|
      ensures !OccursAt(p, [c], k)
    {
      if k + 1 <= |p| {
        assert p[k] in p;
        assert p[k..k + 1] == [p[k]];
      }
    }
  }

  /** Joining pieces free of a one-character separator and splitting again
      gives the pieces back. */
  lemma SplitOfJoin(parts: seq<string>, c: char)
    requires |parts| > 0 && forall k :: 0 <= k < |parts| ==> c !in parts[k]
    ensures Split(Join(parts, [c]), [c]) == parts
  {
    var init, last := parts[..|parts| - 1], parts[|parts| - 1];
    forall k | 0 <= k < |init|
      ensures SplitsCleanly(init[k], [c])
    {
      assert init[k] == parts[k];
      CharFree(init[k], c);
    }
    CharFree(last, c);
    SplitOfJoined(init, last, [c]);
    assert init + [last] == parts;
  }

  lemma SplitPrepend(p: string, sep: string, rest: string)
    requires |sep| > 0 && SplitsCleanly(p, sep)
    ensures Split((p + sep) + rest, sep) == [p] + Split(rest, sep)
  {
    var s := (p + sep) + rest;
    assert s[|p|..|p| + |sep|] == sep;
    assert OccursAt(s, sep, |p|);
    forall k | 0 <= k < |p|
      ensures !OccursAt(s, sep, k)
    {
      assert s[k..k + |sep|] == (p + sep)[k..k + |sep|];
      assert !OccursAt(p + sep, sep, k);
    }
    IndexOfIs(s, sep, |p|);
    assert s[..|p|] == p;
    assert s[|p| + |sep|..] == rest;
  }

  /** ASCII lower-casing (strings.ToLower, String.prototype.toLowerCase restricted to ASCII). */
  function LowerChar(c: char): char
  {
    if 'A' <= c <= 'Z' then (c as int + 32) as char else c
  }

  function Lower(s: string): (r: string)
    ensures |r| == |s| && forall k :: 0 <= k < |s| ==> r[k] == LowerChar(s[k])
  {
    seq(|s|, k requires 0 <= k < |s| => LowerChar(s[k]))
  }

  function Utf8Width(c: char): nat
  {
    if c < '\U{80}' then 1 else if c < '\U{800}' then 2 else if c < '\U{10000}' then 3 else 4
  }

  /** Number of bytes in the UTF-8 encoding (Go's len on a string). */
  function Utf8Len(s: string): (n: nat)
    ensures n >= |s|
  {
    if s == [] then 0
    else Utf8Width(s[0]) + Utf8Len(s[1..])
  }

  /** Number of UTF-16 code units (JavaScript's length). */
  function Utf16Len(s: string): (n: nat)
    ensures n >= |s|
  {
    if s == [] then 0 else (if s[0] < '\U{10000}' then 1 else 2) + Utf16Len(s[1..])
  }

  predicate IsAscii(s: string)
  {
    forall k :: 0 <= k < |s| ==> s[k] < '\U{80}'
  }

  lemma {:induction false} AsciiLengths(s: string)
    requires IsAscii(s)
    ensures Utf8Len(s) == |s| && Utf16Len(s) == |s|
  {
    if s != [] {
      AsciiLengths(s[1..]);
    }
  }

  /** strings.Repeat(c, n) for a one-character string. */
  function Repeat(c: char, n: nat): (r: string)
    ensures |r| == n && forall k :: 0 <= k < n ==> r[k] == c
  {
    seq(n, _ => c)
  }

  function Concat(parts: seq<string>): string
  {
    if parts == [] then "" else parts[0] + Concat(parts[1..])
  }

  lemma AppendAssoc<T>(a: seq<T>, b: seq<T>, c: seq<T>)
    ensures (a + b) + c == a + (b + c)
  {
  }

  lemma ConcatAppend(a: seq<string>, b: seq<string>)
    ensures Concat(a + b) == Concat(a) + Concat(b)
  {
    if a == [] {
      assert a + b == b;
    } else {
      assert (a + b)[0] == a[0];
      assert (a + b)[1..] == a[1..] + b;
      ConcatAppend(a[1..], b);
      assert Concat(a + b) == a[0] + (Concat(a[1..]) + Concat(b));
    }
  }

  function DigitChar(d: nat): char
    requires d < 10
  {
    ('0' as int + d) as char
  }

  predicate IsDigit(c: char)
  {
    '0' <= c <= '9'
  }

  predicate AllDigits(s: string)
  {
    forall k :: 0 <= k < |s| ==> IsDigit(s[k])
  }

  /** Decimal digits of a natural number, most significant first. */
  function NatDigits(n: nat): (r: string)
    ensures |r| >= 1 && forall k :: 0 <= k < |r| ==> IsDigit(r[k])
  {
    if n < 10 then [DigitChar(n)] else NatDigits(n / 10) + [DigitChar(n % 10)]
  }

  /** The value of a string of decimal digits. */
  function DigitsValue(s: string): nat
    requires forall k :: 0 <= k < |s| ==> IsDigit(s[k])
  {
    if s == [] then 0
    else
      assert IsDigit(s[|s| - 1]);
      DigitsValue(s[..|s| - 1]) * 10 + (s[|s| - 1] as int - '0' as int)
  }

  lemma {:induction false} NatDigitsValue(n: nat)
    ensures DigitsValue(NatDigits(n)) == n
  {
    if n >= 10 {
      NatDigitsValue(n / 10);
      var s := NatDigits(n);
      assert s[..|s| - 1] == NatDigits(n / 10);
    }
  }

  /** fmt's %d of an integer. */
  function Decimal(n: int): (r: string)
    ensures |r| >= 1
  {
    if n < 0 then "-" + NatDigits(-n) else NatDigits(n)
  }
}
