/**
 * The Hong Kong stock-code canonicalisation rule ("hk" followed by five
 * digits) that four services each carry a copy of. Every copy first trims and
 * lower-cases the input and then applies the same padding rule; the copies
 * differ in the order of trimming and lower-casing, in which characters count
 * as white space and in how the length of a string is measured (bytes in Go,
 * UTF-16 code units in the browser). Those differences are parameters here.
 */
module CodeNormal {
  import opened Text

  /** How a language measures the length of a string. */
  datatype Measure = Utf8Bytes | Utf16Units

  function Len(s: string, m: Measure): (n: nat)
    ensures n >= |s|
  {
    match m
    case Utf8Bytes => Utf8Len(s)
    case Utf16Units => Utf16Len(s)
  }

  predicate HasHkPrefix(s: string)
  {
    |s| >= 2 && s[0] == 'h' && s[1] == 'k'
  }

  /** The canonical shape: "hk" and five more length units. */
  predicate Canonical(s: string, m: Measure)
  {
    HasHkPrefix(s) && Len(s, m) == 7
  }

  lemma {:induction false} LenAppend(a: string, b: string, m: Measure)
    ensures Len(a + b, m) == Len(a, m) + Len(b, m)
  {
    if a == [] {
      assert a + b == b;
    } else {
      assert (a + b)[0] == a[0];
      assert (a + b)[1..] == a[1..] + b;
      LenAppend(a[1..], b, m);
    }
  }

  lemma {:induction false} LenAscii(s: string, m: Measure)
    requires IsAscii(s)
    ensures Len(s, m) == |s|
  {
    AsciiLengths(s);
  }

  /** The padding rule applied after trimming and lower-casing. */
  function Pad(code: string, m: Measure): (r: string)
    ensures HasHkPrefix(r) && |r| >= |code|
    ensures HasHkPrefix(code) && Len(code, m) != 6 ==> r == code
    ensures !HasHkPrefix(code) ==> r[|r| - |code|..] == code
    ensures (HasHkPrefix(code) && Len(code, m) == 6) || (!HasHkPrefix(code) && Len(code, m) <= 5)
            ==> Canonical(r, m)
    ensures HasHkPrefix(code) && Len(code, m) == 6 ==> r == "hk0" + code[2..]
    ensures !HasHkPrefix(code) && Len(code, m) <= 5 ==> r == "hk" + Repeat('0', 5 - Len(code, m)) + code
    ensures !HasHkPrefix(code) && Len(code, m) > 5 ==> r == "hk" + code
  {
    var n := Len(code, m);
    if HasHkPrefix(code) then
      if n == 7 then code
      else if n == 6 then
        LenAppend("hk0", code[2..], m);
        LenAppend("hk", code[2..], m);
        assert code == "hk" + code[2..];
        LenAscii("hk0", m);
        LenAscii("hk", m);
        "hk0" + code[2..]
      else code
    else if n <= 5 then
      LenAppend("hk" + Repeat('0', 5 - n), code, m);
      LenAppend("hk", Repeat('0', 5 - n), m);
      LenAscii("hk", m);
      LenAscii(Repeat('0', 5 - n), m);
      "hk" + Repeat('0', 5 - n) + code
    else "hk" + code
  }

  /** A code already in canonical form is left alone. */
  lemma CanonicalFixed(code: string, m: Measure)
    requires Canonical(code, m)
    ensures Pad(code, m) == code
  {
  }

  /** Padding twice is padding once. */
  lemma PadIdempotent(code: string, m: Measure)
    ensures Pad(Pad(code, m), m) == Pad(code, m)
  {
    var r := Pad(code, m);
    if !HasHkPrefix(code) && Len(code, m) > 5 {
      LenAppend("hk", code, m);
      LenAscii("hk", m);
    }
  }

  lemma {:induction false} ZerosValue(k: nat)
    ensures AllDigits(Repeat('0', k)) && DigitsValue(Repeat('0', k)) == 0
  {
    if k > 0 {
      ZerosValue(k - 1);
      assert Repeat('0', k)[..k - 1] == Repeat('0', k - 1);
    }
  }

  lemma {:induction false} LeadingZeros(k: nat, s: string)
    requires AllDigits(s)
    ensures AllDigits(Repeat('0', k) + s) && DigitsValue(Repeat('0', k) + s) == DigitsValue(s)
  {
    var t := Repeat('0', k) + s;
    if s == [] {
      ZerosValue(k);
      assert t == Repeat('0', k);
    } else {
      LeadingZeros(k, s[..|s| - 1]);
      assert t[..|t| - 1] == Repeat('0', k) + s[..|s| - 1];
    }
  }

  /** Zero padding a short all-digit code keeps the stock number it denotes. */
  lemma PadKeepsNumber(code: string, m: Measure)
    requires AllDigits(code) && |code| >= 1 && Len(code, m) <= 5
    ensures var r := Pad(code, m); AllDigits(r[2..]) && DigitsValue(r[2..]) == DigitsValue(code)
  {
    LenAscii(code, m);
    assert !HasHkPrefix(code) by { assert IsDigit(code[0]); }
    DropHk(Repeat('0', 5 - |code|), code);
    LeadingZeros(5 - |code|, code);
  }

  lemma DropHk(a: string, b: string)
    ensures ("hk" + a + b)[2..] == a + b
  {
  }

  /** Lower-casing maps white space to itself, so it commutes with trimming. */
  lemma LowerSpace(c: char, sp: Space)
    ensures IsSpace(LowerChar(c), sp) == IsSpace(c, sp)
  {
    if 'A' <= c <= 'Z' {
      assert 'a' <= LowerChar(c) <= 'z';
    }
  }

  lemma {:induction false} LowerTrimLeft(s: string, sp: Space)
    ensures Lower(TrimLeft(s, sp)) == TrimLeft(Lower(s), sp)
    decreases |s|
  {
    if s != [] {
      var l := Lower(s);
      LowerSpace(s[0], sp);
      assert l[0] == LowerChar(s[0]);
      if IsSpace(s[0], sp) {
        assert l[1..] == Lower(s[1..]);
        LowerTrimLeft(s[1..], sp);
      }
    }
  }

  lemma {:induction false} LowerTrimRight(s: string, sp: Space)
    ensures Lower(TrimRight(s, sp)) == TrimRight(Lower(s), sp)
    decreases |s|
  {
    if s != [] {
      var l := Lower(s);
      LowerSpace(s[|s| - 1], sp);
      assert l[|s| - 1] == LowerChar(s[|s| - 1]);
      if IsSpace(s[|s| - 1], sp) {
        assert l[..|s| - 1] == Lower(s[..|s| - 1]);
        LowerTrimRight(s[..|s| - 1], sp);
      }
    }
  }

  lemma LowerTrim(s: string, sp: Space)
    ensures Lower(Trim(s, sp)) == Trim(Lower(s), sp)
  {
    LowerTrimLeft(s, sp);
    LowerTrimRight(TrimLeft(s, sp), sp);
  }

  lemma {:induction false} AsciiTrimLeft(s: string)
    requires IsAscii(s)
    ensures TrimLeft(s, JsSpace) == TrimLeft(s, GoSpace)
  {
    if s != [] {
      AsciiSpaceAgrees(s[0]);
      AsciiTrimLeft(s[1..]);
    }
  }

  lemma {:induction false} AsciiTrimRight(s: string)
    requires IsAscii(s)
    ensures TrimRight(s, JsSpace) == TrimRight(s, GoSpace)
  {
    if s != [] {
      AsciiSpaceAgrees(s[|s| - 1]);
      AsciiTrimRight(s[..|s| - 1]);
    }
  }

  lemma AsciiSlice(s: string, i: nat, j: nat)
    requires IsAscii(s) && i <= j <= |s|
    ensures IsAscii(s[i..j])
  {
    forall k | 0 <= k < j - i
      ensures s[i..j][k] < '\U{80}'
    {
      assert s[i..j][k] == s[i + k];
    }
  }

  /** On ASCII text the browser's trim and Go's TrimSpace agree. */
  lemma AsciiTrim(s: string)
    requires IsAscii(s)
    ensures Trim(s, JsSpace) == Trim(s, GoSpace)
    ensures IsAscii(Trim(s, GoSpace))
  {
    var l := TrimLeft(s, GoSpace);
    AsciiTrimLeft(s);
    AsciiSlice(s, |s| - |l|, |s|);
    assert s[|s| - |l|..|s|] == l;
    var t := TrimRight(l, GoSpace);
    AsciiTrimRight(l);
    AsciiSlice(l, 0, |t|);
    assert l[0..|t|] == t;
  }

  /** A trimmed, lower-cased code pads to a trimmed, lower-cased code. */
  lemma PadKeepsClean(code: string, m: Measure)
    requires Trimmed(code, GoSpace) && Lower(code) == code
    ensures Trimmed(Pad(code, m), GoSpace) && Lower(Pad(code, m)) == Pad(code, m)
  {
    var r := Pad(code, m);
    if r != code {
      var head, tail: string;
      if HasHkPrefix(code) {
        head, tail := "hk0", code[2..];
      } else {
        head, tail := r[..|r| - |code|], code;
        assert head == "hk" + Repeat('0', |r| - |code| - 2);
      }
      assert r == head + tail;
      forall k | 0 <= k < |r|
        ensures LowerChar(r[k]) == r[k]
      {
        if k >= |head| {
          assert r[k] == tail[k - |head|];
          if HasHkPrefix(code) {
            assert tail[k - |head|] == code[k - |head| + 2];
            assert Lower(code)[k - |head| + 2] == code[k - |head| + 2];
          } else {
            assert Lower(code)[k - |head|] == code[k - |head|];
          }
        } else {
          assert r[k] == head[k];
        }
      }
      if tail != [] {
        assert r[|r| - 1] == code[|code| - 1];
      }
    }
  }
}
