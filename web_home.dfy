/** The home page of the web client: the watchlist kept in local storage,
    the code typed into the add box, the colour of a change, and the quotes
    shown for the watchlist. */
module WebHome {
  import opened Wrappers
  import opened Text
  import opened CodeNormal
  import opened StockTypes
  import StockApi

  // ---------------------------------------------------------------------
  // Lists without repeats

  predicate NoDup<T(==)>(xs: seq<T>)
  {
    forall i, j :: 0 <= i < j < |xs| ==> xs[i] != xs[j]
  }

  /** [...new Set(xs)]: each element once, at its first occurrence. */
  function Dedup<T(==)>(xs: seq<T>): seq<T>
  {
    if xs == [] then []
    else
      var d := Dedup(xs[..|xs| - 1]);
      if xs[|xs| - 1] in d then d else d + [xs[|xs| - 1]]
  }

  /** The deduplicated list has no repeats and the same members. */
  lemma {:induction false} DedupSound<T>(xs: seq<T>)
    ensures NoDup(Dedup(xs))
    ensures forall x :: x in Dedup(xs) <==> x in xs
  {
    if xs != [] {
      var init := xs[..|xs| - 1];
      DedupSound(init);
      assert xs == init + [xs[|xs| - 1]];
    }
  }

  /** A list without repeats is left as it is. */
  lemma {:induction false} DedupNoDup<T>(xs: seq<T>)
    requires NoDup(xs)
    ensures Dedup(xs) == xs
  {
    if xs != [] {
      var init := xs[..|xs| - 1];
      assert NoDup(init);
      DedupNoDup(init);
      assert xs[|xs| - 1] !in init;
      assert xs == init + [xs[|xs| - 1]];
    }
  }

  /** The first occurrences win: what follows never changes the order of
      what came before. */
  lemma {:induction false} DedupPrefix<T>(xs: seq<T>, ys: seq<T>)
    ensures |Dedup(xs)| <= |Dedup(xs + ys)|
    ensures Dedup(xs + ys)[..|Dedup(xs)|] == Dedup(xs)
    decreases |ys|
  {
    if ys == [] {
      assert xs + ys == xs;
    } else {
      var init := ys[..|ys| - 1];
      DedupPrefix(xs, init);
      assert (xs + ys)[..|xs + ys| - 1] == xs + init;
      var d := Dedup(xs + init);
      assert (xs + ys)[|xs + ys| - 1] == ys[|ys| - 1];
      if ys[|ys| - 1] !in d {
        assert (d + [ys[|ys| - 1]])[..|Dedup(xs)|] == d[..|Dedup(xs)|];
      }
    }
  }

  // ---------------------------------------------------------------------
  // Loading, adding, removing

  const DefaultList := ["hk00700", "hk09988", "hk09618"]

  /** loadWatchlist: the stored list deduplicated; the default list when
      nothing (or the empty string) is stored or the stored text does not
      parse as a list of codes. `parse` is JSON.parse. */
  function LoadWatchlist(stored: Option<string>, parse: string -> Option<seq<string>>): (r: seq<string>)
    ensures NoDup(r)
    ensures stored.None? || stored == Some("") ==> r == DefaultList
    ensures stored.Some? && stored.value != "" && parse(stored.value).None? ==> r == DefaultList
    ensures stored.Some? && stored.value != "" && parse(stored.value).Some? ==>
              forall c :: c in r <==> c in parse(stored.value).value
  {
    match stored
    case None => DefaultList
    case Some(s) =>
      if s == "" then DefaultList
      else
        match parse(s)
        case None => DefaultList
        case Some(xs) => DedupSound(xs); Dedup(xs)
  }

  /** The code the add box gives: trimmed and lower-cased; nothing when
      that is empty; an "hk" code as it is; otherwise "hk" and the code,
      zero-padded to five characters when shorter. */
  function AddCode(input: string): (r: Option<string>)
    ensures var c := Lower(Trim(input, JsSpace));
            (r.None? <==> c == "")
            && (r.Some? ==> HasHkPrefix(r.value))
            && (HasHkPrefix(c) ==> r == Some(c))
            && (c != "" && !HasHkPrefix(c) ==> |c| < |r.value| && r.value[|r.value| - |c|..] == c)
  {
    var c := Lower(Trim(input, JsSpace));
    if c == "" then None
    else if HasHkPrefix(c) then Some(c)
    else
      var n := Len(c, Utf16Units);
      Some("hk" + (if n <= 5 then Repeat('0', 5 - n) + c else c))
  }

  /** The add box and the API module's rule agree except on a six-character
      "hk" code, which the add box keeps and the API module pads. */
  lemma AddCodeVsNormalize(input: string)
    ensures var c := Lower(Trim(input, JsSpace));
            c != "" && !(HasHkPrefix(c) && Len(c, Utf16Units) == 6) ==>
              AddCode(input) == Some(StockApi.NormalizeCode(input))
    ensures var c := Lower(Trim(input, JsSpace));
            HasHkPrefix(c) && Len(c, Utf16Units) == 6 ==>
              AddCode(input) == Some(c) && StockApi.NormalizeCode(input) == "hk0" + c[2..]
              && StockApi.NormalizeCode(input) != c
  {
    var c := Lower(Trim(input, JsSpace));
    if HasHkPrefix(c) && Len(c, Utf16Units) == 6 {
      assert |StockApi.NormalizeCode(input)| == |c| + 1;
    } else if c != "" && !HasHkPrefix(c) {
      var n := Len(c, Utf16Units);
      if n <= 5 {
        assert "hk" + (Repeat('0', 5 - n) + c) == "hk" + Repeat('0', 5 - n) + c;
      }
    }
  }

  /** A short digit code added by hand is the canonical seven-character
      code. */
  lemma AddShortDigits(input: string)
    requires AllDigits(input) && 1 <= |input| <= 5
    ensures AddCode(input).Some? && Canonical(AddCode(input).value, Utf16Units)
  {
    DigitsUnchanged(input);
    LenAscii(input, Utf16Units);
    AddCodeIsPad(input);
  }

  /** Digits are neither space nor upper case. */
  lemma DigitsUnchanged(input: string)
    requires AllDigits(input) && |input| >= 1
    ensures Lower(Trim(input, JsSpace)) == input && !HasHkPrefix(input) && IsAscii(input)
  {
    DigitsTrimmed(input);
    DigitsLower(input);
    assert IsDigit(input[0]);
  }

  lemma DigitsTrimmed(input: string)
    requires AllDigits(input) && |input| >= 1
    ensures Trim(input, JsSpace) == input
  {
    assert IsDigit(input[0]) && IsDigit(input[|input| - 1]);
    TrimLeftNoop(input, JsSpace);
    TrimRightNoop(input, JsSpace);
  }

  lemma DigitsLower(input: string)
    requires AllDigits(input)
    ensures Lower(input) == input && IsAscii(input)
  {
    forall k | 0 <= k < |input|
      ensures Lower(input)[k] == input[k] && input[k] < '\U{80}'
    {
      assert IsDigit(input[k]);
    }
  }

  /** Without the "hk" prefix the add box pads like the shared rule. */
  lemma AddCodeIsPad(input: string)
    requires var c := Lower(Trim(input, JsSpace)); c != "" && !HasHkPrefix(c)
    ensures AddCode(input) == Some(Pad(Lower(Trim(input, JsSpace)), Utf16Units))
  {
    var c := Lower(Trim(input, JsSpace));
    var n := Len(c, Utf16Units);
    if n <= 5 {
      AppendAssoc("hk", Repeat('0', 5 - n), c);
    }
  }

  /** addStock's list update: the code is appended when it is absent. */
  function Add(list: seq<string>, code: string): (r: seq<string>)
    ensures code in r && forall c :: c in list ==> c in r
    ensures forall c :: c in r ==> c in list || c == code
    ensures |list| <= |r| && r[..|list|] == list
  {
    if code in list then list else list + [code]
  }

  lemma AddKeepsNoDup(list: seq<string>, code: string)
    requires NoDup(list)
    ensures NoDup(Add(list, code))
  {
  }

  /** removeStock's filter: every occurrence of the code goes, the rest
      stays in order. */
  function Remove(list: seq<string>, code: string): (r: seq<string>)
    ensures code !in r
    ensures forall c :: c != code ==> (c in r <==> c in list)
  {
    if list == [] then []
    else
      var d := Remove(list[..|list| - 1], code);
      var last := list[|list| - 1];
      assert forall c :: c in list <==> c in list[..|list| - 1] || c == last;
      if last == code then d else d + [last]
  }

  /** The filter works on each stretch of the list separately. */
  lemma {:induction false} RemoveAppend(a: seq<string>, b: seq<string>, code: string)
    ensures Remove(a + b, code) == Remove(a, code) + Remove(b, code)
    decreases |b|
  {
    if b == [] {
      assert a + b == a;
    } else {
      var init := b[..|b| - 1];
      RemoveAppend(a, init, code);
      assert (a + b)[..|a + b| - 1] == a + init;
      assert (a + b)[|a + b| - 1] == b[|b| - 1];
    }
  }

  /** A list without the code is left alone; in a list without repeats
      removing an entry closes the gap. */
  lemma RemoveAt(list: seq<string>, i: nat)
    requires NoDup(list) && i < |list|
    ensures Remove(list, list[i]) == list[..i] + list[i + 1..]
  {
    var code := list[i];
    var a, b := list[..i], list[i + 1..];
    assert list == a + [code] + b;
    RemoveAppend(a + [code], b, code);
    RemoveAppend(a, [code], code);
    assert code !in a && code !in b;
    RemoveAbsent(a, code);
    RemoveAbsent(b, code);
    assert Remove([code], code) == [] by {
      assert [code][..0] == [];
    }
  }

  lemma {:induction false} RemoveAbsent(list: seq<string>, code: string)
    requires code !in list
    ensures Remove(list, code) == list
  {
    if list != [] {
      RemoveAbsent(list[..|list| - 1], code);
      assert list == list[..|list| - 1] + [list[|list| - 1]];
    }
  }

  lemma {:induction false} RemoveKeepsNoDup(list: seq<string>, code: string)
    requires NoDup(list)
    ensures NoDup(Remove(list, code))
  {
    if list != [] {
      var init := list[..|list| - 1];
      assert NoDup(init);
      RemoveKeepsNoDup(init, code);
      var last := list[|list| - 1];
      assert last !in init;
    }
  }

  /** getColor: red for a rise, green for a fall, grey for no change. */
  const Rise := "#F44336"
  const Fall := "#4CAF50"
  const Flat := "#333"

  function GetColor(change: real): (r: string)
    ensures r == Rise <==> change > 0.0
    ensures r == Fall <==> change < 0.0
    ensures r == Flat <==> change == 0.0
  {
    if change > 0.0 then Rise else if change < 0.0 then Fall else Flat
  }

  // ---------------------------------------------------------------------
  // The quotes of the watchlist

  /** What Promise.allSettled gives for one quote request. */
  datatype Settled = Fulfilled(value: StockInfo) | Failed(reason: string)

  /** The codes of a list of quotes. */
  function Codes(out: seq<StockInfo>): set<string>
  {
    if out == [] then {} else Codes(out[..|out| - 1]) + {out[|out| - 1].code}
  }

  /** The quotes shown: each fulfilled result whose code has not been seen,
      in order. */
  function FirstPerCode(results: seq<Settled>): seq<StockInfo>
  {
    if results == [] then []
    else
      var d := FirstPerCode(results[..|results| - 1]);
      var r := results[|results| - 1];
      if r.Fulfilled? && r.value.code !in Codes(d) then d + [r.value] else d
  }

  lemma CodesAppend(out: seq<StockInfo>, s: StockInfo)
    ensures Codes(out + [s]) == Codes(out) + {s.code}
  {
    assert (out + [s])[..|out|] == out;
  }

  lemma {:induction false} CodesMembers(out: seq<StockInfo>)
    ensures forall c :: c in Codes(out) <==> exists k :: 0 <= k < |out| && out[k].code == c
  {
    if out != [] {
      var init := out[..|out| - 1];
      CodesMembers(init);
      assert forall k :: 0 <= k < |init| ==> out[k] == init[k];
    }
  }

  predicate DistinctCodes(out: seq<StockInfo>)
  {
    forall i, j :: 0 <= i < j < |out| ==> out[i].code != out[j].code
  }

  /** The quotes shown have distinct codes. */
  lemma {:induction false} FirstPerCodeDistinct(results: seq<Settled>)
    ensures DistinctCodes(FirstPerCode(results))
  {
    if results != [] {
      var init := results[..|results| - 1];
      var d := FirstPerCode(init);
      var r := results[|results| - 1];
      FirstPerCodeDistinct(init);
      if r.Fulfilled? && r.value.code !in Codes(d) {
        CodesMembers(d);
        var out := d + [r.value];
        assert FirstPerCode(results) == out;
        forall i, j | 0 <= i < j < |out| ensures out[i].code != out[j].code {
          if j == |d| {
            assert out[i] == d[i] && out[j] == r.value;
            assert d[i].code in Codes(d);
          } else {
            assert out[i] == d[i] && out[j] == d[j];
          }
        }
      }
    }
  }

  /** Each quote shown is a fulfilled result, and every fulfilled result's
      code is shown. */
  lemma {:induction false} FirstPerCodeCovers(results: seq<Settled>)
    ensures var out := FirstPerCode(results);
            (forall k :: 0 <= k < |out| ==> Fulfilled(out[k]) in results)
            && (forall r :: r in results && r.Fulfilled? ==> r.value.code in Codes(out))
  {
    if results != [] {
      var init := results[..|results| - 1];
      var d := FirstPerCode(init);
      var r := results[|results| - 1];
      FirstPerCodeCovers(init);
      assert results == init + [r];
      if r.Fulfilled? && r.value.code !in Codes(d) {
        CodesAppend(d, r.value);
        var out := d + [r.value];
        assert forall k :: 0 <= k < |d| ==> out[k] == d[k];
      }
    }
  }

  /** The first fulfilled result per code wins: later results never change
      what was kept before. */
  lemma {:induction false} FirstPerCodePrefix(a: seq<Settled>, b: seq<Settled>)
    ensures |FirstPerCode(a)| <= |FirstPerCode(a + b)|
    ensures FirstPerCode(a + b)[..|FirstPerCode(a)|] == FirstPerCode(a)
    decreases |b|
  {
    if b == [] {
      assert a + b == a;
    } else {
      var init := b[..|b| - 1];
      FirstPerCodePrefix(a, init);
      assert (a + b)[..|a + b| - 1] == a + init;
      assert (a + b)[|a + b| - 1] == b[|b| - 1];
      var d := FirstPerCode(a + init);
      var n := |FirstPerCode(a)|;
      var r := b[|b| - 1];
      if r.Fulfilled? && r.value.code !in Codes(d) {
        assert (d + [r.value])[..n] == d[..n];
      }
    }
  }

  /** The forEach over the settled results, with its `seen` set. */
  method KeepFirstFulfilled(results: seq<Settled>) returns (out: seq<StockInfo>)
    ensures out == FirstPerCode(results)
  {
    out := [];
    var seen: set<string> := {};
    for i := 0 to |results|
      invariant out == FirstPerCode(results[..i]) && seen == Codes(out)
    {
      var r := results[i];
      assert results[..i + 1][..i] == results[..i];
      if r.Fulfilled? && r.value.code !in seen {
        seen := seen + {r.value.code};
        CodesAppend(out, r.value);
        out := out + [r.value];
      }
    }
    assert results[..|results|] == results;
  }

  /** fetchStocks: nothing for an empty watchlist; otherwise one request
      per code, in watchlist order, and the first quote per code. `quote`
      is the outcome of getRealtime for a code. */
  method FetchStocks(list: seq<string>, quote: string -> Settled) returns (shown: Option<seq<StockInfo>>)
    ensures list == [] <==> shown.None?
    ensures shown.Some? ==> shown.value == FirstPerCode(seq(|list|, k requires 0 <= k < |list| => quote(list[k])))
  {
    if |list| == 0 {
      return None;
    }
    var results := seq(|list|, k requires 0 <= k < |list| => quote(list[k]));
    var out := KeepFirstFulfilled(results);
    shown := Some(out);
  }

  /** The page: the watchlist, the add box's text and whether it is open. */
  class HomePage {
    var watchlist: seq<string>
    var addCode: string
    var showAdd: bool

    predicate Valid()
      reads this
    {
      NoDup(watchlist)
    }

    constructor (stored: Option<string>, parse: string -> Option<seq<string>>)
      ensures watchlist == LoadWatchlist(stored, parse) && addCode == "" && !showAdd
      ensures Valid()
    {
      watchlist := LoadWatchlist(stored, parse);
      addCode := "";
      showAdd := false;
    }

    /** The add box's onChange. */
    method Type(text: string)
      modifies this
      ensures addCode == text && watchlist == old(watchlist) && showAdd == old(showAdd)
    {
      addCode := text;
    }

    /** addStock: nothing for a blank entry; otherwise the code is added
      when absent, and the box is cleared and closed. */
    method AddStock()
      modifies this
      ensures old(Valid()) ==> Valid()
      ensures AddCode(old(addCode)).None? ==>
                watchlist == old(watchlist) && addCode == old(addCode) && showAdd == old(showAdd)
      ensures AddCode(old(addCode)).Some? ==>
                watchlist == Add(old(watchlist), AddCode(old(addCode)).value) && addCode == "" && !showAdd
    {
      var code := AddCode(addCode);
      if code.None? {
        return;
      }
      if Valid() {
        AddKeepsNoDup(watchlist, code.value);
      }
      if code.value !in watchlist {
        watchlist := watchlist + [code.value];
      }
      addCode := "";
      showAdd := false;
    }

    /** removeStock: every entry of the code goes. */
    method RemoveStock(code: string)
      modifies this
      ensures old(Valid()) ==> Valid()
      ensures watchlist == Remove(old(watchlist), code) && addCode == old(addCode) && showAdd == old(showAdd)
    {
      if Valid() {
        RemoveKeepsNoDup(watchlist, code);
      }
      watchlist := Remove(watchlist, code);
    }
  }
}
