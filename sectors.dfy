/** The gateway's stock-list rankings: the Eastmoney list sorted by change
    percent (the hot stocks are its first ten) and by main net inflow (the
    first twenty), each stock reported with its retail net inflow. */
module Sectors {
  /** One stock of the list: code, name, price, change percent, main net
      inflow and ratio, and the extra-large, large, medium and small order
      net inflows. */
  datatype Item = Item(
    f12: string, f14: string, f2: real, f3: real, f62: real, f184: real,
    f66: real, f72: real, f78: real, f84: real)

  /** The field a ranking orders by. */
  datatype Field = ChangePercent | MainNetInflow

  function Key(it: Item, f: Field): real
  {
    match f
    case ChangePercent => it.f3
    case MainNetInflow => it.f62
  }

  /** Non-increasing in the field. */
  predicate SortedDesc(s: seq<Item>, f: Field)
  {
    forall p, q :: 0 <= p < q < |s| ==> Key(s[p], f) >= Key(s[q], f)
  }

  /** `c` is `items` reordered so that the field does not increase. */
  predicate Ranking(c: seq<Item>, items: seq<Item>, f: Field)
  {
    multiset(c) == multiset(items) && SortedDesc(c, f)
  }

  /** a[..i+1] is sorted except that a[j] may be larger than what precedes
      it. */
  predicate SortedExcept(s: seq<Item>, i: nat, j: nat, f: Field)
    requires i < |s|
  {
    forall p, q :: 0 <= p < q <= i && q != j ==> Key(s[p], f) >= Key(s[q], f)
  }

  function Swapped(s: seq<Item>, j: nat): (r: seq<Item>)
    requires 0 < j < |s|
    ensures |r| == |s| && multiset(r) == multiset(s)
  {
    s[j - 1 := s[j]][j := s[j - 1]]
  }

  lemma SinkStart(s: seq<Item>, i: nat, f: Field)
    requires i < |s| && SortedDesc(s[..i], f)
    ensures SortedExcept(s, i, i, f)
  {
    forall p, q | 0 <= p < q <= i && q != i ensures Key(s[p], f) >= Key(s[q], f) {
      assert s[p] == s[..i][p] && s[q] == s[..i][q];
    }
  }

  lemma SinkStep(s: seq<Item>, i: nat, j: nat, f: Field)
    requires 0 < j <= i < |s| && SortedExcept(s, i, j, f) && Key(s[j - 1], f) < Key(s[j], f)
    ensures SortedExcept(Swapped(s, j), i, j - 1, f)
  {
    var t := Swapped(s, j);
    forall p, q | 0 <= p < q <= i && q != j - 1 ensures Key(t[p], f) >= Key(t[q], f) {
      if q == j {
        if p < j - 1 {
          assert Key(s[p], f) >= Key(s[j - 1], f);
        }
      } else if p == j - 1 {
        assert Key(s[j], f) > Key(s[j - 1], f) >= Key(s[q], f);
      } else if p == j {
        assert Key(s[j - 1], f) >= Key(s[q], f);
      }
    }
  }

  lemma SinkEnd(s: seq<Item>, i: nat, j: nat, f: Field)
    requires j <= i < |s| && SortedExcept(s, i, j, f) && (j == 0 || Key(s[j - 1], f) >= Key(s[j], f))
    ensures SortedDesc(s[..i + 1], f)
  {
    var t := s[..i + 1];
    forall p, q | 0 <= p < q < |t| ensures Key(t[p], f) >= Key(t[q], f) {
      if q == j && p < j - 1 {
        assert Key(s[p], f) >= Key(s[j - 1], f);
      }
    }
  }

  /** Moves a[i] left past every smaller element, so that a[..i+1] is sorted
      when a[..i] was. */
  method Sink(a: array<Item>, i: nat, f: Field)
    requires i < a.Length && SortedDesc(a[..i], f)
    modifies a
    ensures SortedDesc(a[..i + 1], f)
    ensures multiset(a[..]) == multiset(old(a[..]))
    ensures a[i + 1..] == old(a[i + 1..])
  {
    SinkStart(a[..], i, f);
    var j := i;
    while j > 0 && Key(a[j - 1], f) < Key(a[j], f)
      invariant 0 <= j <= i
      invariant SortedExcept(a[..], i, j, f)
      invariant multiset(a[..]) == multiset(old(a[..]))
      invariant a[i + 1..] == old(a[i + 1..])
    {
      SinkStep(a[..], i, j, f);
      ghost var s := a[..];
      a[j - 1], a[j] := a[j], a[j - 1];
      assert a[..] == Swapped(s, j);
      j := j - 1;
    }
    SinkEnd(a[..], i, j, f);
  }

  /** sort.Slice with a "greater than" comparison, in place. */
  method SortDesc(a: array<Item>, f: Field)
    modifies a
    ensures SortedDesc(a[..], f)
    ensures multiset(a[..]) == multiset(old(a[..]))
  {
    var i := 0;
    while i < a.Length
      invariant 0 <= i <= a.Length
      invariant SortedDesc(a[..i], f)
      invariant multiset(a[..]) == multiset(old(a[..]))
    {
      Sink(a, i, f);
      i := i + 1;
    }
    assert a[..] == a[..a.Length];
  }

  /** A stock as the endpoint reports it. */
  datatype Entry = Entry(
    code: string, name: string, value: real, changePercent: real,
    mainNetInflow: real, mainNetRatio: real, retailNetInflow: real)

  /** toMap: the retail net inflow is the medium plus the small order net
      inflow; the other fields are copied. */
  function ToEntry(s: Item): (e: Entry)
    ensures e.retailNetInflow == s.f78 + s.f84
    ensures e.code == s.f12 && e.name == s.f14 && e.value == s.f2 && e.changePercent == s.f3
    ensures e.mainNetInflow == s.f62 && e.mainNetRatio == s.f184
  {
    Entry(s.f12, s.f14, s.f2, s.f3, s.f62, s.f184, s.f78 + s.f84)
  }

  function Entries(s: seq<Item>): (r: seq<Entry>)
    ensures |r| == |s| && forall k :: 0 <= k < |s| ==> r[k] == ToEntry(s[k])
  {
    seq(|s|, k requires 0 <= k < |s| => ToEntry(s[k]))
  }

  /** The append loop that turns a list of stocks into entries. */
  method ToEntries(s: seq<Item>) returns (out: seq<Entry>)
    ensures out == Entries(s)
  {
    out := [];
    for i := 0 to |s|
      invariant out == Entries(s[..i])
    {
      out := out + [ToEntry(s[i])];
    }
    assert s[..|s|] == s;
  }

  function Min(a: nat, b: nat): nat
  {
    if a <= b then a else b
  }

  const HotCount := 10
  const CapitalCount := 20

  /** The list request: failed, not JSON, or the decoded `diff` list. */
  datatype ListReply = ListFailed(err: string) | Unparsable | Listed(diff: seq<Item>)

  datatype SectorsReply =
    | SectorsError(status: int, error: string)
    | Rankings(hot: seq<Entry>, byChange: seq<Entry>, byCapital: seq<Entry>)

  /** A sorted copy of the list. */
  method SortedCopy(items: seq<Item>, f: Field) returns (c: seq<Item>)
    ensures Ranking(c, items, f)
  {
    var a := new Item[|items|](k requires 0 <= k < |items| => items[k]);
    assert a[..] == items;
    SortDesc(a, f);
    c := a[..];
  }

  /** GetSectors once the list is in. The two sorts act on copies; the
      decoded list itself stays as it is. The orders the sorts produced are
      returned as ghost results, since any order that ranks the list is one
      the unstable sort may produce. */
  method GetSectors(reply: ListReply) returns (r: SectorsReply, ghost byChange: seq<Item>, ghost byCapital: seq<Item>)
    ensures reply.ListFailed? ==> r == SectorsError(500, reply.err)
    ensures reply.Unparsable? ==> r == SectorsError(500, "parse response")
    ensures reply == Listed([]) ==> r == Rankings([], [], [])
    ensures reply.Listed? && reply.diff != [] ==>
              Ranking(byChange, reply.diff, ChangePercent) && Ranking(byCapital, reply.diff, MainNetInflow)
              && r == Rankings(Entries(byChange[..Min(HotCount, |byChange|)]), Entries(byChange),
                               Entries(byCapital[..Min(CapitalCount, |byCapital|)]))
  {
    byChange, byCapital := [], [];
    match reply
    case ListFailed(e) => return SectorsError(500, e), byChange, byCapital;
    case Unparsable => return SectorsError(500, "parse response"), byChange, byCapital;
    case Listed(diff) =>
      if |diff| == 0 {
        return Rankings([], [], []), byChange, byCapital;
      }
      var changeOrder := SortedCopy(diff, ChangePercent);
      var hot := changeOrder;
      if |hot| > HotCount {
        hot := hot[..HotCount];
      }
      var capitalOrder := SortedCopy(diff, MainNetInflow);
      var topCapital := capitalOrder;
      if |topCapital| > CapitalCount {
        topCapital := topCapital[..CapitalCount];
      }
      var hotList := ToEntries(hot);
      var changeList := ToEntries(changeOrder);
      var capitalList := ToEntries(topCapital);
      byChange, byCapital := changeOrder, capitalOrder;
      r := Rankings(hotList, changeList, capitalList);
  }

  /** A ranking keeps the length of the list. */
  lemma RankingLength(c: seq<Item>, items: seq<Item>, f: Field)
    requires Ranking(c, items, f)
    ensures |c| == |items|
  {
    assert |multiset(c)| == |multiset(items)|;
  }

  /** The first m stocks of a ranking are the m best of the list: each of
      them is at least as high in the field as every stock left out. */
  lemma PrefixIsTop(c: seq<Item>, items: seq<Item>, f: Field, m: nat)
    requires Ranking(c, items, f) && m <= |c|
    ensures multiset(c[..m]) <= multiset(items)
    ensures forall x, i :: x in multiset(items) - multiset(c[..m]) && 0 <= i < m ==> Key(c[i], f) >= Key(x, f)
  {
    assert c == c[..m] + c[m..];
    assert multiset(c) == multiset(c[..m]) + multiset(c[m..]);
    forall x, i | x in multiset(items) - multiset(c[..m]) && 0 <= i < m
      ensures Key(c[i], f) >= Key(x, f)
    {
      assert x in multiset(c[m..]);
      var j :| m <= j < |c| && c[j] == x by {
        assert x in c[m..];
        var t :| 0 <= t < |c[m..]| && c[m..][t] == x;
        assert c[m + t] == x;
      }
    }
  }

  /** Any two rankings of the same list by the same field agree on the
      field, position by position: ties aside, the sort's result is
      determined. */
  lemma RankingKeysUnique(c: seq<Item>, d: seq<Item>, items: seq<Item>, f: Field)
    requires Ranking(c, items, f) && Ranking(d, items, f)
    ensures |c| == |d| && forall k :: 0 <= k < |c| ==> Key(c[k], f) == Key(d[k], f)
  {
    RankingLength(c, items, f);
    RankingLength(d, items, f);
    RankingsAgree(c, d, f);
  }

  /** The first of a sorted list is at least as high as any member. */
  lemma FirstIsMax(c: seq<Item>, x: Item, f: Field)
    requires SortedDesc(c, f) && x in multiset(c)
    ensures Key(c[0], f) >= Key(x, f)
  {
    assert x in c;
  }

  /** Removing one element keeps a list sorted. */
  lemma RemoveAt(d: seq<Item>, i: nat, f: Field)
    requires i < |d| && SortedDesc(d, f)
    ensures var r := d[..i] + d[i + 1..];
            multiset(r) == multiset(d) - multiset{d[i]} && SortedDesc(r, f)
  {
    var r := d[..i] + d[i + 1..];
    assert d == d[..i] + [d[i]] + d[i + 1..];
    forall p, q | 0 <= p < q < |r| ensures Key(r[p], f) >= Key(r[q], f) {
      var p0 := if p < i then p else p + 1;
      var q0 := if q < i then q else q + 1;
      assert r[p] == d[p0] && r[q] == d[q0];
    }
  }

  lemma DropFirst(c: seq<Item>, f: Field)
    requires |c| > 0 && SortedDesc(c, f)
    ensures multiset(c[1..]) == multiset(c) - multiset{c[0]} && SortedDesc(c[1..], f)
  {
    assert c == [c[0]] + c[1..];
    var t := c[1..];
    forall p, q | 0 <= p < q < |t| ensures Key(t[p], f) >= Key(t[q], f) {
      assert t[p] == c[p + 1] && t[q] == c[q + 1];
    }
  }

  /** A sorted list whose first and i-th members tie is flat up to i. */
  lemma Plateau(d: seq<Item>, i: nat, f: Field)
    requires i < |d| && SortedDesc(d, f) && Key(d[0], f) == Key(d[i], f)
    ensures forall k :: 0 <= k <= i ==> Key(d[k], f) == Key(d[0], f)
  {
  }

  lemma {:induction false} RankingsAgree(c: seq<Item>, d: seq<Item>, f: Field)
    requires multiset(c) == multiset(d) && SortedDesc(c, f) && SortedDesc(d, f)
    ensures |c| == |d| && forall k :: 0 <= k < |c| ==> Key(c[k], f) == Key(d[k], f)
    decreases |c|
  {
    assert |multiset(c)| == |multiset(d)|;
    if |c| > 0 {
      assert c[0] in multiset(c) && d[0] in multiset(d) by {
        assert c[0] in c && d[0] in d;
      }
      FirstIsMax(c, d[0], f);
      FirstIsMax(d, c[0], f);
      assert c[0] in d;
      var i :| 0 <= i < |d| && d[i] == c[0];
      Plateau(d, i, f);
      RemoveAt(d, i, f);
      DropFirst(c, f);
      var d' := d[..i] + d[i + 1..];
      assert multiset(c[1..]) == multiset(d');
      RankingsAgree(c[1..], d', f);
      AgreeAfterRemoval(c, d, i, f);
    }
  }

  /** Puts the heads back: if the tails agree after d loses its i-th member,
      and d is flat up to i, then c and d agree. */
  lemma AgreeAfterRemoval(c: seq<Item>, d: seq<Item>, i: nat, f: Field)
    requires 0 <= i < |d| == |c| && Key(c[0], f) == Key(d[0], f)
    requires forall k :: 0 <= k <= i ==> Key(d[k], f) == Key(d[0], f)
    requires var d' := d[..i] + d[i + 1..];
             forall k :: 0 <= k < |d'| ==> Key(c[1..][k], f) == Key(d'[k], f)
    ensures forall k :: 0 <= k < |c| ==> Key(c[k], f) == Key(d[k], f)
  {
    var d' := d[..i] + d[i + 1..];
    forall k | 0 < k < |c| ensures Key(c[k], f) == Key(d[k], f) {
      assert c[k] == c[1..][k - 1];
      if k - 1 < i {
        assert d'[k - 1] == d[k - 1];
      } else {
        assert d'[k - 1] == d[k];
      }
    }
  }
}
