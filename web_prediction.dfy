/** The prediction page of the web client: the summary shown once the
    stream is done, and the text it accumulates from the stream's
    callbacks. */
module WebPrediction {
  import opened Wrappers
  import opened Text
  import StockApi

  // ---------------------------------------------------------------------
  // extractSummary

  const Marker1 := "时间与大盘环境分析"
  const Marker2 := "时间与大盘环境"
  const Marker3 := "1. 时间与大盘环境"
  const Markers := [Marker1, Marker2, Marker3]

  /** The search from marker `j` on: the trimmed text from the first
      occurrence of the first marker that occurs, or `t` when none does. */
  function SummaryFrom(t: string, j: nat): string
    requires j <= |Markers|
    decreases |Markers| - j
  {
    if j == |Markers| then t
    else
      match IndexOf(t, Markers[j])
      case Some(k) => Trim(t[k..], JsSpace)
      case None => SummaryFrom(t, j + 1)
  }

  /** The summary of the full text: "" for blank text, else the marker
      search on the trimmed text. */
  function Summary(fullText: string): string
  {
    SummaryOf(Trim(fullText, JsSpace))
  }

  function SummaryOf(t: string): string
  {
    if t == "" then t else SummaryFrom(t, 0)
  }

  /** The loop over the markers, returning at the first one found. */
  method ExtractSummary(fullText: string) returns (r: string)
    ensures r == Summary(fullText)
  {
    var t := Trim(fullText, JsSpace);
    if t == "" {
      return t;
    }
    var j := 0;
    while j < |Markers|
      invariant j <= |Markers|
      invariant SummaryFrom(t, j) == SummaryFrom(t, 0)
    {
      var idx := IndexOf(t, Markers[j]);
      if idx.Some? {
        return Trim(t[idx.value..], JsSpace);
      }
      j := j + 1;
    }
    r := t;
  }

  /** Every marker starts with a visible character. */
  lemma MarkersVisible(j: nat)
    requires j < |Markers|
    ensures |Markers[j]| > 0 && !IsSpace(Markers[j][0], JsSpace)
  {
    assert Marker1[0] == '时' && Marker2[0] == '时' && Marker3[0] == '1';
  }

  /** In trimmed text, the text from a marker on is already trimmed. */
  lemma MarkerSuffix(t: string, m: string, k: nat)
    requires Trimmed(t, JsSpace) && OccursAt(t, m, k) && |m| > 0 && !IsSpace(m[0], JsSpace)
    ensures Trim(t[k..], JsSpace) == t[k..] && Trimmed(t[k..], JsSpace)
  {
    var s := t[k..];
    assert s[0] == t[k..k + |m|][0] == m[0];
    TrimLeftNoop(s, JsSpace);
    assert s[|s| - 1] == t[|t| - 1];
    TrimRightNoop(s, JsSpace);
  }

  /** The third marker holds the second, so it is never the one selected. */
  lemma ThirdMarkerDead(t: string)
    ensures Contains(t, Marker3) ==> Contains(t, Marker2)
  {
    if Contains(t, Marker3) {
      var k := IndexOf(t, Marker3).value;
      assert Marker3[3..] == Marker2;
      assert t[k + 3..k + 3 + |Marker2|] == t[k..k + |Marker3|][3..];
      ContainsWitness(t, Marker2, k + 3);
    }
  }

  /** The markers are tried in order: the text from the first occurrence
      of the first marker found, or the whole trimmed text; the third
      marker never decides. */
  lemma MarkerSearch(fullText: string)
    ensures var t := Trim(fullText, JsSpace);
            (Contains(t, Marker1) ==> Summary(fullText) == t[IndexOf(t, Marker1).value..])
            && (!Contains(t, Marker1) && Contains(t, Marker2) ==> Summary(fullText) == t[IndexOf(t, Marker2).value..])
            && (!Contains(t, Marker1) && !Contains(t, Marker2) ==> Summary(fullText) == t)
  {
    var t := Trim(fullText, JsSpace);
    TrimIsTrimmed(fullText, JsSpace);
    ThirdMarkerDead(t);
    if t != "" {
      assert Markers[0] == Marker1 && Markers[1] == Marker2 && Markers[2] == Marker3;
      if Contains(t, Marker1) {
        MarkersVisible(0);
        MarkerSuffix(t, Marker1, IndexOf(t, Marker1).value);
      } else if Contains(t, Marker2) {
        MarkersVisible(1);
        MarkerSuffix(t, Marker2, IndexOf(t, Marker2).value);
      }
    }
  }

  /** Blank text has the empty summary, and every summary is a suffix of
      the trimmed text. */
  lemma SummaryIsSuffix(fullText: string)
    ensures Trim(fullText, JsSpace) == "" ==> Summary(fullText) == ""
    ensures var t, r := Trim(fullText, JsSpace), Summary(fullText);
            |r| <= |t| && r == t[|t| - |r|..]
  {
    var t := Trim(fullText, JsSpace);
    TrimIsTrimmed(fullText, JsSpace);
    if t != "" {
      SearchIsSuffix(t, 0);
    }
  }

  lemma {:induction false} SearchIsSuffix(t: string, j: nat)
    requires j <= |Markers| && Trimmed(t, JsSpace)
    ensures var r := SummaryFrom(t, j); |r| <= |t| && r == t[|t| - |r|..]
    decreases |Markers| - j
  {
    if j == |Markers| {
      SuffixOf(t, 0);
    } else {
      match IndexOf(t, Markers[j])
      case Some(k) =>
        MarkersVisible(j);
        MarkerSuffix(t, Markers[j], k);
        SuffixOf(t, k);
      case None =>
        SearchIsSuffix(t, j + 1);
    }
  }

  lemma SuffixOf(t: string, k: nat)
    requires k <= |t|
    ensures var r := t[k..]; |r| <= |t| && r == t[|t| - |r|..]
  {
  }

  /** A suffix holds no marker that the whole text does not hold. */
  lemma SuffixContains(t: string, m: string, i: nat)
    requires i <= |t| && !Contains(t, m)
    ensures !Contains(t[i..], m)
  {
    var s := t[i..];
    if Contains(s, m) {
      var k := IndexOf(s, m).value;
      assert t[i + k..i + k + |m|] == s[k..k + |m|];
      ContainsWitness(t, m, i + k);
    }
  }

  /** Text that starts with a marker is its own summary. */
  lemma StartsWithMarker(r: string, m: string)
    requires OccursAt(r, m, 0)
    ensures IndexOf(r, m) == Some(0)
  {
    IndexOfIs(r, m, 0);
  }

  /** The summary of a summary is the summary itself. */
  lemma SummaryIdempotent(fullText: string)
    ensures Summary(Summary(fullText)) == Summary(fullText)
  {
    var t := Trim(fullText, JsSpace);
    TrimIsTrimmed(fullText, JsSpace);
    MarkerSearch(fullText);
    if Contains(t, Marker1) {
      MarkedSuffix(t, Marker1);
    } else if Contains(t, Marker2) {
      MarkedSuffix(t, Marker2);
    } else {
      TrimShape(t, JsSpace);
      MarkerSearch(t);
    }
  }

  /** The text from the first occurrence of the deciding marker on is its
      own summary. */
  lemma MarkedSuffix(t: string, m: string)
    requires Trimmed(t, JsSpace) && Contains(t, m)
    requires m == Marker1 || (m == Marker2 && !Contains(t, Marker1))
    ensures var r := t[IndexOf(t, m).value..]; Summary(r) == r
  {
    var k := IndexOf(t, m).value;
    var r := t[k..];
    assert m == Markers[0] || m == Markers[1];
    MarkersVisible(0);
    MarkersVisible(1);
    MarkerSuffix(t, m, k);
    assert r[0..|m|] == t[k..k + |m|];
    if m == Marker2 {
      SuffixContains(t, Marker1, k);
    }
    SummaryOfMarked(r, m);
  }

  lemma SummaryOfMarked(r: string, m: string)
    requires Trimmed(r, JsSpace) && OccursAt(r, m, 0)
    requires m == Marker1 || (m == Marker2 && !Contains(r, Marker1))
    ensures Summary(r) == r
  {
    TrimShape(r, JsSpace);
    StartsWithMarker(r, m);
    MarkerSearch(r);
  }

  // ---------------------------------------------------------------------
  // The page's state and the stream's callbacks

  /** Which argument of onChunk(event, text) the page appends: its handler
      declares one parameter, so as written that is the event name; the
      fragment text is what the page is evidently meant to show. */
  datatype Binding = AsWritten | Intended

  function ChunkArg(cb: StockApi.Callback, b: Binding): string
    requires cb.OnChunk?
  {
    if b == AsWritten then cb.event else cb.text
  }

  /** The page's state: the accumulated text, the live text, the summary,
      the error and whether it is loading. */
  datatype View = View(fullText: string, streaming: string, summary: string, error: string, loading: bool)

  /** runStream clears everything and starts loading. */
  const Started := View("", "", "", "", true)

  /** One callback: a chunk is appended, done stops loading and shows the
      summary, an error stops loading and shows the message. */
  function Apply(v: View, cb: StockApi.Callback, b: Binding): View
  {
    match cb
    case OnChunk(_, _) =>
      var s := v.fullText + ChunkArg(cb, b);
      v.(fullText := s, streaming := s)
    case OnDone => v.(loading := false, summary := Summary(v.fullText), streaming := "")
    case OnError(m) => v.(loading := false, error := m)
  }

  /** The callbacks applied in order. */
  function After(v: View, cbs: seq<StockApi.Callback>, b: Binding): View
  {
    if cbs == [] then v else Apply(After(v, cbs[..|cbs| - 1], b), cbs[|cbs| - 1], b)
  }

  /** What the chunk callbacks among `cbs` pass, in order. */
  function ChunkText(cbs: seq<StockApi.Callback>, b: Binding): string
  {
    if cbs == [] then ""
    else
      var last := cbs[|cbs| - 1];
      ChunkText(cbs[..|cbs| - 1], b) + (if last.OnChunk? then ChunkArg(last, b) else "")
  }

  /** The accumulated text is what it was followed by the chunks' arguments
      in order; the other callbacks do not touch it. */
  lemma {:induction false} Accumulates(v: View, cbs: seq<StockApi.Callback>, b: Binding)
    ensures After(v, cbs, b).fullText == v.fullText + ChunkText(cbs, b)
  {
    if cbs != [] {
      var init := cbs[..|cbs| - 1];
      Accumulates(v, init, b);
      var last := cbs[|cbs| - 1];
      var extra := if last.OnChunk? then ChunkArg(last, b) else "";
      AppendAssoc(v.fullText, ChunkText(init, b), extra);
    }
  }

  /** Only chunks, then one terminal callback: loading has stopped and the
      text is all the chunks' arguments; after done its summary is shown
      instead of the live text, after an error the message is shown beside
      the live text and there is no summary. */
  lemma Settles(cbs: seq<StockApi.Callback>, b: Binding)
    requires cbs != [] && !cbs[|cbs| - 1].OnChunk?
    requires forall k :: 0 <= k < |cbs| - 1 ==> cbs[k].OnChunk?
    ensures var v := After(Started, cbs, b);
            !v.loading && v.fullText == ChunkText(cbs, b)
            && (cbs[|cbs| - 1] == StockApi.OnDone ==>
                  v.summary == Summary(v.fullText) && v.error == "" && v.streaming == "")
            && (cbs[|cbs| - 1].OnError? ==>
                  v.error == cbs[|cbs| - 1].message && v.summary == "" && v.streaming == v.fullText)
  {
    var init := cbs[..|cbs| - 1];
    Accumulates(Started, init, b);
    ChunksOnly(init, b);
    assert ChunkText(cbs, b) == ChunkText(init, b) + "";
  }

  /** Chunks alone leave the summary and the error empty and keep loading;
      the live text is the accumulated text. */
  lemma {:induction false} ChunksOnly(cbs: seq<StockApi.Callback>, b: Binding)
    requires forall k :: 0 <= k < |cbs| ==> cbs[k].OnChunk?
    ensures var v := After(Started, cbs, b);
            v.loading && v.summary == "" && v.error == "" && v.streaming == v.fullText
  {
    if cbs != [] {
      var init := cbs[..|cbs| - 1];
      assert forall k :: 0 <= k < |init| ==> init[k] == cbs[k];
      ChunksOnly(init, b);
    }
  }

  /** A stream read to its end always stops the loading indicator. */
  lemma EndOfBodyStopsLoading(chunks: seq<string>, b: Binding)
    ensures !After(Started, StockApi.StreamCallbacks(StockApi.Body(chunks, None)), b).loading
  {
    var cbs := StockApi.StreamCallbacks(StockApi.Body(chunks, None));
    StockApi.OneTerminal(StockApi.Body(chunks, None));
    Settles(cbs, b);
  }

  /** The page as written shows the event names: a stream with one
      fragment and then done summarises to the fragment's event name, where
      the fragment itself was meant. */
  lemma EventNamesShown(event: string, text: string)
    requires StockApi.IsChunkEvent(event) && Plain(text)
    ensures var cbs := [StockApi.OnChunk(event, text), StockApi.OnDone];
            After(Started, cbs, AsWritten).summary == event
            && After(Started, cbs, Intended).summary == text
  {
    var cbs := [StockApi.OnChunk(event, text), StockApi.OnDone];
    TwoCallbacks(cbs, AsWritten);
    TwoCallbacks(cbs, Intended);
    ChunkEventPlain(event);
    PlainSummary(event);
    PlainSummary(text);
  }

  lemma TwoCallbacks(cbs: seq<StockApi.Callback>, b: Binding)
    requires |cbs| == 2 && cbs[0].OnChunk? && cbs[1] == StockApi.OnDone
    ensures After(Started, cbs, b).summary == Summary(ChunkArg(cbs[0], b))
  {
    var a := ChunkArg(cbs[0], b);
    var init := cbs[..1];
    assert init[..0] == [] && init[0] == cbs[0];
    assert After(Started, init[..0], b) == Started;
    var v1 := After(Started, init, b);
    assert v1 == Apply(Started, cbs[0], b);
    assert v1.fullText == "" + a == a;
    assert After(Started, cbs, b) == Apply(v1, StockApi.OnDone, b);
  }

  /** Visible text at both ends without the character every marker holds. */
  predicate Plain(s: string)
  {
    s != "" && !IsSpace(s[0], JsSpace) && !IsSpace(s[|s| - 1], JsSpace) && '时' !in s
  }

  lemma ChunkEventPlain(event: string)
    requires StockApi.IsChunkEvent(event)
    ensures Plain(event)
  {
    if event == StockApi.Content {
      assert event == ['c'] + "ontent";
    } else {
      assert event == ['r'] + "easoning";
    }
  }

  /** Plain text is its own summary. */
  lemma PlainSummary(s: string)
    requires Plain(s)
    ensures Summary(s) == s
  {
    TrimLeftNoop(s, JsSpace);
    TrimRightNoop(s, JsSpace);
    assert Trim(s, JsSpace) == s;
    assert Markers[0] == Marker1 && Markers[1] == Marker2 && Markers[2] == Marker3;
    NoMarker(s, Marker1, 0);
    NoMarker(s, Marker2, 0);
    NoMarker(s, Marker3, 3);
  }

  lemma NoMarker(s: string, m: string, i: nat)
    requires '时' !in s && i < |m| && m[i] == '时'
    ensures IndexOf(s, m).None?
  {
  }

  /** The fragments passed by the stream's chunk callbacks. */
  function Fragments(cbs: seq<StockApi.Callback>): string
  {
    ChunkText(cbs, Intended)
  }

  /** The page as it is meant to work: after a body that ends in done the
      summary is that of the fragments' text. */
  lemma IntendedSummary(cbs: seq<StockApi.Callback>)
    requires cbs != [] && cbs[|cbs| - 1] == StockApi.OnDone
    requires forall k :: 0 <= k < |cbs| - 1 ==> cbs[k].OnChunk?
    ensures After(Started, cbs, Intended).summary == Summary(Fragments(cbs))
    ensures After(Started, cbs, Intended).fullText == Fragments(cbs)
  {
    Settles(cbs, Intended);
    Accumulates(Started, cbs, Intended);
  }

  /** The page: fullTextRef and the state it renders. */
  class PredictionPage {
    var fullText: string
    var streaming: string
    var summary: string
    var error: string
    var loading: bool

    function State(): View
      reads this
    {
      View(fullText, streaming, summary, error, loading)
    }

    constructor ()
      ensures State() == View("", "", "", "", false)
    {
      fullText, streaming, summary, error, loading := "", "", "", "", false;
    }

    /** runStream: reset, then handle the callbacks as they arrive. */
    method RunStream(cbs: seq<StockApi.Callback>, b: Binding)
      modifies this
      ensures State() == After(Started, cbs, b)
    {
      error := "";
      summary := "";
      streaming := "";
      fullText := "";
      loading := true;
      for i := 0 to |cbs|
        invariant State() == After(Started, cbs[..i], b)
      {
        assert cbs[..i + 1][..i] == cbs[..i];
        Handle(cbs[i], b);
      }
      assert cbs[..|cbs|] == cbs;
    }

    /** One callback: onChunk, onDone or onError. */
    method Handle(cb: StockApi.Callback, b: Binding)
      modifies this
      ensures State() == Apply(old(State()), cb, b)
    {
      match cb {
        case OnChunk(_, _) => Chunk(ChunkArg(cb, b));
        case OnDone => Done();
        case OnError(m) => Fail(m);
      }
    }

    /** onChunk: fullTextRef.current += t, and the live text follows it. */
    method Chunk(t: string)
      modifies this
      ensures State() == old(State()).(fullText := old(fullText) + t, streaming := old(fullText) + t)
    {
      fullText := fullText + t;
      streaming := fullText;
    }

    /** onDone: stop loading, show the summary, clear the live text. */
    method Done()
      modifies this
      ensures !loading && summary == Summary(old(fullText)) && streaming == ""
      ensures fullText == old(fullText) && error == old(error)
    {
      var s := ExtractSummary(fullText);
      loading := false;
      summary := s;
      streaming := "";
    }

    /** onError: stop loading and show the message. */
    method Fail(m: string)
      modifies this
      ensures State() == old(State()).(loading := false, error := m)
    {
      loading := false;
      error := m;
    }
  }
}
