/** From the AI service to the prediction page: the frames the streaming
    handler writes, read back by the browser's stream parser however the
    network cuts the text into chunks, give the page one callback per named
    frame, in order, and end with the terminal frame's callback. */
module EndToEnd {
  import opened Wrappers
  import opened Text
  import JsonString
  import Predictor
  import AiStream
  import StockApi
  import WebPrediction

  // ------------------------------------------------------------ the wire

  /** A frame as written, without the blank line that closes it. */
  function Piece(f: AiStream.Frame): string
  {
    (if f.event != "" then "event: " + f.event + "\n" else "") + "data: " + JsonString.Encode(f.data)
  }

  function Pieces(fs: seq<AiStream.Frame>): (ps: seq<string>)
    ensures |ps| == |fs|
  {
    seq(|fs|, k requires 0 <= k < |fs| => Piece(fs[k]))
  }

  lemma ConcatOne(x: string)
    ensures Concat([x]) == x
  {
    assert [x][1..] == [];
  }

  /** A frame's writes are its piece and the blank line. */
  lemma FrameIsPiece(f: AiStream.Frame)
    ensures AiStream.FrameText(f) == Piece(f) + StockApi.Sep
  {
    var d := "data: " + JsonString.Encode(f.data);
    var ws := AiStream.FrameWrites(f);
    ConcatOne(d + "\n\n");
    if f.event != "" {
      var e := "event: " + f.event + "\n";
      assert ws == [e, d + "\n\n"] && ws[1..] == [d + "\n\n"];
      assert Concat(ws) == e + (d + "\n\n");
    } else {
      assert ws == [d + "\n\n"];
      assert Piece(f) == d;
    }
  }

  /** The text of a run of frames is their pieces, each closed by a blank
      line. */
  lemma {:induction false} WireText(fs: seq<AiStream.Frame>)
    ensures Concat(AiStream.Writes(fs)) == JoinTerminated(Pieces(fs), StockApi.Sep)
    decreases |fs|
  {
    if fs != [] {
      WireText(fs[1..]);
      ConcatAppend(AiStream.FrameWrites(fs[0]), AiStream.Writes(fs[1..]));
      FrameIsPiece(fs[0]);
      assert Pieces(fs)[1..] == Pieces(fs[1..]);
    }
  }

  /** Every line break is followed by a character other than a line break. */
  predicate LoneBreaks(p: string)
  {
    forall k :: 0 <= k < |p| && p[k] == '\n' ==> k + 1 < |p| && p[k + 1] != '\n'
  }

  /** Text whose line breaks stand alone holds no blank line, so a frame's
      piece is never cut inside. */
  lemma LoneBreaksClean(p: string)
    requires LoneBreaks(p)
    ensures SplitsCleanly(p, StockApi.Sep)
  {
    var q := p + StockApi.Sep;
    forall k | 0 <= k < |p| ensures !OccursAt(q, StockApi.Sep, k) {
      if k + 2 <= |q| {
        var w := q[k..k + 2];
        assert w[0] == p[k];
        if p[k] == '\n' {
          assert w[1] == p[k + 1];
        }
      }
    }
  }

  /** A line, a line break and a line that does not start with one. */
  lemma TwoLines(a: string, d: string)
    requires '\n' !in a && '\n' !in d && d != [] && d[0] != '\n'
    ensures LoneBreaks(a + "\n" + d)
  {
    var p := a + "\n" + d;
    forall k | 0 <= k < |p| && p[k] == '\n' ensures k + 1 < |p| && p[k + 1] != '\n' {
      if k == |a| {
        assert p[k + 1] == d[0];
      }
    }
  }

  /** The data line: "data: " and the JSON text, which has no line break. */
  lemma DataLine(data: string)
    ensures var d := "data: " + JsonString.Encode(data);
            '\n' !in d && |d| > 6 && d[0] == 'd' && d[..6] == StockApi.DataPrefix
            && d[6..] == JsonString.Encode(data)
  {
    JsonString.EncodePrintable(data);
  }

  lemma PieceLoneBreaks(f: AiStream.Frame)
    requires '\n' !in f.event
    ensures LoneBreaks(Piece(f))
  {
    var d := "data: " + JsonString.Encode(f.data);
    DataLine(f.data);
    if f.event != "" {
      TwoLines("event: " + f.event, d);
      assert Piece(f) == ("event: " + f.event) + "\n" + d;
    }
  }

  /** The lines of a frame's piece. */
  function Lines(f: AiStream.Frame): (ls: seq<string>)
    ensures |ls| == if f.event == "" then 1 else 2
  {
    (if f.event != "" then ["event: " + f.event] else []) + ["data: " + JsonString.Encode(f.data)]
  }

  lemma PieceLines(f: AiStream.Frame)
    requires '\n' !in f.event
    ensures Split(Piece(f), "\n") == Lines(f)
  {
    var d := "data: " + JsonString.Encode(f.data);
    DataLine(f.data);
    CharFree(d, '\n');
    assert ['\n'] == "\n";
    assert Split(d, "\n") == [d];
    if f.event != "" {
      var a := "event: " + f.event;
      CharFree(a, '\n');
      SplitPrepend(a, "\n", d);
      assert Piece(f) == (a + "\n") + d;
      assert Split(Piece(f), "\n") == [a] + [d];
      assert Lines(f) == [a] + [d];
    } else {
      assert Piece(f) == d;
    }
  }

  /** An event name the parser reads back unchanged: one line, with no
      surrounding blanks. */
  predicate Readable(e: string)
  {
    '\n' !in e && Trimmed(e, JsSpace)
  }

  /** The action of a frame as the browser reads it: the name and the
      JSON-encoded text the handler wrote. */
  function FrameAction(f: AiStream.Frame): StockApi.Action
  {
    StockApi.Dispatch(f.event, JsonString.Encode(f.data))
  }

  /** The data line is not an event line, and its data is what follows the
      prefix. */
  lemma DataLineRead(j: string)
    ensures var d := "data: " + j;
            !HasPrefix(d, StockApi.EventPrefix) && HasPrefix(d, StockApi.DataPrefix) && d[6..] == j
  {
    var d := "data: " + j;
    assert d[0] == 'd';
    if |d| >= 7 {
      assert d[..7][0] == d[0];
    }
  }

  lemma NamedLines(e: string, j: string)
    requires Trimmed(e, JsSpace)
    ensures var ls := ["event: " + e, "data: " + j];
            StockApi.LastEvent(ls) == e && StockApi.LastData(ls) == j
  {
    var a, d := "event: " + e, "data: " + j;
    var ls := [a, d];
    DataLineRead(j);
    assert ls[|ls| - 1] == d && ls[..|ls| - 1] == [a];
    assert HasPrefix(a, StockApi.EventPrefix) && a[7..] == e;
    TrimShape(e, JsSpace);
  }

  lemma UnnamedLines(j: string)
    ensures var ls := ["data: " + j];
            StockApi.LastEvent(ls) == "" && StockApi.LastData(ls) == j
  {
    var d := "data: " + j;
    DataLineRead(j);
    var none: seq<string> := [];
    assert [d][..0] == none;
  }

  /** Reading a frame's piece back recovers its name and its data line. */
  lemma PieceAction(f: AiStream.Frame)
    requires Readable(f.event)
    ensures StockApi.ActionOf(Piece(f)) == FrameAction(f)
  {
    PieceLines(f);
    var j := JsonString.Encode(f.data);
    if f.event != "" {
      NamedLines(f.event, j);
      assert Lines(f) == ["event: " + f.event, "data: " + j];
    } else {
      UnnamedLines(j);
      assert Lines(f) == ["data: " + j];
    }
  }

  // ------------------------------------------------------------ callbacks

  /** The callback a frame is meant to give the page: a chunk for a chunk
      event, nothing for any other name. */
  function Chunk(f: AiStream.Frame): (r: seq<StockApi.Callback>)
    ensures |r| <= 1
  {
    if StockApi.IsChunkEvent(f.event) then [StockApi.OnChunk(f.event, f.data)] else []
  }

  /** The chunk callbacks of a run of frames, in order. */
  function Shown(fs: seq<AiStream.Frame>): seq<StockApi.Callback>
  {
    if fs == [] then [] else Chunk(fs[0]) + Shown(fs[1..])
  }

  /** The callback of the terminal frame. */
  function Closing(f: AiStream.Frame): StockApi.Callback
  {
    if f.event == "done" then StockApi.OnDone else StockApi.OnError(f.data)
  }

  function FrameActions(fs: seq<AiStream.Frame>): (r: seq<StockApi.Action>)
    ensures |r| == |fs|
  {
    seq(|fs|, k requires 0 <= k < |fs| => FrameAction(fs[k]))
  }

  /** A frame other than the terminal one adds its chunk, if any. */
  lemma FrameStep(st: StockApi.Progress, f: AiStream.Frame)
    requires !st.1 && !AiStream.IsTerminal(f)
    ensures StockApi.Step(st, FrameAction(f)) == (st.0 + Chunk(f), false)
  {
    JsonString.RoundTrip(f.data);
    if StockApi.IsChunkEvent(f.event) {
      assert FrameAction(f) == StockApi.Emit(StockApi.OnChunk(f.event, f.data));
    } else {
      assert FrameAction(f) == StockApi.Ignore;
      assert st.0 + Chunk(f) == st.0;
    }
  }

  /** The terminal frame adds its callback and ends the stream. */
  lemma LastStep(st: StockApi.Progress, f: AiStream.Frame)
    requires !st.1 && AiStream.IsTerminal(f)
    ensures StockApi.Step(st, FrameAction(f)) == (st.0 + [Closing(f)], true)
  {
    JsonString.RoundTrip(f.data);
  }

  lemma ActionsTail(fs: seq<AiStream.Frame>)
    requires fs != []
    ensures FrameActions(fs)[0] == FrameAction(fs[0]) && FrameActions(fs)[1..] == FrameActions(fs[1..])
  {
    var a, b := FrameActions(fs)[1..], FrameActions(fs[1..]);
    forall k | 0 <= k < |a| ensures a[k] == b[k] {
      assert fs[1..][k] == fs[k + 1];
    }
  }

  /** Frames before the terminal one add their chunks and leave the stream
      open. */
  lemma {:induction false} RunFrames(st: StockApi.Progress, fs: seq<AiStream.Frame>)
    requires !st.1 && forall k :: 0 <= k < |fs| ==> !AiStream.IsTerminal(fs[k])
    ensures StockApi.Run(st, FrameActions(fs)) == (st.0 + Shown(fs), false)
    decreases |fs|
  {
    if fs == [] {
      assert FrameActions(fs) == [] && Shown(fs) == [];
      assert st.0 + [] == st.0;
      assert st == (st.0, st.1);
    } else {
      var acts := FrameActions(fs);
      ActionsTail(fs);
      var st1 := StockApi.Step(st, acts[0]);
      FrameStep(st, fs[0]);
      RunFrames(st1, fs[1..]);
      AppendAssoc(st.0, Chunk(fs[0]), Shown(fs[1..]));
    }
  }

  /** No piece holds a blank line. */
  lemma PiecesClean(fs: seq<AiStream.Frame>)
    requires forall k :: 0 <= k < |fs| ==> '\n' !in fs[k].event
    ensures forall k :: 0 <= k < |fs| ==> SplitsCleanly(Pieces(fs)[k], StockApi.Sep)
  {
    forall k | 0 <= k < |fs| ensures SplitsCleanly(Pieces(fs)[k], StockApi.Sep) {
      PieceLoneBreaks(fs[k]);
      LoneBreaksClean(Pieces(fs)[k]);
    }
  }

  /** Text ending at a blank line leaves an empty rest. */
  lemma EmptyRest(j: string)
    ensures j + "" == j && !Contains("", StockApi.Sep)
  {
    assert !OccursAt("", StockApi.Sep, 0);
  }

  /** The text of a run of frames splits at the blank lines into their
      pieces and an empty rest. */
  lemma WireSplit(fs: seq<AiStream.Frame>)
    requires forall k :: 0 <= k < |fs| ==> '\n' !in fs[k].event
    ensures Split(Concat(AiStream.Writes(fs)), StockApi.Sep) == Pieces(fs) + [""]
  {
    WireText(fs);
    PiecesClean(fs);
    EmptyRest(JoinTerminated(Pieces(fs), StockApi.Sep));
    SplitOfJoined(Pieces(fs), "", StockApi.Sep);
  }

  /** The parser's actions on the pieces are the frames' own. */
  lemma PiecesActions(fs: seq<AiStream.Frame>)
    requires forall k :: 0 <= k < |fs| ==> Readable(fs[k].event)
    ensures StockApi.ActionsOf(Pieces(fs)) == FrameActions(fs)
  {
    var ps, acts := Pieces(fs), FrameActions(fs);
    forall k | 0 <= k < |ps| ensures StockApi.ActionsOf(ps)[k] == acts[k] {
      PieceAction(fs[k]);
    }
  }

  /** A run ending in its only terminal frame ends the stream with the
      chunks and the terminal callback. */
  lemma RunTerminated(fs: seq<AiStream.Frame>)
    requires |fs| >= 1 && AiStream.IsTerminal(fs[|fs| - 1])
    requires forall k :: 0 <= k < |fs| - 1 ==> !AiStream.IsTerminal(fs[k])
    ensures StockApi.Run(StockApi.Start, FrameActions(fs))
            == (Shown(fs[..|fs| - 1]) + [Closing(fs[|fs| - 1])], true)
  {
    var init, last := fs[..|fs| - 1], fs[|fs| - 1];
    var acts := FrameActions(fs);
    assert acts == FrameActions(init) + [FrameAction(last)];
    StockApi.RunAppend(StockApi.Start, FrameActions(init), [FrameAction(last)]);
    RunFrames(StockApi.Start, init);
    assert StockApi.Start.0 + Shown(init) == Shown(init);
    LastStep((Shown(init), false), last);
    assert [FrameAction(last)][1..] == [];
  }

  /** A body that splits into the pieces of a well-formed run of frames and
      an empty rest calls back the chunks and the terminal callback. */
  lemma DeliveredText(fs: seq<AiStream.Frame>, text: string, readError: Option<StockApi.JsError>)
    requires |fs| >= 1 && forall k :: 0 <= k < |fs| ==> Readable(fs[k].event)
    requires AiStream.IsTerminal(fs[|fs| - 1])
    requires forall k :: 0 <= k < |fs| - 1 ==> !AiStream.IsTerminal(fs[k])
    requires Split(text, StockApi.Sep) == Pieces(fs) + [""]
    ensures StockApi.BodyCallbacks(text, readError) == Shown(fs[..|fs| - 1]) + [Closing(fs[|fs| - 1])]
  {
    StockApi.BodyOfSplit(text, Pieces(fs), "", readError);
    PiecesActions(fs);
    RunTerminated(fs);
    var st := StockApi.Replay(Pieces(fs));
    assert st == StockApi.Run(StockApi.Start, FrameActions(fs));
    assert StockApi.Finale(st, "", readError) == st.0;
  }

  lemma Closed(init: seq<AiStream.Frame>, last: AiStream.Frame)
    requires forall k :: 0 <= k < |init| ==> Readable(init[k].event) && !AiStream.IsTerminal(init[k])
    requires Readable(last.event) && AiStream.IsTerminal(last)
    ensures var fs := init + [last];
            |fs| >= 1 && fs[..|fs| - 1] == init && fs[|fs| - 1] == last
            && (forall k :: 0 <= k < |fs| ==> Readable(fs[k].event))
            && (forall k :: 0 <= k < |fs| ==> '\n' !in fs[k].event)
            && AiStream.IsTerminal(fs[|fs| - 1])
            && (forall k :: 0 <= k < |fs| - 1 ==> !AiStream.IsTerminal(fs[k]))
  {
    var fs := init + [last];
    assert fs[..|fs| - 1] == init;
  }

  /** Whatever the chunking, frames other than the terminal one followed by
      the terminal frame give the page the chunks of the named frames and
      then the terminal callback; a read error after the terminal frame
      changes nothing. */
  lemma Delivery(init: seq<AiStream.Frame>, last: AiStream.Frame, chunks: seq<string>, readError: Option<StockApi.JsError>)
    requires forall k :: 0 <= k < |init| ==> Readable(init[k].event) && !AiStream.IsTerminal(init[k])
    requires Readable(last.event) && AiStream.IsTerminal(last)
    requires Concat(chunks) == Concat(AiStream.Writes(init + [last]))
    ensures StockApi.StreamCallbacks(StockApi.Body(chunks, readError)) == Shown(init) + [Closing(last)]
  {
    var text := Concat(chunks);
    ClosedSplit(init, last, text);
    ClosedText(init, last, text, readError);
    BodyText(chunks, readError);
  }

  /** The wire text of a closed stream splits into the frames' pieces. */
  lemma ClosedSplit(init: seq<AiStream.Frame>, last: AiStream.Frame, text: string)
    requires forall k :: 0 <= k < |init| ==> Readable(init[k].event) && !AiStream.IsTerminal(init[k])
    requires Readable(last.event) && AiStream.IsTerminal(last)
    requires text == Concat(AiStream.Writes(init + [last]))
    ensures Split(text, StockApi.Sep) == Pieces(init + [last]) + [""]
  {
    Closed(init, last);
    WireSplit(init + [last]);
  }

  /** Text split into a closed stream's pieces gives its callbacks. */
  lemma ClosedText(init: seq<AiStream.Frame>, last: AiStream.Frame, text: string, readError: Option<StockApi.JsError>)
    requires forall k :: 0 <= k < |init| ==> Readable(init[k].event) && !AiStream.IsTerminal(init[k])
    requires Readable(last.event) && AiStream.IsTerminal(last)
    requires Split(text, StockApi.Sep) == Pieces(init + [last]) + [""]
    ensures StockApi.BodyCallbacks(text, readError) == Shown(init) + [Closing(last)]
  {
    var fs := init + [last];
    Closed(init, last);
    DeliveredText(fs, text, readError);
  }

  lemma BodyText(chunks: seq<string>, readError: Option<StockApi.JsError>)
    ensures StockApi.StreamCallbacks(StockApi.Body(chunks, readError)) == StockApi.BodyCallbacks(Concat(chunks), readError)
  {
  }

  // ------------------------------------------------------------ the handler's frames

  lemma ChannelReadable(c: Predictor.Channel)
    ensures Readable(AiStream.ChannelEvent(c)) && StockApi.IsChunkEvent(AiStream.ChannelEvent(c))
  {
  }

  lemma TerminalReadable(err: Option<string>)
    ensures Readable(AiStream.TerminalFrame(err).event)
  {
  }

  /** Chunk frames show their own names and texts. */
  lemma {:induction false} ShownChunks(fs: seq<AiStream.Frame>)
    requires forall k :: 0 <= k < |fs| ==> StockApi.IsChunkEvent(fs[k].event)
    ensures Shown(fs) == seq(|fs|, k requires 0 <= k < |fs| => StockApi.OnChunk(fs[k].event, fs[k].data))
    decreases |fs|
  {
    if fs != [] {
      ShownChunks(fs[1..]);
      var a := seq(|fs|, k requires 0 <= k < |fs| => StockApi.OnChunk(fs[k].event, fs[k].data));
      var b := seq(|fs[1..]|, k requires 0 <= k < |fs[1..]| => StockApi.OnChunk(fs[1..][k].event, fs[1..][k].data));
      assert a == [a[0]] + b;
    }
  }

  /** The callbacks the page is meant to see for a prediction: one chunk per
      fragment, named by its channel, then done or the error. */
  function PageCallbacks(calls: seq<Predictor.Emission>, err: Option<string>): (cbs: seq<StockApi.Callback>)
    ensures |cbs| == |calls| + 1
  {
    seq(|calls|, k requires 0 <= k < |calls| =>
      StockApi.OnChunk(AiStream.ChannelEvent(calls[k].channel), calls[k].text))
    + [if err.None? then StockApi.OnDone else StockApi.OnError(err.value)]
  }

  /** The handler's names all read back unchanged. */
  lemma FramesReadable(calls: seq<Predictor.Emission>, err: Option<string>)
    ensures var cf := AiStream.ChunkFrames(calls);
            forall k :: 0 <= k < |cf| ==> Readable(cf[k].event) && !AiStream.IsTerminal(cf[k])
    ensures Readable(AiStream.TerminalFrame(err).event)
  {
    var cf := AiStream.ChunkFrames(calls);
    forall k | 0 <= k < |cf| ensures Readable(cf[k].event) && !AiStream.IsTerminal(cf[k]) {
      ChannelReadable(calls[k].channel);
    }
    TerminalReadable(err);
  }

  /** The fragments' frames show every fragment under its channel's name. */
  lemma ShownFragments(calls: seq<Predictor.Emission>, err: Option<string>)
    ensures Shown(AiStream.ChunkFrames(calls)) + [Closing(AiStream.TerminalFrame(err))] == PageCallbacks(calls, err)
  {
    var cf := AiStream.ChunkFrames(calls);
    forall k | 0 <= k < |cf| ensures StockApi.IsChunkEvent(cf[k].event) {
      ChannelReadable(calls[k].channel);
    }
    ShownChunks(cf);
  }

  /** The fragments' frames and a terminal frame, read back in any
      chunking, give the page the fragments and then done or the error. */
  lemma FragmentDelivery(calls: seq<Predictor.Emission>, err: Option<string>, chunks: seq<string>, readError: Option<StockApi.JsError>)
    requires Concat(chunks) == Concat(AiStream.Writes(AiStream.ChunkFrames(calls) + [AiStream.TerminalFrame(err)]))
    ensures StockApi.StreamCallbacks(StockApi.Body(chunks, readError)) == PageCallbacks(calls, err)
  {
    FramesReadable(calls, err);
    Delivery(AiStream.ChunkFrames(calls), AiStream.TerminalFrame(err), chunks, readError);
    ShownFragments(calls, err);
  }

  /** A lone error frame gives the page that error. */
  lemma ErrorOnly(m: string, chunks: seq<string>, readError: Option<StockApi.JsError>)
    requires Concat(chunks) == Concat(AiStream.Writes([AiStream.Frame("error", m)]))
    ensures StockApi.StreamCallbacks(StockApi.Body(chunks, readError)) == [StockApi.OnError(m)]
  {
    TerminalReadable(Some(m));
    assert [] + [AiStream.Frame("error", m)] == [AiStream.Frame("error", m)];
    Delivery([], AiStream.Frame("error", m), chunks, readError);
  }

  /** The handler's frames, read back by the page in any chunking, give the
      page exactly the predictor's fragments in order, each under its
      channel's name, and then done, or the error; without a predictor, the
      one error. */
  lemma PlannedDelivery(p: Option<Predictor.Config>, up: AiStream.Upstream, chunks: seq<string>, readError: Option<StockApi.JsError>)
    requires Concat(chunks) == Concat(AiStream.Writes(AiStream.PlannedFrames(p, up)))
    ensures var cbs := StockApi.StreamCallbacks(StockApi.Body(chunks, readError));
            match p
            case None => cbs == [StockApi.OnError(AiStream.NotInitialized)]
            case Some(cfg) =>
              var (calls, err) := Predictor.StreamOutcome(cfg, up.reply, up.decode, AiStream.Accepting);
              cbs == PageCallbacks(calls, err)
  {
    var fs := AiStream.PlannedFrames(p, up);
    match p {
      case None =>
        ErrorOnly(AiStream.NotInitialized, chunks, readError);
      case Some(cfg) =>
        var (calls, err) := Predictor.StreamOutcome(cfg, up.reply, up.decode, AiStream.Accepting);
        FragmentDelivery(calls, err, chunks, readError);
    }
  }

  /** The fragments' texts, concatenated. */
  function Texts(calls: seq<Predictor.Emission>): string
  {
    if calls == [] then "" else Texts(calls[..|calls| - 1]) + calls[|calls| - 1].text
  }

  lemma {:induction false} ChunksCarryTexts(calls: seq<Predictor.Emission>)
    ensures WebPrediction.ChunkText(PageCallbacks(calls, None)[..|calls|], WebPrediction.Intended) == Texts(calls)
    decreases |calls|
  {
    var cbs := PageCallbacks(calls, None)[..|calls|];
    if calls != [] {
      var n := |calls| - 1;
      ChunksCarryTexts(calls[..n]);
      assert cbs[..n] == PageCallbacks(calls[..n], None)[..n];
    } else {
      assert cbs == [];
    }
  }

  /** Fragments and done leave the page, as it is meant to work, with the
      fragments' text in full and its summary. */
  lemma PageOfFragments(calls: seq<Predictor.Emission>)
    ensures var v := WebPrediction.After(WebPrediction.Started, PageCallbacks(calls, None), WebPrediction.Intended);
            v.fullText == Texts(calls) && v.summary == WebPrediction.Summary(Texts(calls)) && !v.loading
  {
    var cbs := PageCallbacks(calls, None);
    ChunksCarryTexts(calls);
    assert cbs == cbs[..|calls|] + [StockApi.OnDone];
    assert WebPrediction.Fragments(cbs) == Texts(calls);
    WebPrediction.IntendedSummary(cbs);
    WebPrediction.Settles(cbs, WebPrediction.Intended);
  }

  /** A prediction that ends well leaves the page, as it is meant to work,
      with the fragments' text in full and its summary. */
  lemma PageShowsPrediction(cfg: Predictor.Config, up: AiStream.Upstream, chunks: seq<string>)
    requires Concat(chunks) == Concat(AiStream.Writes(AiStream.PlannedFrames(Some(cfg), up)))
    requires Predictor.StreamOutcome(cfg, up.reply, up.decode, AiStream.Accepting).1.None?
    ensures var calls := Predictor.StreamOutcome(cfg, up.reply, up.decode, AiStream.Accepting).0;
            var v := WebPrediction.After(WebPrediction.Started, StockApi.StreamCallbacks(StockApi.Body(chunks, None)), WebPrediction.Intended);
            v.fullText == Texts(calls) && v.summary == WebPrediction.Summary(Texts(calls)) && !v.loading
  {
    PlannedDelivery(Some(cfg), up, chunks, None);
    PageOfFragments(Predictor.StreamOutcome(cfg, up.reply, up.decode, AiStream.Accepting).0);
  }

  // ------------------------------------------------------------ unnamed frames

  /** The fragments' frames of a handler whose callback carries only the
      text: no event names. */
  function Unnamed(calls: seq<Predictor.Emission>): (fs: seq<AiStream.Frame>)
    ensures |fs| == |calls|
    ensures forall k :: 0 <= k < |fs| ==> fs[k] == AiStream.Frame("", calls[k].text)
  {
    seq(|calls|, k requires 0 <= k < |calls| => AiStream.Frame("", calls[k].text))
  }

  /** The frames of such a handler: the unnamed fragments, then the
      terminal frame. */
  function UnnamedFrames(calls: seq<Predictor.Emission>, err: Option<string>): seq<AiStream.Frame>
  {
    Unnamed(calls) + [AiStream.TerminalFrame(err)]
  }

  lemma {:induction false} ShownUnnamed(fs: seq<AiStream.Frame>)
    requires forall k :: 0 <= k < |fs| ==> fs[k].event == ""
    ensures Shown(fs) == []
    decreases |fs|
  {
    if fs != [] {
      ShownUnnamed(fs[1..]);
    }
  }

  lemma UnnamedReadable(calls: seq<Predictor.Emission>)
    ensures var un := Unnamed(calls);
            (forall k :: 0 <= k < |un| ==> Readable(un[k].event) && !AiStream.IsTerminal(un[k]))
            && Shown(un) == []
  {
    ShownUnnamed(Unnamed(calls));
  }

  /** Unnamed frames are dropped by the page's parser: however many
      fragments the predictor produced, the page sees only the terminal
      callback. */
  lemma UnnamedDropped(calls: seq<Predictor.Emission>, err: Option<string>, chunks: seq<string>, readError: Option<StockApi.JsError>)
    requires Concat(chunks) == Concat(AiStream.Writes(UnnamedFrames(calls, err)))
    ensures StockApi.StreamCallbacks(StockApi.Body(chunks, readError))
            == [if err.None? then StockApi.OnDone else StockApi.OnError(err.value)]
  {
    UnnamedReadable(calls);
    TerminalReadable(err);
    Delivery(Unnamed(calls), AiStream.TerminalFrame(err), chunks, readError);
  }
}
