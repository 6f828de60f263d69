/** The AI service's streaming endpoint: request parsing, the SSE frame
    writer and the handler that relays a streamed prediction as frames. */
module AiStream {
  import opened Wrappers
  import opened Text
  import JsonString
  import opened StockTypes
  import opened Predictor

  // ---------------------------------------------------------------- requests

  datatype HttpMethod = Get | Post | OtherMethod(name: string)

  /** The decoded JSON body of a POST; fields absent or undecodable are zero. */
  datatype StreamBody = StreamBody(code: string, days: int, model: string)

  /** A request to /stream: its method, the `code` query parameter and the
      decoded body. A server request always has a body: an empty or
      undecodable one decodes to all-zero fields. A GET's body is not read. */
  datatype StreamRequest = StreamRequest(verb: HttpMethod, queryCode: string, body: StreamBody)

  const DefaultDays := 3

  /** How the handler answers a request before streaming. */
  datatype Admission = MethodNotAllowed | MissingCode | Admitted(query: Query)

  /** Only GET and POST are served. A POST takes the code, days and model
      from its body and discards the query code; days stays 3 unless the
      body's is positive. A GET takes the query code alone. An empty code is
      refused. */
  function Admit(req: StreamRequest): (a: Admission)
    ensures a.MethodNotAllowed? <==> req.verb.OtherMethod?
    ensures a.Admitted? ==>
              a.query.code != "" && Trimmed(a.query.code, GoSpace)
              && a.query.days > 0 && Trimmed(a.query.modelOverride, GoSpace)
    ensures a.Admitted? && req.verb.Post? ==>
              a.query.code == Trim(req.body.code, GoSpace)
              && a.query.modelOverride == Trim(req.body.model, GoSpace)
              && (req.body.days > 0 ==> a.query.days == req.body.days)
              && (req.body.days <= 0 ==> a.query.days == DefaultDays)
    ensures a.Admitted? && req.verb.Get? ==>
              a.query == Query(Trim(req.queryCode, GoSpace), DefaultDays, "")
  {
    if req.verb.OtherMethod? then MethodNotAllowed
    else if req.verb.Post? then
      var b := req.body;
      TrimShape(b.code, GoSpace);
      TrimShape(b.model, GoSpace);
      var q := Query(Trim(b.code, GoSpace), if b.days > 0 then b.days else DefaultDays, Trim(b.model, GoSpace));
      if q.code == "" then MissingCode else Admitted(q)
    else
      TrimShape(req.queryCode, GoSpace);
      var q := Query(Trim(req.queryCode, GoSpace), DefaultDays, "");
      if q.code == "" then MissingCode else Admitted(q)
  }

  /** On a POST the query string plays no part. */
  lemma QueryCodeDiscarded(req: StreamRequest, otherQuery: string)
    requires req.verb.Post?
    ensures Admit(req.(queryCode := otherQuery)) == Admit(req)
  {
  }

  /** A request is refused for a missing code exactly when the code it takes
      is blank. */
  lemma MissingCodeIsBlank(req: StreamRequest)
    requires !req.verb.OtherMethod?
    ensures req.verb.Post? ==> (Admit(req).MissingCode? <==> Trim(req.body.code, GoSpace) == "")
    ensures req.verb.Get? ==> (Admit(req).MissingCode? <==> Trim(req.queryCode, GoSpace) == "")
    ensures req.verb.Post? && req.body == StreamBody("", 0, "") ==> Admit(req) == MissingCode
  {
  }

  // ------------------------------------------------------------------ frames

  /** One server-sent event: its name (possibly empty) and its data text. */
  datatype Frame = Frame(event: string, data: string)

  /** The writes that put a frame on the wire: the `event:` line when the name
      is not empty, then the data line carrying the JSON-encoded text and the
      blank line that ends the frame. */
  function FrameWrites(f: Frame): (ws: seq<string>)
    ensures |ws| == if f.event == "" then 1 else 2
    ensures ws[|ws| - 1] == "data: " + JsonString.Encode(f.data) + "\n\n"
    ensures f.event != "" ==> ws[0] == "event: " + f.event + "\n"
  {
    (if f.event != "" then ["event: " + f.event + "\n"] else [])
    + ["data: " + JsonString.Encode(f.data) + "\n\n"]
  }

  /** The text of a frame on the wire. */
  function FrameText(f: Frame): string
  {
    Concat(FrameWrites(f))
  }

  /** The writes of a run of frames, in order. */
  function Writes(fs: seq<Frame>): seq<string>
  {
    if fs == [] then [] else FrameWrites(fs[0]) + Writes(fs[1..])
  }

  lemma {:induction false} WritesAppend(a: seq<Frame>, b: seq<Frame>)
    ensures Writes(a + b) == Writes(a) + Writes(b)
  {
    if a == [] {
      assert a + b == b;
    } else {
      assert (a + b)[0] == a[0];
      assert (a + b)[1..] == a[1..] + b;
      WritesAppend(a[1..], b);
    }
  }

  /** The first n writes, or all of them when there are fewer. */
  function Take(ws: seq<string>, n: nat): (r: seq<string>)
    ensures |r| <= n && r <= ws
    ensures |ws| <= n ==> r == ws
  {
    if |ws| <= n then ws else ws[..n]
  }

  /** The event name of a fragment's frame. */
  function ChannelEvent(c: Channel): string
  {
    match c
    case ContentChannel => "content"
    case ReasoningChannel => "reasoning"
  }

  /** The frames of the fragments, one per fragment, in order. */
  function ChunkFrames(calls: seq<Emission>): (fs: seq<Frame>)
    ensures |fs| == |calls|
    ensures forall k :: 0 <= k < |calls| ==>
              fs[k] == Frame(ChannelEvent(calls[k].channel), calls[k].text)
  {
    seq(|calls|, k requires 0 <= k < |calls| => Frame(ChannelEvent(calls[k].channel), calls[k].text))
  }

  /** The last frame: `error` with the message, or `done`. */
  function TerminalFrame(err: Option<string>): (f: Frame)
    ensures IsTerminal(f)
  {
    match err
    case Some(m) => Frame("error", m)
    case None => Frame("done", "")
  }

  predicate IsTerminal(f: Frame)
  {
    f.event == "error" || f.event == "done"
  }

  const NotInitialized := "predictor not initialized"
  const MissingCodeText := "missing code"
  const NoStreamingText := "streaming unsupported"

  /** The inputs of the predictor that the handler does not choose: the clock,
      the quote and summary fetches, the number format and the provider's
      streamed reply with its chunk decoder. */
  datatype Upstream = Upstream(clock: Clock, quote: QuoteReply, summary: SummaryReply, fmt2: real -> string,
                               reply: StreamReply, decode: string -> Option<seq<Delta>>)

  /** A callback that never fails. */
  function Accepting(k: nat): Option<string>
  {
    None
  }

  /** The frames the handler sends when every write goes through: the
      fragments, then one terminal frame. */
  function PlannedFrames(p: Option<Config>, up: Upstream): (fs: seq<Frame>)
  {
    match p
    case None => [Frame("error", NotInitialized)]
    case Some(cfg) =>
      var (calls, err) := StreamOutcome(cfg, up.reply, up.decode, Accepting);
      ChunkFrames(calls) + [TerminalFrame(err)]
  }

  /** Exactly one terminal frame is sent, and it is the last; it is `error`
      when there is no predictor or the prediction failed, `done` otherwise. */
  lemma TerminalLast(p: Option<Config>, up: Upstream)
    ensures var fs := PlannedFrames(p, up);
            |fs| >= 1 && IsTerminal(fs[|fs| - 1])
            && (forall k :: 0 <= k < |fs| - 1 ==> !IsTerminal(fs[k]))
    ensures var fs := PlannedFrames(p, up);
            fs[|fs| - 1].event == "done" <==>
              p.Some? && StreamOutcome(p.value, up.reply, up.decode, Accepting).1.None?
  {
    var fs := PlannedFrames(p, up);
    if p.Some? {
      var (calls, err) := StreamOutcome(p.value, up.reply, up.decode, Accepting);
      forall k | 0 <= k < |fs| - 1 ensures !IsTerminal(fs[k]) {
        assert fs[k] == ChunkFrames(calls)[k];
      }
    }
  }

  // ---------------------------------------------------------------- response

  const ContentType := "Content-Type"
  const PlainText := "text/plain; charset=utf-8"
  const NoSniff := "X-Content-Type-Options"

  /** The response writer as the handler sees it. `writesLeft` is how many
      more writes reach the client before it goes away; after that every
      write fails with `writeErr`. `canFlush` says whether the writer
      supports flushing. */
  class Response {
    var status: int
    var headers: map<string, string>
    var body: string
    var flushes: nat
    var writesLeft: nat
    const canFlush: bool
    const writeErr: string

    constructor (canFlush: bool, writesLeft: nat, writeErr: string)
      ensures status == 200 && headers == map[] && body == "" && flushes == 0
      ensures this.writesLeft == writesLeft && this.canFlush == canFlush && this.writeErr == writeErr
    {
      status := 200;
      headers := map[];
      body := "";
      flushes := 0;
      this.writesLeft := writesLeft;
      this.canFlush := canFlush;
      this.writeErr := writeErr;
    }

    method SetHeader(key: string, value: string)
      modifies this
      ensures headers == old(headers)[key := value]
      ensures status == old(status) && body == old(body) && flushes == old(flushes) && writesLeft == old(writesLeft)
    {
      headers := headers[key := value];
    }

    method WriteHeader(code: int)
      modifies this
      ensures status == code
      ensures headers == old(headers) && body == old(body) && flushes == old(flushes) && writesLeft == old(writesLeft)
    {
      status := code;
    }

    /** Appends the data when the client is still there. */
    method Write(data: string) returns (err: Option<string>)
      modifies this
      ensures old(writesLeft) > 0 ==> err == None && body == old(body) + data && writesLeft == old(writesLeft) - 1
      ensures old(writesLeft) == 0 ==> err == Some(writeErr) && body == old(body) && writesLeft == 0
      ensures status == old(status) && headers == old(headers) && flushes == old(flushes)
    {
      if writesLeft == 0 {
        return Some(writeErr);
      }
      body := body + data;
      writesLeft := writesLeft - 1;
      err := None;
    }

    method Flush()
      modifies this
      ensures flushes == old(flushes) + 1
      ensures status == old(status) && headers == old(headers) && body == old(body) && writesLeft == old(writesLeft)
    {
      flushes := flushes + 1;
    }

    /** A plain-text error reply: the text content type, the status, and the
        message followed by a newline. */
    method Error(msg: string, code: int)
      modifies this
      ensures status == code
      ensures headers == old(headers)[ContentType := PlainText][NoSniff := "nosniff"]
      ensures body == old(body) + Concat(Take([msg + "\n"], old(writesLeft)))
      ensures writesLeft == if old(writesLeft) > 0 then old(writesLeft) - 1 else 0
      ensures flushes == old(flushes)
    {
      SetHeader(ContentType, PlainText);
      SetHeader(NoSniff, "nosniff");
      WriteHeader(code);
      var _ := Write(msg + "\n");
    }
  }

  /** The state of a response after a run of writes, of which the first
      `budget` reach the client. */
  ghost predicate Wrote(rw: Response, body0: string, budget: nat, ws: seq<string>)
    reads rw
  {
    rw.body == body0 + Concat(Take(ws, budget))
    && rw.writesLeft == if |ws| <= budget then budget - |ws| else 0
  }

  lemma TakeStep(ws: seq<string>, w: string, budget: nat)
    ensures Concat(Take(ws + [w], budget)) == Concat(Take(ws, budget)) + (if |ws| < budget then w else "")
  {
    if |ws| < budget {
      assert Take(ws + [w], budget) == Take(ws, budget) + [w];
      ConcatAppend(Take(ws, budget), [w]);
      assert Concat([w]) == w + Concat([]);
    } else {
      assert Take(ws + [w], budget) == Take(ws, budget) by {
        if |ws| > budget {
          assert (ws + [w])[..budget] == ws[..budget];
        } else {
          assert (ws + [w])[..budget] == ws;
        }
      }
    }
  }

  /** One write against the response, in terms of all writes attempted. */
  method Send(rw: Response, w: string, ghost body0: string, ghost budget: nat, ghost before: seq<string>)
    returns (err: Option<string>)
    requires Wrote(rw, body0, budget, before)
    modifies rw
    ensures Wrote(rw, body0, budget, before + [w])
    ensures err.None? <==> |before| < budget
    ensures err.Some? ==> err.value == rw.writeErr
    ensures rw.flushes == old(rw.flushes) && rw.status == old(rw.status) && rw.headers == old(rw.headers)
  {
    ghost var prev := Concat(Take(before, budget));
    TakeStep(before, w, budget);
    if |before| < budget {
      AppendAssoc(body0, prev, w);
    }
    err := rw.Write(w);
  }

  /** Writes one frame and flushes; a failed write ends the frame with that
      write's error and without a flush. */
  method WriteSse(rw: Response, f: Frame, ghost body0: string, ghost budget: nat, ghost before: seq<string>)
    returns (err: Option<string>)
    requires Wrote(rw, body0, budget, before)
    modifies rw
    ensures Wrote(rw, body0, budget, before + FrameWrites(f))
    ensures err.None? <==> |before + FrameWrites(f)| <= budget
    ensures err.Some? ==> err.value == rw.writeErr
    ensures rw.flushes == old(rw.flushes) + (if err.None? then 1 else 0)
    ensures rw.status == old(rw.status) && rw.headers == old(rw.headers)
  {
    var dataLine := "data: " + JsonString.Encode(f.data) + "\n\n";
    if f.event != "" {
      var eventLine := "event: " + f.event + "\n";
      assert before + FrameWrites(f) == before + [eventLine] + [dataLine];
      err := Send(rw, eventLine, body0, budget, before);
      if err.Some? {
        TakeStep(before + [eventLine], dataLine, budget);
        return;
      }
      err := Send(rw, dataLine, body0, budget, before + [eventLine]);
    } else {
      assert before + FrameWrites(f) == before + [dataLine];
      err := Send(rw, dataLine, body0, budget, before);
    }
    if err.None? {
      rw.Flush();
    }
  }

  // ----------------------------------------------------------------- handler

  const SseHeaders: map<string, string> :=
    map["Content-Type" := "text/event-stream", "Cache-Control" := "no-cache",
        "Connection" := "keep-alive", "X-Accel-Buffering" := "no"]

  /** The callback the handler passes to the predictor, as seen from the
      predictor: the k-th call fails once the writes of the k first frames
      have used up what the client takes (each fragment frame is two writes). */
  function Delivering(budget: nat, writeErr: string): nat -> Option<string>
  {
    k => if 2 * k + 2 <= budget then None else Some(writeErr)
  }

  /** Handles one /stream request: refuses a bad method or a missing code,
      sets the event-stream headers, then streams the prediction. `request`
      is the call made to the provider, if any. */
  method HandleStream(p: Option<Config>, rw: Response, req: StreamRequest, up: Upstream)
    returns (request: Option<ChatRequest>)
    modifies rw
    ensures Admit(req).MethodNotAllowed? ==>
              rw.status == 405 && rw.body == old(rw.body) && rw.headers == old(rw.headers)
    ensures Admit(req).MissingCode? ==>
              rw.status == 400 && rw.headers == old(rw.headers)[ContentType := PlainText][NoSniff := "nosniff"]
              && rw.body == old(rw.body) + Concat(Take([MissingCodeText + "\n"], old(rw.writesLeft)))
    ensures Admit(req).Admitted? && !rw.canFlush ==>
              rw.status == 500
              && rw.headers == (old(rw.headers) + SseHeaders)[ContentType := PlainText][NoSniff := "nosniff"]
              && rw.body == old(rw.body) + Concat(Take([NoStreamingText + "\n"], old(rw.writesLeft)))
    ensures Admit(req).Admitted? && rw.canFlush ==>
              rw.status == old(rw.status) && rw.headers == old(rw.headers) + SseHeaders
              && rw.body == old(rw.body) + Concat(Take(Writes(PlannedFrames(p, up)), old(rw.writesLeft)))
    ensures !(Admit(req).Admitted? && rw.canFlush) ==> request.None?
    ensures Admit(req).Admitted? && rw.canFlush ==> Asked(p, Admit(req).query, up, request)
  {
    request := None;
    if req.verb.OtherMethod? {
      rw.WriteHeader(405);
      return;
    }
    AdmitCases(req);
    var code := Trim(req.queryCode, GoSpace);
    var days := DefaultDays;
    var modelOverride := "";
    if req.verb.Post? {
      var body := req.body;
      code := Trim(body.code, GoSpace);
      if body.days > 0 {
        days := body.days;
      }
      modelOverride := Trim(body.model, GoSpace);
    } else {
      if code == "" {
        rw.Error(MissingCodeText, 400);
        return;
      }
    }
    if code == "" {
      rw.Error(MissingCodeText, 400);
      return;
    }
    assert Admit(req) == Admitted(Query(code, days, modelOverride));
    SetSseHeaders(rw);
    if !rw.canFlush {
      rw.Error(NoStreamingText, 500);
      return;
    }
    request := StreamFrames(p, rw, Query(code, days, modelOverride), up);
  }

  /** The event-stream headers: no caching, a kept-alive connection and no
      proxy buffering. */
  method SetSseHeaders(rw: Response)
    modifies rw
    ensures rw.headers == old(rw.headers) + SseHeaders
    ensures rw.status == old(rw.status) && rw.body == old(rw.body) && rw.flushes == old(rw.flushes)
    ensures rw.writesLeft == old(rw.writesLeft)
  {
    rw.SetHeader(ContentType, "text/event-stream");
    rw.SetHeader("Cache-Control", "no-cache");
    rw.SetHeader("Connection", "keep-alive");
    rw.SetHeader("X-Accel-Buffering", "no");
    SseMerge(old(rw.headers));
  }

  lemma SseMerge(h: map<string, string>)
    ensures h[ContentType := "text/event-stream"]["Cache-Control" := "no-cache"]
             ["Connection" := "keep-alive"]["X-Accel-Buffering" := "no"] == h + SseHeaders
  {
  }

  lemma AdmitCases(req: StreamRequest)
    requires !req.verb.OtherMethod?
    ensures req.verb.Post? ==>
              var b := req.body;
              var q := Query(Trim(b.code, GoSpace), if b.days > 0 then b.days else DefaultDays, Trim(b.model, GoSpace));
              Admit(req) == if q.code == "" then MissingCode else Admitted(q)
    ensures req.verb.Get? ==>
              Admit(req) == if Trim(req.queryCode, GoSpace) == "" then MissingCode
                            else Admitted(Query(Trim(req.queryCode, GoSpace), DefaultDays, ""))
  {
  }

  /** The provider call made for query `q`: none without a predictor, a key
      or a sendable request; otherwise a streaming request to the base URL
      carrying the prompt and model built for `q`. */
  predicate Asked(p: Option<Config>, q: Query, up: Upstream, request: Option<ChatRequest>)
  {
    if p.None? || p.value.apiKey == "" || up.reply.StreamUnsendable? then request.None?
    else
      request.Some? && request.value.stream && request.value.url == p.value.baseUrl + "/chat/completions"
      && (request.value.prompt, request.value.model) == BuildPromptForLLM(p.value, q, up.clock, up.quote, up.summary, up.fmt2).value
  }

  /** The streaming part of the handler: the prediction's fragments as
      `content`/`reasoning` frames, then exactly one terminal frame. The body
      is the planned writes cut where the client went away. */
  method StreamFrames(p: Option<Config>, rw: Response, q: Query, up: Upstream)
    returns (request: Option<ChatRequest>)
    modifies rw
    ensures rw.status == old(rw.status) && rw.headers == old(rw.headers)
    ensures rw.body == old(rw.body) + Concat(Take(Writes(PlannedFrames(p, up)), old(rw.writesLeft)))
    ensures Asked(p, q, up, request)
  {
    request := None;
    ghost var body0 := rw.body;
    var budget := rw.writesLeft;
    assert Wrote(rw, body0, budget, []);
    if p.None? {
      var _ := WriteSse(rw, Frame("error", NotInitialized), body0, budget, []);
      assert Writes(PlannedFrames(p, up)) == [] + FrameWrites(Frame("error", NotInitialized)) by {
        SingleWrites(Frame("error", NotInitialized));
      }
      return;
    }
    request := Predicting(p.value, rw, q, up);
  }

  /** The streaming part with a predictor: its fragments as they come, then
      the terminal frame. */
  method Predicting(cfg: Config, rw: Response, q: Query, up: Upstream)
    returns (request: Option<ChatRequest>)
    modifies rw
    ensures rw.status == old(rw.status) && rw.headers == old(rw.headers)
    ensures rw.body == old(rw.body) + Concat(Take(Writes(PlannedFrames(Some(cfg), up)), old(rw.writesLeft)))
    ensures Asked(Some(cfg), q, up, request)
  {
    ghost var body0 := rw.body;
    var budget := rw.writesLeft;
    assert Wrote(rw, body0, budget, []);
    var onChunk := Delivering(budget, rw.writeErr);
    var calls, err;
    request, calls, err := AskPredictor(cfg, q, up, onChunk);
    ReplayCalls(rw, calls, body0, budget);
    var _ := WriteSse(rw, TerminalFrame(err), body0, budget, Writes(ChunkFrames(calls)));
    DeliveredCut(cfg, up, budget, rw.writeErr);
  }

  /** The stream handler's call of the predictor for the admitted query. */
  method AskPredictor(cfg: Config, q: Query, up: Upstream, onChunk: nat -> Option<string>)
    returns (request: Option<ChatRequest>, calls: seq<Emission>, err: Option<string>)
    ensures Asked(Some(cfg), q, up, request)
    ensures (calls, err) == StreamOutcome(cfg, up.reply, up.decode, onChunk)
  {
    request, calls, err := StreamPredict(cfg, q, up.clock, up.quote, up.summary,
                                         up.fmt2, up.reply, up.decode, onChunk);
  }

  /** The predictor's callback calls, replayed in order against the writer. */
  method ReplayCalls(rw: Response, calls: seq<Emission>, ghost body0: string, ghost budget: nat)
    requires Wrote(rw, body0, budget, [])
    modifies rw
    ensures Wrote(rw, body0, budget, Writes(ChunkFrames(calls)))
    ensures rw.status == old(rw.status) && rw.headers == old(rw.headers)
  {
    var i := 0;
    while i < |calls|
      invariant 0 <= i <= |calls|
      invariant Wrote(rw, body0, budget, Writes(ChunkFrames(calls[..i])))
      invariant rw.status == old(rw.status) && rw.headers == old(rw.headers)
    {
      var f := Frame(ChannelEvent(calls[i].channel), calls[i].text);
      ChunkWritesStep(calls, i);
      var _ := WriteSse(rw, f, body0, budget, Writes(ChunkFrames(calls[..i])));
      i := i + 1;
    }
    assert calls[..i] == calls;
  }

  lemma SingleWrites(f: Frame)
    ensures Writes([f]) == FrameWrites(f)
  {
    assert [f][1..] == [];
  }

  lemma ChunkWritesStep(calls: seq<Emission>, i: nat)
    requires i < |calls|
    ensures Writes(ChunkFrames(calls[..i + 1]))
            == Writes(ChunkFrames(calls[..i])) + FrameWrites(Frame(ChannelEvent(calls[i].channel), calls[i].text))
  {
    var f := Frame(ChannelEvent(calls[i].channel), calls[i].text);
    assert ChunkFrames(calls[..i + 1]) == ChunkFrames(calls[..i]) + [f];
    WritesAppend(ChunkFrames(calls[..i]), [f]);
    SingleWrites(f);
  }

  /** A callback that never fails is never the first to fail. */
  lemma AcceptingNeverFails(n: nat)
    ensures FirstFailure(Accepting, n) == None
  {
  }

  /** What the client receives does not depend on the callback failing: the
      writes attempted with the delivering callback and the planned writes
      agree on their first `budget` entries. */
  lemma DeliveredCut(cfg: Config, up: Upstream, budget: nat, writeErr: string)
    ensures var (calls, err) := StreamOutcome(cfg, up.reply, up.decode, Delivering(budget, writeErr));
            Take(Writes(ChunkFrames(calls)) + FrameWrites(TerminalFrame(err)), budget)
            == Take(Writes(PlannedFrames(Some(cfg), up)), budget)
  {
    var (full, ferr) := StreamOutcome(cfg, up.reply, up.decode, Accepting);
    WritesAppend(ChunkFrames(full), [TerminalFrame(ferr)]);
    SingleWrites(TerminalFrame(ferr));
    if cfg.apiKey != "" && up.reply.StreamReplied? && up.reply.status == 200 {
      LinesCut(StepsOf(up.reply.lines, up.decode), budget, writeErr, up.reply.scanErr);
    }
  }

  lemma LinesCut(steps: seq<LineStep>, budget: nat, writeErr: string, scanErr: Option<string>)
    ensures var (calls, err) := StepsOutcome(steps, Delivering(budget, writeErr), scanErr);
            var (full, ferr) := StepsOutcome(steps, Accepting, scanErr);
            Take(Writes(ChunkFrames(calls)) + FrameWrites(TerminalFrame(err)), budget)
            == Take(Writes(ChunkFrames(full)) + FrameWrites(TerminalFrame(ferr)), budget)
  {
    var ems := Fragments(steps);
    AcceptingNeverFails(|ems|);
    var failure := FirstFailure(Delivering(budget, writeErr), |ems|);
    if failure.Some? {
      var k := failure.value;
      assert Delivering(budget, writeErr)(k).Some?;
      CutAtFailure(ems, k, budget, FrameWrites(TerminalFrame(Some(writeErr))),
                   FrameWrites(TerminalFrame(if HasStop(steps) then None else scanErr)));
    }
  }

  /** Cutting the writes at a budget below the end of fragment k's frame: the
      frames after k and the terminal frame play no part. */
  lemma CutAtFailure(ems: seq<Emission>, k: nat, budget: nat, t1: seq<string>, t2: seq<string>)
    requires k < |ems| && budget < 2 * k + 2
    ensures Take(Writes(ChunkFrames(ems[..k + 1])) + t1, budget) == Take(Writes(ChunkFrames(ems)) + t2, budget)
  {
    var head := Writes(ChunkFrames(ems[..k + 1]));
    var tail := Writes(ChunkFrames(ems[k + 1..]));
    assert Writes(ChunkFrames(ems)) + t2 == head + (tail + t2) && budget <= |head| by {
      ChunkWritesSplit(ems, k + 1);
      AppendAssoc(head, tail, t2);
    }
    SharedHead(head, t1, tail + t2, budget);
  }

  lemma SharedHead(head: seq<string>, a: seq<string>, b: seq<string>, n: nat)
    requires n <= |head|
    ensures Take(head + a, n) == Take(head + b, n)
  {
    TakePrefix(head, a, n);
    TakePrefix(head, b, n);
  }

  lemma ChunkWritesSplit(ems: seq<Emission>, n: nat)
    requires n <= |ems|
    ensures Writes(ChunkFrames(ems)) == Writes(ChunkFrames(ems[..n])) + Writes(ChunkFrames(ems[n..]))
    ensures |Writes(ChunkFrames(ems[..n]))| == 2 * n
  {
    assert ChunkFrames(ems) == ChunkFrames(ems[..n]) + ChunkFrames(ems[n..]) by {
      assert ems == ems[..n] + ems[n..];
    }
    WritesAppend(ChunkFrames(ems[..n]), ChunkFrames(ems[n..]));
    WritesLength(ChunkFrames(ems[..n]));
  }

  /** A fragment frame is two writes. */
  lemma {:induction false} WritesLength(fs: seq<Frame>)
    requires forall k :: 0 <= k < |fs| ==> fs[k].event != ""
    ensures |Writes(fs)| == 2 * |fs|
  {
    if fs != [] {
      WritesLength(fs[1..]);
    }
  }

  lemma TakePrefix(a: seq<string>, b: seq<string>, n: nat)
    requires n <= |a|
    ensures Take(a + b, n) == Take(a, n)
  {
    if n < |a| {
      assert (a + b)[..n] == a[..n];
    } else {
      assert (a + b)[..n] == a;
    }
  }
}
