/** The gateway's prediction endpoints: the blocking one, which forwards to
    the AI service's RPC, and the streaming one, which forwards to the AI
    service's /stream endpoint and copies its event stream to the browser. */
module GatewayPrediction {
  import opened Wrappers
  import opened Text
  import opened GatewayHandlers

  /** The decoded JSON body of the browser's request; fields absent or
      undecodable are zero. */
  datatype PredictionBody = PredictionBody(days: int, includeNews: bool, model: string)

  const DefaultDays := 3

  /** The days asked for, 3 when the body gives none or a non-positive one. */
  function EffectiveDays(body: PredictionBody): (d: int)
    ensures d > 0
    ensures body.days > 0 ==> d == body.days
  {
    if body.days <= 0 then DefaultDays else body.days
  }

  /** The AI service's RPC request. */
  datatype RpcRequest = RpcRequest(code: string, days: int, includeNews: bool, model: string)

  /** The AI service's RPC result. */
  datatype PredictionResult = PredictionResult(code: string, confidence: real, analysis: string, newsSummary: string)

  datatype PredictionReply =
    | PredictionText(status: int, text: string)
    | PredictionJson(code: string, confidence: real, analysis: string, newsSummary: string)

  const EmptyResult := "AI service returned empty result"

  /** POST /api/prediction/:code. `call` is the AI service's RPC: an error, a
      nil result, or a result. Returns the reply and the RPC request made. */
  function GetPrediction(pathCode: string, body: PredictionBody,
                         call: RpcRequest -> Result<Option<PredictionResult>, string>)
    : (r: (PredictionReply, Option<RpcRequest>))
    ensures r.1.None? <==> Trim(pathCode, GoSpace) == ""
    ensures r.1.None? ==> r.0 == PredictionText(400, "missing code")
    ensures r.1.Some? ==>
              r.1.value == RpcRequest(NormalizeHkCode(Trim(pathCode, GoSpace)), EffectiveDays(body),
                                      body.includeNews, body.model)
    ensures r.1.Some? ==>
              match call(r.1.value)
              case Err(e) => r.0 == PredictionText(500, e)
              case Ok(None) => r.0 == PredictionText(500, EmptyResult)
              case Ok(Some(p)) => r.0 == PredictionJson(p.code, p.confidence, p.analysis, p.newsSummary)
  {
    var code := Trim(pathCode, GoSpace);
    if code == "" then (PredictionText(400, "missing code"), None)
    else
      var req := RpcRequest(NormalizeHkCode(code), EffectiveDays(body), body.includeNews, body.model);
      match call(req)
      case Err(e) => (PredictionText(500, e), Some(req))
      case Ok(None) => (PredictionText(500, EmptyResult), Some(req))
      case Ok(Some(p)) => (PredictionJson(p.code, p.confidence, p.analysis, p.newsSummary), Some(req))
  }

  /** A successful reply carries the RPC result's four fields and nothing
      else, whatever the request. */
  lemma PredictionCopiesResult(pathCode: string, body: PredictionBody,
                               call: RpcRequest -> Result<Option<PredictionResult>, string>)
    ensures var (reply, req) := GetPrediction(pathCode, body, call);
            reply.PredictionJson? ==>
              req.Some? && call(req.value).Ok? && call(req.value).value.Some?
              && var p := call(req.value).value.value;
                 reply == PredictionJson(p.code, p.confidence, p.analysis, p.newsSummary)
  {
  }

  // ----------------------------------------------------------- streaming

  /** The request the gateway sends to the AI service's /stream endpoint. */
  datatype StreamForward = StreamForward(code: string, days: int, model: string)

  /** How a read of the upstream body ends: more to come, the end of the body,
      or a failure. */
  datatype ReadEnd = More | Eof | Failed(err: string)

  /** One read of the upstream body: the bytes read (at most the 4096-byte
      buffer) and how the read ended. */
  datatype Read = Read(data: string, end: ReadEnd)

  const BufferSize := 4096

  /** What the upstream call gave: a transport failure, or a status with the
      whole body (for a failure status) and the body's successive chunks. */
  datatype Upstream =
    | Unreachable(err: string)
    | Answered(status: int, body: string, chunks: seq<Read>)

  /** Whether the chunks end: one of them reports the end of the body or a
      failure. */
  predicate Ends(chunks: seq<Read>)
  {
    exists k :: 0 <= k < |chunks| && !chunks[k].end.More?
  }

  /** The index of the read that ends the copy: the first one that does not
      report more to come. */
  function LastRead(chunks: seq<Read>): (k: nat)
    requires Ends(chunks)
    ensures k < |chunks| && !chunks[k].end.More?
    ensures forall j :: 0 <= j < k ==> chunks[j].end.More?
  {
    FirstEndFrom(chunks, 0)
  }

  function FirstEndFrom(chunks: seq<Read>, from: nat): (k: nat)
    requires from <= |chunks| && exists k :: from <= k < |chunks| && !chunks[k].end.More?
    ensures from <= k < |chunks| && !chunks[k].end.More?
    ensures forall j :: from <= j < k ==> chunks[j].end.More?
    decreases |chunks| - from
  {
    if !chunks[from].end.More? then from else FirstEndFrom(chunks, from + 1)
  }

  /** The non-empty chunks among the first n, in order: what is written. */
  function Payloads(chunks: seq<Read>): (ws: seq<string>)
    ensures forall k :: 0 <= k < |ws| ==> ws[k] != ""
  {
    if chunks == [] then []
    else Payloads(chunks[..|chunks| - 1]) + (if chunks[|chunks| - 1].data == "" then [] else [chunks[|chunks| - 1].data])
  }

  lemma PayloadsStep(chunks: seq<Read>, i: nat)
    requires i < |chunks|
    ensures chunks[i].data == "" ==> Payloads(chunks[..i + 1]) == Payloads(chunks[..i])
    ensures chunks[i].data != "" ==> Payloads(chunks[..i + 1]) == Payloads(chunks[..i]) + [chunks[i].data]
  {
    assert chunks[..i + 1][..i] == chunks[..i];
    assert Payloads(chunks[..i]) + [] == Payloads(chunks[..i]);
  }

  lemma PayloadsText(chunks: seq<Read>)
    ensures Concat(Payloads(chunks)) == Concat(DataOf(chunks))
  {
    if chunks != [] {
      var init := chunks[..|chunks| - 1];
      var last := chunks[|chunks| - 1].data;
      assert DataOf(chunks) == DataOf(init) + [last];
      PayloadsText(init);
      ConcatAppend(Payloads(init), if last == "" then [] else [last]);
      ConcatAppend(DataOf(init), [last]);
      assert Concat([last]) == last + Concat([]);
    }
  }

  /** The data of the chunks, in order. */
  function DataOf(chunks: seq<Read>): (ds: seq<string>)
    ensures |ds| == |chunks| && forall k :: 0 <= k < |chunks| ==> ds[k] == chunks[k].data
  {
    seq(|chunks|, k requires 0 <= k < |chunks| => chunks[k].data)
  }

  /** The content type Hertz's c.String gives a response. */
  const PlainTextUtf8 := "text/plain; charset=utf-8"

  /** The browser's side of the gateway response. `writesLeft` is how many
      more writes reach the browser before it goes away; later writes fail and
      their error is ignored. */
  class Downstream {
    var status: int
    var headers: map<string, string>
    var body: string
    var flushes: nat
    var writesLeft: nat

    constructor (writesLeft: nat)
      ensures status == 200 && headers == map[] && body == "" && flushes == 0 && this.writesLeft == writesLeft
    {
      status := 200;
      headers := map[];
      body := "";
      flushes := 0;
      this.writesLeft := writesLeft;
    }

    /** c.String: the status, the plain-text content type Hertz sets, and a
        text body. */
    method Text(code: int, text: string)
      modifies this
      ensures status == code && body == old(body) + text
      ensures headers == old(headers)["Content-Type" := PlainTextUtf8]
      ensures flushes == old(flushes) && writesLeft == old(writesLeft)
    {
      status := code;
      headers := headers["Content-Type" := PlainTextUtf8];
      body := body + text;
    }

    method SetHeader(key: string, value: string)
      modifies this
      ensures headers == old(headers)[key := value]
      ensures status == old(status) && body == old(body) && flushes == old(flushes) && writesLeft == old(writesLeft)
    {
      headers := headers[key := value];
    }

    /** Appends the data when the browser is still there; fails otherwise. */
    method Write(data: string) returns (ok: bool)
      modifies this
      ensures ok <==> old(writesLeft) > 0
      ensures body == old(body) + (if ok then data else "")
      ensures writesLeft == if ok then old(writesLeft) - 1 else 0
      ensures status == old(status) && headers == old(headers) && flushes == old(flushes)
    {
      if writesLeft == 0 {
        return false;
      }
      body := body + data;
      writesLeft := writesLeft - 1;
      ok := true;
    }

    method Flush()
      modifies this
      ensures flushes == old(flushes) + 1
      ensures status == old(status) && headers == old(headers) && body == old(body) && writesLeft == old(writesLeft)
    {
      flushes := flushes + 1;
    }
  }

  /** The first n writes, or all of them when there are fewer. */
  function Take(ws: seq<string>, n: nat): (r: seq<string>)
    ensures |r| <= n && r <= ws
    ensures |ws| <= n ==> r == ws
  {
    if |ws| <= n then ws else ws[..n]
  }

  lemma TakeStep(ws: seq<string>, w: string, budget: nat)
    ensures Concat(Take(ws + [w], budget)) == Concat(Take(ws, budget)) + (if |ws| < budget then w else "")
  {
    if |ws| < budget {
      assert Take(ws + [w], budget) == Take(ws, budget) + [w];
      ConcatAppend(Take(ws, budget), [w]);
      assert Concat([w]) == w + Concat([]);
    } else {
      assert Take(ws + [w], budget) == Take(ws, budget) by {
        if |ws| > budget {
          assert (ws + [w])[..budget] == ws[..budget];
        } else {
          assert (ws + [w])[..budget] == ws;
        }
      }
    }
  }

  /** The copy loop: each non-empty read is written and flushed, write
      failures are ignored, and the loop stops at the first read that ends
      the body or fails. Returns how many reads it made. */
  method Relay(out: Downstream, chunks: seq<Read>) returns (count: nat)
    requires Ends(chunks)
    requires forall k :: 0 <= k < |chunks| ==> |chunks[k].data| <= BufferSize
    modifies out
    ensures count == LastRead(chunks) + 1
    ensures out.body == old(out.body) + Concat(Take(Payloads(chunks[..count]), old(out.writesLeft)))
    ensures out.flushes == old(out.flushes) + |Payloads(chunks[..count])|
    ensures out.status == old(out.status) && out.headers == old(out.headers)
  {
    ghost var budget := out.writesLeft;
    ghost var body0 := out.body;
    var i := 0;
    while true
      invariant 0 <= i <= LastRead(chunks)
      invariant out.body == body0 + Concat(Take(Payloads(chunks[..i]), budget))
      invariant out.writesLeft == Left(budget, |Payloads(chunks[..i])|)
      invariant out.flushes == old(out.flushes) + |Payloads(chunks[..i])|
      invariant out.status == old(out.status) && out.headers == old(out.headers)
      decreases LastRead(chunks) - i
    {
      var r := chunks[i];
      PayloadsStep(chunks, i);
      if |r.data| > 0 {
        Pass(out, r.data, Payloads(chunks[..i]), budget, body0);
      }
      if r.end.Eof? {
        return i + 1;
      }
      if r.end.Failed? {
        return i + 1;
      }
      i := i + 1;
    }
  }

  /** The writes left once n of a budget have been made. */
  function Left(budget: nat, n: nat): nat
  {
    if n <= budget then budget - n else 0
  }

  /** Writes one non-empty read and flushes: after the writes `ws`, the
      browser has the first `budget` of `ws + [data]`. */
  method Pass(out: Downstream, data: string, ghost ws: seq<string>, ghost budget: nat, ghost body0: string)
    requires data != ""
    requires out.body == body0 + Concat(Take(ws, budget)) && out.writesLeft == Left(budget, |ws|)
    modifies out
    ensures out.body == body0 + Concat(Take(ws + [data], budget)) && out.writesLeft == Left(budget, |ws| + 1)
    ensures out.flushes == old(out.flushes) + 1
    ensures out.status == old(out.status) && out.headers == old(out.headers)
  {
    TakeStep(ws, data, budget);
    AppendAssoc(body0, Concat(Take(ws, budget)), if |ws| < budget then data else "");
    var _ := out.Write(data);
    out.Flush();
  }

  /** When the browser stays, what it receives is the upstream body: the
      concatenation of the chunks, in order. */
  lemma RelayCopiesAll(chunks: seq<Read>, count: nat, budget: nat)
    requires count <= |chunks| && |Payloads(chunks[..count])| <= budget
    ensures Concat(Take(Payloads(chunks[..count]), budget)) == Concat(DataOf(chunks[..count]))
  {
    PayloadsText(chunks[..count]);
  }

  const SseHeaders: map<string, string> :=
    map["Content-Type" := "text/event-stream", "Cache-Control" := "no-cache",
        "Connection" := "keep-alive", "X-Accel-Buffering" := "no"]

  method SetSseHeaders(out: Downstream)
    modifies out
    ensures out.headers == old(out.headers) + SseHeaders
    ensures out.status == old(out.status) && out.body == old(out.body) && out.flushes == old(out.flushes)
    ensures out.writesLeft == old(out.writesLeft)
  {
    out.SetHeader("Content-Type", "text/event-stream");
    out.SetHeader("Cache-Control", "no-cache");
    out.SetHeader("Connection", "keep-alive");
    out.SetHeader("X-Accel-Buffering", "no");
    SseMerge(old(out.headers));
  }

  lemma SseMerge(h: map<string, string>)
    ensures h["Content-Type" := "text/event-stream"]["Cache-Control" := "no-cache"]
             ["Connection" := "keep-alive"]["X-Accel-Buffering" := "no"] == h + SseHeaders
  {
  }

  /** A successful upstream answer's reads end, and each fills at most the
      buffer. */
  predicate Relayable(u: Upstream)
  {
    u.Answered? && u.status == 200 ==>
      Ends(u.chunks) && forall k :: 0 <= k < |u.chunks| ==> |u.chunks[k].data| <= BufferSize
  }

  /** The request the streaming endpoint forwards: none for a blank code,
      else the normalised code, the effective days and the model. */
  function StreamForwardOf(pathCode: string, body: PredictionBody): Option<StreamForward>
  {
    var code := Trim(pathCode, GoSpace);
    if code == "" then None else Some(StreamForward(NormalizeHkCode(code), EffectiveDays(body), body.model))
  }

  /** The streaming endpoint forwards exactly when the blocking one calls the
      RPC, with the same code, days and model. */
  lemma SameRequestBothWays(pathCode: string, body: PredictionBody,
                            call: RpcRequest -> Result<Option<PredictionResult>, string>)
    ensures var f := StreamForwardOf(pathCode, body);
            var r := GetPrediction(pathCode, body, call).1;
            (f.None? <==> r.None?)
            && (f.Some? ==> f.value.code == r.value.code && f.value.days == r.value.days && f.value.model == r.value.model)
  {
  }

  /** POST /api/prediction/:code/stream. `up` is the upstream's answer to the
      forwarded request; it is not consulted when nothing is forwarded.
      Returns the forwarded request, if any. */
  method GetPredictionStream(out: Downstream, pathCode: string, body: PredictionBody, up: Upstream)
    returns (forward: Option<StreamForward>)
    requires Relayable(up)
    modifies out
    ensures forward == StreamForwardOf(pathCode, body)
    ensures forward.None? ==>
              out.status == 400 && out.body == old(out.body) + "missing code"
              && out.headers == old(out.headers)["Content-Type" := PlainTextUtf8]
    ensures forward.Some? ==> Responded(out, old(out.status), old(out.headers), old(out.body), old(out.writesLeft), up)
  {
    forward := StreamForwardOf(pathCode, body);
    if forward.None? {
      out.Text(400, "missing code");
      return;
    }
    Respond(out, up);
  }

  /** What the browser has once the upstream answered: its failure as a 500,
      a failure status with its body, or the event-stream headers and the
      relayed chunks. */
  predicate Responded(out: Downstream, status0: int, headers0: map<string, string>, body0: string, writes0: nat, up: Upstream)
    requires Relayable(up)
    reads out
  {
    match up
    case Unreachable(err) =>
      out.status == 500 && out.body == body0 + err && out.headers == headers0["Content-Type" := PlainTextUtf8]
    case Answered(status, text, chunks) =>
      if status != 200 then
        out.status == status && out.body == body0 + text && out.headers == headers0["Content-Type" := PlainTextUtf8]
      else out.status == status0 && out.headers == headers0 + SseHeaders
           && out.body == body0 + Concat(Take(Payloads(chunks[..LastRead(chunks) + 1]), writes0))
  }

  method Respond(out: Downstream, up: Upstream)
    requires Relayable(up)
    modifies out
    ensures Responded(out, old(out.status), old(out.headers), old(out.body), old(out.writesLeft), up)
  {
    match up {
      case Unreachable(e) =>
        out.Text(500, e);
      case Answered(status, text, chunks) =>
        if status != 200 {
          out.Text(status, text);
        } else {
          CopyStream(out, chunks);
        }
    }
  }

  /** A 200 answer: the event-stream headers, then the copy loop. */
  method CopyStream(out: Downstream, chunks: seq<Read>)
    requires Ends(chunks) && forall k :: 0 <= k < |chunks| ==> |chunks[k].data| <= BufferSize
    modifies out
    ensures out.status == old(out.status) && out.headers == old(out.headers) + SseHeaders
    ensures out.body == old(out.body) + Concat(Take(Payloads(chunks[..LastRead(chunks) + 1]), old(out.writesLeft)))
  {
    SetSseHeaders(out);
    var _ := Relay(out, chunks);
  }
}
