/** The browser's API module: its copy of the stock-code rule and the
    incremental parser of the prediction event stream. */
module StockApi {
  import opened Wrappers
  import opened Text
  import opened CodeNormal
  import JsonString
  import GatewayHandlers

  /** The browser's code rule: trim, lower-case, then pad (lengths in UTF-16
      code units). */
  function NormalizeCode(code: string): (r: string)
    ensures HasHkPrefix(r)
    ensures var c := Lower(Trim(code, JsSpace));
            (HasHkPrefix(c) && Len(c, Utf16Units) == 6 ==> r == "hk0" + c[2..])
            && (!HasHkPrefix(c) && Len(c, Utf16Units) <= 5 ==> Canonical(r, Utf16Units))
  {
    Pad(Lower(Trim(code, JsSpace)), Utf16Units)
  }

  lemma LowerAscii(s: string)
    requires IsAscii(s)
    ensures IsAscii(Lower(s))
  {
    forall k | 0 <= k < |s| ensures Lower(s)[k] < '\U{80}' {
      assert s[k] < '\U{80}';
    }
  }

  /** On ASCII text both length measures agree, and so does the padding. */
  lemma PadAscii(x: string)
    requires IsAscii(x)
    ensures Pad(x, Utf16Units) == Pad(x, Utf8Bytes)
  {
    LenAscii(x, Utf16Units);
    LenAscii(x, Utf8Bytes);
    var n := |x|;
    if HasHkPrefix(x) {
      if n == 6 {
        assert Pad(x, Utf16Units) == "hk0" + x[2..] == Pad(x, Utf8Bytes);
      } else {
        assert Pad(x, Utf16Units) == x == Pad(x, Utf8Bytes);
      }
    } else if n <= 5 {
      assert Pad(x, Utf16Units) == "hk" + Repeat('0', 5 - n) + x == Pad(x, Utf8Bytes);
    } else {
      assert Pad(x, Utf16Units) == "hk" + x == Pad(x, Utf8Bytes);
    }
  }

  /** On ASCII input the browser and the gateway canonicalise alike. */
  lemma AgreesWithGateway(code: string)
    requires IsAscii(code)
    ensures NormalizeCode(code) == GatewayHandlers.NormalizeHkCode(code)
  {
    AsciiTrim(code);
    var c := Trim(code, GoSpace);
    LowerTrim(code, GoSpace);
    assert Lower(Trim(code, JsSpace)) == Trim(Lower(code), GoSpace);
    LowerAscii(c);
    PadAscii(Lower(c));
  }

  /** The message passed on for a response whose status is not 2xx. */
  function NonOkMessage(text: string, status: nat): (r: string)
    ensures r != ""
    ensures text != "" ==> r == text
  {
    if text != "" then text else "请求失败 " + Decimal(status)
  }

  // ---------------------------------------------------------------------
  // One event: its lines, its fields, what it calls back.

  const EventPrefix := "event: "
  const DataPrefix := "data: "

  /** The event name of a block of lines: that of the last `event: ` line,
      trimmed, or "" when there is none. */
  function LastEvent(lines: seq<string>): string
  {
    if lines == [] then ""
    else
      var l := lines[|lines| - 1];
      if HasPrefix(l, EventPrefix) then Trim(l[7..], JsSpace) else LastEvent(lines[..|lines| - 1])
  }

  /** The data of a block of lines: that of the last `data: ` line, or "". */
  function LastData(lines: seq<string>): string
  {
    if lines == [] then ""
    else
      var l := lines[|lines| - 1];
      if !HasPrefix(l, EventPrefix) && HasPrefix(l, DataPrefix) then l[6..] else LastData(lines[..|lines| - 1])
  }

  /** The last `event: ` line decides the name, whatever precedes it. */
  lemma {:induction false} LastEventWins(lines: seq<string>, k: nat)
    requires k < |lines| && HasPrefix(lines[k], EventPrefix)
    requires forall j :: k < j < |lines| ==> !HasPrefix(lines[j], EventPrefix)
    ensures LastEvent(lines) == Trim(lines[k][7..], JsSpace)
    decreases |lines|
  {
    if k < |lines| - 1 {
      var init := lines[..|lines| - 1];
      assert init[k] == lines[k];
      assert forall j :: k < j < |init| ==> init[j] == lines[j];
      LastEventWins(init, k);
    }
  }

  /** Without an `event: ` line the name is empty. */
  lemma {:induction false} NoEventLine(lines: seq<string>)
    requires forall j :: 0 <= j < |lines| ==> !HasPrefix(lines[j], EventPrefix)
    ensures LastEvent(lines) == ""
    decreases |lines|
  {
    if lines != [] {
      var init := lines[..|lines| - 1];
      assert forall j :: 0 <= j < |init| ==> init[j] == lines[j];
      NoEventLine(init);
    }
  }

  /** The last `data: ` line decides the data. */
  lemma {:induction false} LastDataWins(lines: seq<string>, k: nat)
    requires k < |lines| && HasPrefix(lines[k], DataPrefix) && !HasPrefix(lines[k], EventPrefix)
    requires forall j :: k < j < |lines| ==> !HasPrefix(lines[j], DataPrefix)
    ensures LastData(lines) == lines[k][6..]
    decreases |lines|
  {
    if k < |lines| - 1 {
      var init := lines[..|lines| - 1];
      assert init[k] == lines[k];
      assert forall j :: k < j < |init| ==> init[j] == lines[j];
      LastDataWins(init, k);
    }
  }

  /** The loop over the lines of one event, keeping the last name and data
      seen. */
  method ParseEvent(part: string) returns (event: string, data: string)
    ensures var lines := Split(part, "\n"); event == LastEvent(lines) && data == LastData(lines)
  {
    var lines := Split(part, "\n");
    event, data := "", "";
    for i := 0 to |lines|
      invariant event == LastEvent(lines[..i]) && data == LastData(lines[..i])
    {
      var line := lines[i];
      assert lines[..i + 1][..i] == lines[..i];
      if HasPrefix(line, EventPrefix) {
        event := Trim(line[7..], JsSpace);
      } else if HasPrefix(line, DataPrefix) {
        data := line[6..];
      }
    }
    assert lines[..|lines|] == lines;
  }

  /** The callbacks the page receives. */
  datatype Callback = OnChunk(event: string, text: string) | OnDone | OnError(message: string)

  /** JSON.parse of the data, or the data itself when it is not a JSON
      string. */
  function Payload(data: string): string
  {
    match JsonString.Decode(data)
    case Some(s) => s
    case None => data
  }

  const Reasoning := "reasoning"
  const Content := "content"

  predicate IsChunkEvent(event: string)
  {
    event == Reasoning || event == Content
  }

  /** What one complete event does: a chunk for `reasoning` and `content`,
      the end of the stream for `error` and `done`, nothing for any other
      name, the empty one included. */
  datatype Action = Emit(cb: Callback) | Stop(cb: Callback) | Ignore

  function Dispatch(event: string, data: string): (r: Action)
    ensures r.Emit? <==> IsChunkEvent(event)
    ensures r.Emit? ==> r.cb == OnChunk(event, Payload(data))
    ensures r.Stop? <==> event == "error" || event == "done"
    ensures r.Stop? ==> r.cb == if event == "done" then OnDone else OnError(Payload(data))
  {
    if IsChunkEvent(event) then Emit(OnChunk(event, Payload(data)))
    else if event == "error" then Stop(OnError(Payload(data)))
    else if event == "done" then Stop(OnDone)
    else Ignore
  }

  /** What one complete event does. */
  function ActionOf(part: string): Action
  {
    var lines := Split(part, "\n");
    Dispatch(LastEvent(lines), LastData(lines))
  }

  /** The actions of a run of complete events, one per event. */
  function ActionsOf(parts: seq<string>): (r: seq<Action>)
    ensures |r| == |parts|
  {
    seq(|parts|, k requires 0 <= k < |parts| => ActionOf(parts[k]))
  }

  lemma ActionsOfAppend(a: seq<string>, b: seq<string>)
    ensures ActionsOf(a + b) == ActionsOf(a) + ActionsOf(b)
  {
    var r, q := ActionsOf(a + b), ActionsOf(a) + ActionsOf(b);
    forall k | 0 <= k < |r| ensures r[k] == q[k] {
      if k < |a| {
        assert (a + b)[k] == a[k];
      } else {
        assert (a + b)[k] == b[k - |a|];
      }
    }
  }

  /** The callbacks made so far, and whether the stream has ended. */
  type Progress = (seq<Callback>, bool)

  const Start: Progress := ([], false)

  /** One action applied; once the stream has ended nothing happens. */
  function Step(st: Progress, a: Action): Progress
  {
    if st.1 then st
    else
      match a
      case Emit(cb) => (st.0 + [cb], false)
      case Stop(cb) => (st.0 + [cb], true)
      case Ignore => st
  }

  /** The actions applied in order. */
  function Run(st: Progress, acts: seq<Action>): Progress
    decreases |acts|
  {
    if acts == [] then st else Run(Step(st, acts[0]), acts[1..])
  }

  /** The progress after a run of complete events. */
  function Replay(parts: seq<string>): Progress
  {
    Run(Start, ActionsOf(parts))
  }

  /** Running two stretches of actions is running their concatenation. */
  lemma {:induction false} RunAppend(st: Progress, a: seq<Action>, b: seq<Action>)
    ensures Run(st, a + b) == Run(Run(st, a), b)
    decreases |a|
  {
    if a == [] {
      assert a + b == b;
    } else {
      assert (a + b)[0] == a[0];
      assert (a + b)[1..] == a[1..] + b;
      RunAppend(Step(st, a[0]), a[1..], b);
    }
  }

  /** Once ended, further actions change nothing. */
  lemma {:induction false} RunEnded(st: Progress, acts: seq<Action>)
    requires st.1
    ensures Run(st, acts) == st
    decreases |acts|
  {
    if acts != [] {
      RunEnded(st, acts[1..]);
    }
  }

  /** Events after the terminating one change nothing. */
  lemma ReplayEnded(parts: seq<string>, more: seq<string>)
    requires Replay(parts).1
    ensures Replay(parts + more) == Replay(parts)
  {
    ActionsOfAppend(parts, more);
    RunAppend(Start, ActionsOf(parts), ActionsOf(more));
    RunEnded(Replay(parts), ActionsOf(more));
  }

  /** An emitted callback is a chunk and a terminating one is not. */
  predicate WellFormed(a: Action)
  {
    (a.Emit? ==> a.cb.OnChunk?) && (a.Stop? ==> !a.cb.OnChunk?)
  }

  lemma ActionsWellFormed(parts: seq<string>)
    ensures forall k :: 0 <= k < |parts| ==> WellFormed(ActionsOf(parts)[k])
  {
  }

  /** Only chunks come before the end, and the end is the last callback. */
  predicate Settled(st: Progress)
  {
    (forall k :: 0 <= k < |st.0| - 1 ==> st.0[k].OnChunk?)
    && (st.1 <==> |st.0| > 0 && !st.0[|st.0| - 1].OnChunk?)
  }

  lemma {:induction false} RunSettled(st: Progress, acts: seq<Action>)
    requires Settled(st) && forall k :: 0 <= k < |acts| ==> WellFormed(acts[k])
    ensures Settled(Run(st, acts))
    decreases |acts|
  {
    if acts != [] {
      assert WellFormed(acts[0]);
      var next := Step(st, acts[0]);
      assert Settled(next);
      assert forall k :: 0 <= k < |acts[1..]| ==> acts[1..][k] == acts[k + 1];
      RunSettled(next, acts[1..]);
    }
  }

  lemma ReplaySettled(parts: seq<string>)
    ensures Settled(Replay(parts))
  {
    ActionsWellFormed(parts);
    RunSettled(Start, ActionsOf(parts));
  }

  const Sep := "\n\n"

  /** Every piece splits cleanly at the separator. */
  predicate Clean(parts: seq<string>)
  {
    forall k :: 0 <= k < |parts| ==> SplitsCleanly(parts[k], Sep)
  }

  /** Cutting the complete events off the buffer and a new chunk keeps the
      pieces clean, leaves a buffer without a separator, and loses no text. */
  lemma CutEvents(before: seq<string>, buffer: string, chunk: string)
    requires Clean(before)
    ensures var ps := Split(buffer + chunk, Sep); var init := ps[..|ps| - 1];
            Clean(before + init) && !Contains(ps[|ps| - 1], Sep)
            && JoinTerminated(before, Sep) + buffer + chunk == JoinTerminated(before + init, Sep) + ps[|ps| - 1]
  {
    var text := buffer + chunk;
    var ps := Split(text, Sep);
    var init := ps[..|ps| - 1];
    SplitJoin(text, Sep);
    SplitPieces(text, Sep);
    assert Clean(init) by {
      forall k | 0 <= k < |init| ensures SplitsCleanly(init[k], Sep) {
        assert init[k] == ps[k];
      }
    }
    CleanAppend(before, init);
    JoinTerminatedAppend(before, init, Sep);
    AppendAssoc(JoinTerminated(before, Sep), buffer, chunk);
    AppendAssoc(JoinTerminated(before, Sep), JoinTerminated(init, Sep), ps[|ps| - 1]);
  }

  lemma CleanAppend(a: seq<string>, b: seq<string>)
    requires Clean(a) && Clean(b)
    ensures Clean(a + b)
  {
    forall k | 0 <= k < |a + b| ensures SplitsCleanly((a + b)[k], Sep) {
      if k >= |a| {
        assert (a + b)[k] == b[k - |a|];
      }
    }
  }

  /** The event stream reader of one prediction. `received` is all text
      read so far and `parts` the complete events cut from it. */
  class EventReader {
    var buffer: string
    var log: seq<Callback>
    var ended: bool
    ghost var received: string
    ghost var parts: seq<string>

    ghost predicate Valid()
      reads this
    {
      received == JoinTerminated(parts, Sep) + buffer
      && Clean(parts)
      && !Contains(buffer, Sep)
      && (log, ended) == Replay(parts)
    }

    constructor ()
      ensures Valid() && buffer == "" && log == [] && !ended && received == ""
    {
      buffer, log, ended := "", [], false;
      received, parts := "", [];
      assert !OccursAt("", Sep, 0);
    }

    /** The text read so far, split at every separator: the events and the
        incomplete last one. */
    lemma SplitOfReceived()
      requires Valid()
      ensures Split(received, Sep) == parts + [buffer]
    {
      SplitOfJoined(parts, buffer, Sep);
    }

    /** Handles complete events in order, returning as soon as one ends
        the stream. */
    method HandleEvents(events: seq<string>)
      requires !ended
      modifies this`log, this`ended
      ensures (log, ended) == Run(old((log, ended)), ActionsOf(events))
    {
      ghost var acts := ActionsOf(events);
      var i := 0;
      while i < |events|
        invariant 0 <= i <= |events| && !ended
        invariant Run(old((log, ended)), acts) == Run((log, ended), acts[i..])
      {
        var event, data := ParseEvent(events[i]);
        assert acts[i..][0] == acts[i] == Dispatch(event, data);
        assert acts[i..][1..] == acts[i + 1..];
        match Dispatch(event, data) {
          case Emit(cb) =>
            log := log + [cb];
          case Stop(cb) =>
            log := log + [cb];
            ended := true;
            RunEnded((log, ended), acts[i + 1..]);
            return;
          case Ignore =>
        }
        i := i + 1;
      }
      assert acts[i..] == [];
    }

    /** Appends a chunk to the buffer, cuts off the complete events and
        handles them. */
    method Feed(chunk: string)
      requires Valid() && !ended
      modifies this
      ensures Valid() && received == old(received) + chunk
      ensures var ps := Split(old(buffer) + chunk, Sep);
              buffer == ps[|ps| - 1] && parts == old(parts) + ps[..|ps| - 1]
    {
      ghost var before := parts;
      CutEvents(before, buffer, chunk);
      var ps := Split(buffer + chunk, Sep);
      received := received + chunk;
      buffer := ps[|ps| - 1];
      parts := before + ps[..|ps| - 1];
      HandleEvents(ps[..|ps| - 1]);
      ActionsOfAppend(before, ps[..|ps| - 1]);
      RunAppend(Start, ActionsOf(before), ActionsOf(ps[..|ps| - 1]));
    }

    /** The end of the body: a leftover that is not blank is handled if it is
        a `reasoning` or `content` event, and then the stream is done. */
    method Finish()
      modifies this`log, this`ended
      ensures log == old(log) + Leftover(buffer) + [OnDone] && ended
    {
      if Trim(buffer, JsSpace) != "" {
        var event, data := ParseEvent(buffer);
        if IsChunkEvent(event) {
          log := log + [OnChunk(event, Payload(data))];
        }
      }
      log := log + [OnDone];
      ended := true;
    }

    /** After the last chunk of a stream that has not ended: the read error,
        or the leftover and onDone. */
    method Conclude(readError: Option<JsError>) returns (cbs: seq<Callback>)
      requires !ended
      modifies this`log, this`ended
      ensures cbs == Finale((old(log), false), buffer, readError)
    {
      if readError.Some? {
        cbs := log + Caught(readError.value);
      } else {
        Finish();
        cbs := log;
      }
    }
  }

  /** The chunk, if any, that an unterminated last event gives at the end. */
  function Leftover(buffer: string): (r: seq<Callback>)
    ensures |r| <= 1 && forall k :: 0 <= k < |r| ==> r[k].OnChunk?
    ensures r != [] ==> Trim(buffer, JsSpace) != ""
  {
    if Trim(buffer, JsSpace) == "" then []
    else
      var lines := Split(buffer, "\n");
      if IsChunkEvent(LastEvent(lines)) then [OnChunk(LastEvent(lines), Payload(LastData(lines)))] else []
  }

  /** A JavaScript error: its name and its message. Cancelling the request
      makes the pending fetch or read fail with an error named "AbortError". */
  datatype JsError = JsError(name: string, message: string)

  const AbortError := "AbortError"

  /** The callbacks a rejected fetch or read makes: none for an abort, which
      is silent, otherwise onError with the message. */
  function Caught(e: JsError): (r: seq<Callback>)
    ensures e.name == AbortError ==> r == []
    ensures e.name != AbortError ==> r == [OnError(e.message)]
  {
    if e.name == AbortError then [] else [OnError(e.message)]
  }

  /** What the stream request came to: the fetch was rejected, the response
      is not ok, it has no readable body, or its body as decoded chunks,
      possibly ending in a failed read. */
  datatype Outcome =
    | Rejected(error: JsError)
    | NotOk(status: nat, text: string)
    | NoBody
    | Body(chunks: seq<string>, readError: Option<JsError>)

  const NoStreamMessage := "不支持流式响应"

  /** The callbacks of a whole stream, as a function of the text received:
      the events in it up to the first `error` or `done`; then, if none, a
      read error, or the leftover and `onDone`. */
  function StreamCallbacks(o: Outcome): seq<Callback>
  {
    match o
    case Rejected(e) => Caught(e)
    case NotOk(status, text) => [OnError(NonOkMessage(text, status))]
    case NoBody => [OnError(NoStreamMessage)]
    case Body(chunks, readError) => BodyCallbacks(Concat(chunks), readError)
  }

  function BodyCallbacks(text: string, readError: Option<JsError>): seq<Callback>
  {
    var ps := Split(text, Sep);
    Finale(Replay(ps[..|ps| - 1]), ps[|ps| - 1], readError)
  }

  /** After the complete events: nothing more once ended, else what the
      failed read calls back (nothing for an abort), or the leftover and
      onDone. */
  function Finale(st: Progress, buffer: string, readError: Option<JsError>): seq<Callback>
  {
    if st.1 then st.0
    else if readError.Some? then st.0 + Caught(readError.value)
    else st.0 + Leftover(buffer) + [OnDone]
  }

  /** A read cancelled by the page calls back what the events read so far
      call back; any other failed read adds onError with its message when
      no event had ended the stream. */
  lemma AbortSilent(text: string, name: string, m: string)
    requires name != AbortError
    ensures var ps := Split(text, Sep);
            var st := Replay(ps[..|ps| - 1]);
            BodyCallbacks(text, Some(JsError(AbortError, m))) == st.0
            && BodyCallbacks(text, Some(JsError(name, m))) == st.0 + (if st.1 then [] else [OnError(m)])
  {
  }

  /** The body's callbacks from its events and its unterminated rest. */
  lemma BodyOfSplit(text: string, parts: seq<string>, rest: string, readError: Option<JsError>)
    requires Split(text, Sep) == parts + [rest]
    ensures BodyCallbacks(text, readError) == Finale(Replay(parts), rest, readError)
  {
    var ps := Split(text, Sep);
    assert ps[..|ps| - 1] == parts && ps[|ps| - 1] == rest;
  }

  /** Every run calls back at most one of onDone and onError, as its last
      callback; a body read to its end always calls exactly one. */
  lemma OneTerminal(o: Outcome)
    ensures var cbs := StreamCallbacks(o);
            forall k :: 0 <= k < |cbs| - 1 ==> cbs[k].OnChunk?
    ensures o.Body? && o.readError.None? ==>
              var cbs := StreamCallbacks(o); |cbs| > 0 && !cbs[|cbs| - 1].OnChunk?
  {
    if o.Body? {
      var text := Concat(o.chunks);
      var ps := Split(text, Sep);
      BodyOfSplit(text, ps[..|ps| - 1], ps[|ps| - 1], o.readError);
      ReplaySettled(ps[..|ps| - 1]);
      FinaleTerminal(Replay(ps[..|ps| - 1]), ps[|ps| - 1], o.readError);
    }
  }

  lemma FinaleTerminal(st: Progress, rest: string, readError: Option<JsError>)
    requires Settled(st)
    ensures var cbs := Finale(st, rest, readError);
            (forall k :: 0 <= k < |cbs| - 1 ==> cbs[k].OnChunk?)
            && (readError.None? ==> |cbs| > 0 && !cbs[|cbs| - 1].OnChunk?)
  {
    if !st.1 {
      SettledOpen(st);
      if readError.Some? {
        AllChunksThenEnd(st.0, Caught(readError.value));
      } else {
        LeftoverThenDone(st.0, Leftover(rest));
      }
    }
  }

  /** A run that has not ended has called back only chunks. */
  lemma SettledOpen(st: Progress)
    requires Settled(st) && !st.1
    ensures forall k :: 0 <= k < |st.0| ==> st.0[k].OnChunk?
  {
    if |st.0| > 0 {
      assert st.0[|st.0| - 1].OnChunk?;
    }
  }

  lemma LeftoverThenDone(a: seq<Callback>, lo: seq<Callback>)
    requires forall k :: 0 <= k < |a| ==> a[k].OnChunk?
    requires forall k :: 0 <= k < |lo| ==> lo[k].OnChunk?
    ensures var cbs := a + lo + [OnDone];
            (forall k :: 0 <= k < |cbs| - 1 ==> cbs[k].OnChunk?) && cbs[|cbs| - 1] == OnDone
  {
    AllChunksThenEnd(a, lo + [OnDone]);
    AppendAssoc(a, lo, [OnDone]);
  }

  lemma AllChunksThenEnd(a: seq<Callback>, b: seq<Callback>)
    requires forall k :: 0 <= k < |a| ==> a[k].OnChunk?
    requires forall k :: 0 <= k < |b| - 1 ==> b[k].OnChunk?
    ensures forall k :: 0 <= k < |a + b| - 1 ==> (a + b)[k].OnChunk?
  {
    forall k | 0 <= k < |a + b| - 1 ensures (a + b)[k].OnChunk? {
      if k >= |a| {
        assert (a + b)[k] == b[k - |a|];
      }
    }
  }

  /** Splitting text that starts with cleanly split pieces gives those
      pieces first. */
  lemma {:induction false} SplitAfterPieces(parts: seq<string>, t: string)
    requires Clean(parts)
    ensures Split(JoinTerminated(parts, Sep) + t, Sep) == parts + Split(t, Sep)
    decreases |parts|
  {
    if parts == [] {
      assert JoinTerminated(parts, Sep) + t == t;
    } else {
      var p, tail := parts[0], parts[1..];
      CleanCons(parts);
      SplitAfterPieces(tail, t);
      SplitAfterPiece(p, tail, t);
    }
  }

  lemma CleanCons(parts: seq<string>)
    requires Clean(parts) && parts != []
    ensures SplitsCleanly(parts[0], Sep) && Clean(parts[1..]) && parts == [parts[0]] + parts[1..]
  {
    forall k | 0 <= k < |parts[1..]| ensures SplitsCleanly(parts[1..][k], Sep) {
      assert parts[1..][k] == parts[k + 1];
    }
  }

  /** One more clean piece in front. */
  lemma SplitAfterPiece(p: string, tail: seq<string>, t: string)
    requires SplitsCleanly(p, Sep)
    requires Split(JoinTerminated(tail, Sep) + t, Sep) == tail + Split(t, Sep)
    ensures Split(JoinTerminated([p] + tail, Sep) + t, Sep) == ([p] + tail) + Split(t, Sep)
  {
    var parts := [p] + tail;
    assert parts[0] == p && parts[1..] == tail;
    assert JoinTerminated(parts, Sep) == (p + Sep) + JoinTerminated(tail, Sep);
    AppendAssoc(p + Sep, JoinTerminated(tail, Sep), t);
    SplitPrepend(p, Sep, JoinTerminated(tail, Sep) + t);
    AppendAssoc([p], tail, Split(t, Sep));
  }

  /** Nothing read after the terminating event changes the callbacks. */
  lemma EndedStaysEnded(parts: seq<string>, t: string, readError: Option<JsError>)
    requires Clean(parts) && Replay(parts).1
    ensures BodyCallbacks(JoinTerminated(parts, Sep) + t, readError) == Replay(parts).0
  {
    var text := JoinTerminated(parts, Sep) + t;
    var more := Split(t, Sep);
    SplitAfterPieces(parts, t);
    var init, last := more[..|more| - 1], more[|more| - 1];
    SplitOffLast(parts, more);
    BodyOfSplit(text, parts + init, last, readError);
    ReplayEnded(parts, init);
  }

  lemma SplitOffLast(a: seq<string>, m: seq<string>)
    requires m != []
    ensures a + m == (a + m[..|m| - 1]) + [m[|m| - 1]]
  {
    assert m == m[..|m| - 1] + [m[|m| - 1]];
  }

  /** A stream that ended after `i` chunks: the chunks not read change
      nothing. */
  lemma EndedEarly(chunks: seq<string>, i: nat, parts: seq<string>, buffer: string, readError: Option<JsError>)
    requires i <= |chunks| && Clean(parts) && Replay(parts).1
    requires Concat(chunks[..i]) == JoinTerminated(parts, Sep) + buffer
    ensures BodyCallbacks(Concat(chunks), readError) == Replay(parts).0
  {
    ConcatSplitAt(chunks, i);
    AppendAssoc(JoinTerminated(parts, Sep), buffer, Concat(chunks[i..]));
    EndedStaysEnded(parts, buffer + Concat(chunks[i..]), readError);
  }

  lemma ConcatStep(chunks: seq<string>, i: nat)
    requires i < |chunks|
    ensures Concat(chunks[..i + 1]) == Concat(chunks[..i]) + chunks[i]
  {
    var a, b := chunks[..i], [chunks[i]];
    assert a + b == chunks[..i + 1];
    ConcatAppend(a, b);
  }

  lemma ConcatSplitAt(chunks: seq<string>, i: nat)
    requires i <= |chunks|
    ensures Concat(chunks) == Concat(chunks[..i]) + Concat(chunks[i..])
  {
    var a, b := chunks[..i], chunks[i..];
    assert a + b == chunks;
    ConcatAppend(a, b);
  }

  /** getPredictionStream once the request is answered: the code asked for
      and the callbacks made, which depend on the body's text and not on how
      it was cut into chunks. */
  method GetPredictionStream(code: string, o: Outcome) returns (requested: string, cbs: seq<Callback>)
    ensures requested == NormalizeCode(code)
    ensures cbs == StreamCallbacks(o)
  {
    requested := NormalizeCode(code);
    match o
    case Rejected(e) =>
      cbs := Caught(e);
    case NotOk(status, text) =>
      cbs := [OnError(NonOkMessage(text, status))];
    case NoBody =>
      cbs := [OnError(NoStreamMessage)];
    case Body(chunks, readError) =>
      cbs := ReadBody(chunks, readError);
  }

  /** The read loop over the body's chunks. */
  method ReadBody(chunks: seq<string>, readError: Option<JsError>) returns (cbs: seq<Callback>)
    ensures cbs == BodyCallbacks(Concat(chunks), readError)
  {
    var reader := new EventReader();
    var i := 0;
    while i < |chunks| && !reader.ended
      invariant 0 <= i <= |chunks|
      invariant reader.Valid() && reader.received == Concat(chunks[..i])
      decreases |chunks| - i
    {
      reader.Feed(chunks[i]);
      ConcatStep(chunks, i);
      i := i + 1;
    }
    if reader.ended {
      EndedEarly(chunks, i, reader.parts, reader.buffer, readError);
      cbs := reader.log;
    } else {
      assert chunks[..i] == chunks;
      reader.SplitOfReceived();
      BodyOfSplit(Concat(chunks), reader.parts, reader.buffer, readError);
      cbs := reader.Conclude(readError);
    }
  }
}
