/** The gateway's quote endpoints and its copy of the stock-code rule. */
module GatewayHandlers {
  import opened Wrappers
  import opened Text
  import opened CodeNormal
  import opened StockTypes

  /** The gateway's code rule: lower-case, trim, then pad (lengths in bytes). */
  function NormalizeHkCode(code: string): (r: string)
    ensures HasHkPrefix(r)
    ensures var c := Trim(Lower(code), GoSpace);
            (HasHkPrefix(c) && Len(c, Utf8Bytes) == 7 ==> r == c)
            && (HasHkPrefix(c) && Len(c, Utf8Bytes) == 6 ==> r == "hk0" + c[2..])
            && (HasHkPrefix(c) && Len(c, Utf8Bytes) != 6 ==> r == c)
            && (!HasHkPrefix(c) && Len(c, Utf8Bytes) <= 5 ==>
                  r == "hk" + Repeat('0', 5 - Len(c, Utf8Bytes)) + c && Canonical(r, Utf8Bytes))
            && (!HasHkPrefix(c) && Len(c, Utf8Bytes) > 5 ==> r == "hk" + c)
  {
    Pad(Trim(Lower(code), GoSpace), Utf8Bytes)
  }

  lemma LowerTwice(s: string)
    ensures Lower(Lower(s)) == Lower(s)
  {
  }

  /** A trimmed, lower-case string is left alone by lower-casing and trimming. */
  lemma CleanFixed(s: string)
    requires Trimmed(s, GoSpace) && Lower(s) == s
    ensures Trim(Lower(s), GoSpace) == s
  {
    TrimShape(s, GoSpace);
  }

  /** Normalising twice is normalising once. */
  lemma NormalizeIdempotent(code: string)
    ensures NormalizeHkCode(NormalizeHkCode(code)) == NormalizeHkCode(code)
  {
    var c := Trim(Lower(code), GoSpace);
    TrimShape(Lower(code), GoSpace);
    LowerTrim(Lower(code), GoSpace);
    LowerTwice(code);
    assert Lower(c) == c;
    PadKeepsClean(c, Utf8Bytes);
    CleanFixed(Pad(c, Utf8Bytes));
    PadIdempotent(c, Utf8Bytes);
  }

  /** The gateway's replies: a plain-text status, or a JSON body. */
  datatype RealtimeReply =
    | RealtimeText(status: int, text: string)
    | RealtimeJson(stock: StockInfo)

  /** GET /api/stocks/:code/realtime. `lookup` is the stock service's
      GetRealtime: an error, no stock, or the stock. Returns the reply and the
      code looked up, if any. */
  function GetRealtime(pathCode: string, lookup: string -> Result<Option<StockInfo>, string>)
    : (r: (RealtimeReply, Option<string>))
    ensures r.0 == RealtimeText(400, "missing code") <==> Trim(pathCode, GoSpace) == ""
    ensures r.1.None? <==> Trim(pathCode, GoSpace) == ""
    ensures r.1.Some? ==> r.1.value == NormalizeHkCode(Trim(pathCode, GoSpace))
    ensures r.1.Some? ==>
              match lookup(r.1.value)
              case Err(e) => r.0 == RealtimeText(500, e)
              case Ok(None) => r.0 == RealtimeText(404, "stock not found")
              case Ok(Some(s)) => r.0 == RealtimeJson(s)
  {
    var code := Trim(pathCode, GoSpace);
    if code == "" then (RealtimeText(400, "missing code"), None)
    else
      var c := NormalizeHkCode(code);
      match lookup(c)
      case Err(e) => (RealtimeText(500, e), Some(c))
      case Ok(None) => (RealtimeText(404, "stock not found"), Some(c))
      case Ok(Some(s)) => (RealtimeJson(s), Some(c))
  }

  /** The code the gateway asks the stock service for is already canonical:
      the service's own normalising leaves it unchanged. */
  lemma RequestedCodeStable(pathCode: string, lookup: string -> Result<Option<StockInfo>, string>)
    ensures var c := GetRealtime(pathCode, lookup).1;
            c.Some? ==> NormalizeHkCode(c.value) == c.value
  {
    var code := Trim(pathCode, GoSpace);
    if code != "" {
      NormalizeIdempotent(code);
    }
  }

  datatype SummaryReply =
    | SummaryText(status: int, text: string)
    | SummaryJson(indices: seq<MarketIndex>)

  /** GET /api/market/summary: the stock service's indices, field by field and
      in order, or its error as a 500. */
  method GetMarketSummary(reply: Result<seq<MarketIndex>, string>) returns (r: SummaryReply)
    ensures reply.Err? ==> r == SummaryText(500, reply.error)
    ensures reply.Ok? ==> r == SummaryJson(reply.value)
  {
    if reply.Err? {
      return SummaryText(500, reply.error);
    }
    var indices: seq<MarketIndex> := [];
    var i := 0;
    while i < |reply.value|
      invariant 0 <= i <= |reply.value| && indices == reply.value[..i]
    {
      var idx := reply.value[i];
      indices := indices + [MarketIndex(idx.name, idx.value, idx.change, idx.changePercent)];
      i := i + 1;
    }
    assert reply.value[..i] == reply.value;
    r := SummaryJson(indices);
  }
}
