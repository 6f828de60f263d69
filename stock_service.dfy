/** The stock service: a real-time quote through Eastmoney, and the market
    summary of the Hang Seng Index (Eastmoney first, Sina as a fallback) and
    the Hang Seng TECH Index. */
module StockService {
  import opened Wrappers
  import opened StockTypes
  import SinaHk
  import EastmoneyHk

  /** GetRealtime: a missing request or an empty code gives an empty response
      and no error; otherwise the Eastmoney quote, whose error is passed on.
      `code` is None for a nil request. */
  function GetRealtime(code: Option<string>, fetch: string -> EastmoneyHk.Push2Reply<EastmoneyHk.Push2Data>)
    : (r: Result<Option<StockInfo>, string>)
    ensures code.None? || code.value == "" ==> r == Ok(None)
    ensures code.Some? && code.value != "" ==>
              match EastmoneyHk.StockQuote(code.value, fetch)
              case Ok(s) => r == Ok(Some(s))
              case Err(e) => r == Err(e)
  {
    if code.None? || code.value == "" then Ok(None)
    else
      match EastmoneyHk.StockQuote(code.value, fetch)
      case Ok(s) => Ok(Some(s))
      case Err(e) => Err(e)
  }

  /** A non-empty code never yields the empty response: either a stock or an
      error. */
  lemma RealtimeNeverEmpty(code: string, fetch: string -> EastmoneyHk.Push2Reply<EastmoneyHk.Push2Data>)
    requires code != ""
    ensures var r := GetRealtime(Some(code), fetch);
            r.Err? || (r.value.Some? && r.value.value.code == EastmoneyHk.NormalizeHkCode(code))
  {
  }

  /** The index sources. Eastmoney answers for a security id, Sina with the
      raw text of a list query or a request error. */
  datatype Sources = Sources(
    eastmoney: string -> EastmoneyHk.Push2Reply<EastmoneyHk.IndexData>,
    sina: string -> Result<string, string>,
    num: SinaHk.Parsers)

  const HsiSecId := "100.HSI"
  const HsiSinaList := "int_hangseng"
  const HstechSecId := "124.HSTECH"
  const NoIndices := "failed to fetch any HK market indices"

  /** The Sina index query: a request error, or the index in the reply. Sina
      has no change amount, so the fallback index carries change 0. */
  function SinaIndex(src: Sources): (r: Result<MarketIndex, string>)
    ensures r.Ok? ==> r.value.change == 0.0
  {
    match src.sina(HsiSinaList)
    case Err(e) => Err(e)
    case Ok(content) =>
      match SinaHk.IndexQuote(content, src.num)
      case Err(e) => Err(e)
      case Ok((name, value, pct)) => Ok(MarketIndex(name, value, 0.0, pct))
  }

  /** The Hang Seng Index: Eastmoney's, or Sina's when Eastmoney fails. */
  function Hsi(src: Sources): (r: Result<MarketIndex, string>)
    ensures EastmoneyHk.IndexFromPush2(src.eastmoney(HsiSecId)).Ok? ==> r == EastmoneyHk.IndexFromPush2(src.eastmoney(HsiSecId))
    ensures EastmoneyHk.IndexFromPush2(src.eastmoney(HsiSecId)).Err? ==> r == SinaIndex(src)
  {
    var east := EastmoneyHk.IndexFromPush2(src.eastmoney(HsiSecId));
    if east.Ok? then east else SinaIndex(src)
  }

  function Hstech(src: Sources): Result<MarketIndex, string>
  {
    EastmoneyHk.IndexFromPush2(src.eastmoney(HstechSecId))
  }

  /** The indices obtained, Hang Seng first. */
  function Obtained(src: Sources): (r: seq<MarketIndex>)
    ensures |r| <= 2
    ensures Hsi(src).Ok? ==> |r| >= 1 && r[0] == Hsi(src).value
    ensures Hstech(src).Ok? ==> |r| >= 1 && r[|r| - 1] == Hstech(src).value
    ensures |r| == (if Hsi(src).Ok? then 1 else 0) + (if Hstech(src).Ok? then 1 else 0)
  {
    (if Hsi(src).Ok? then [Hsi(src).value] else []) + (if Hstech(src).Ok? then [Hstech(src).value] else [])
  }

  /** The market summary: the indices obtained, or an error when there are
      none. */
  function MarketSummary(src: Sources): (r: Result<seq<MarketIndex>, string>)
    ensures r.Err? <==> Hsi(src).Err? && Hstech(src).Err?
    ensures r.Err? ==> r.error == NoIndices
    ensures r.Ok? ==> r.value == Obtained(src) && 1 <= |r.value| <= 2
  {
    var got := Obtained(src);
    if got == [] then Err(NoIndices) else Ok(got)
  }

  /** The Hang Seng TECH query has no effect on the Hang Seng Index, and
      when it fails the summary is the Hang Seng Index alone. */
  lemma HstechIndependent(src: Sources, other: string -> EastmoneyHk.Push2Reply<EastmoneyHk.IndexData>)
    requires forall id :: id != HstechSecId ==> other(id) == src.eastmoney(id)
    ensures Hsi(src.(eastmoney := other)) == Hsi(src)
    ensures Hstech(src).Err? ==>
              (MarketSummary(src).Ok? <==> Hsi(src).Ok?)
              && (Hsi(src).Ok? ==> MarketSummary(src).value == [Hsi(src).value])
  {
    var alt := src.(eastmoney := other);
    assert HsiSecId != HstechSecId;
    assert alt.eastmoney(HsiSecId) == src.eastmoney(HsiSecId);
    assert SinaIndex(alt) == SinaIndex(src);
  }

  /** GetMarketSummary: asks Eastmoney for the Hang Seng Index, Sina when
      that fails, then Eastmoney for the Hang Seng TECH Index, appending each
      index obtained. `asked` lists the queries made, in order. */
  method GetMarketSummary(src: Sources) returns (r: Result<seq<MarketIndex>, string>, asked: seq<string>)
    ensures r == MarketSummary(src)
    ensures asked == [HsiSecId] + (if EastmoneyHk.IndexFromPush2(src.eastmoney(HsiSecId)).Err? then [HsiSinaList] else [])
                     + [HstechSecId]
  {
    var indices: seq<MarketIndex> := [];
    var hsi;
    hsi, asked := QueryHsi(src);
    if hsi.Ok? {
      indices := indices + [MarketIndex(hsi.value.name, hsi.value.value, hsi.value.change, hsi.value.changePercent)];
    }
    assert indices == (if Hsi(src).Ok? then [Hsi(src).value] else []);
    asked := asked + [HstechSecId];
    var tech := EastmoneyHk.IndexFromPush2(src.eastmoney(HstechSecId));
    assert tech == Hstech(src);
    if tech.Ok? {
      indices := indices + [MarketIndex(tech.value.name, tech.value.value, tech.value.change, tech.value.changePercent)];
    }
    assert indices == Obtained(src);
    if |indices| == 0 {
      return Err(NoIndices), asked;
    }
    r := Ok(indices);
  }

  /** The Hang Seng Index query: Eastmoney, then Sina when Eastmoney fails. */
  method QueryHsi(src: Sources) returns (hsi: Result<MarketIndex, string>, asked: seq<string>)
    ensures hsi == Hsi(src)
    ensures asked == [HsiSecId] + (if EastmoneyHk.IndexFromPush2(src.eastmoney(HsiSecId)).Err? then [HsiSinaList] else [])
  {
    asked := [HsiSecId];
    hsi := EastmoneyHk.IndexFromPush2(src.eastmoney(HsiSecId));
    if hsi.Err? {
      asked := asked + [HsiSinaList];
      hsi := SinaIndex(src);
    }
  }
}
