/** The Eastmoney push2 quote provider: its copy of the stock-code rule, the
    security id it asks for, and the conversion of the integer-scaled fields
    of a decoded reply into a stock or an index. */
module EastmoneyHk {
  import opened Wrappers
  import opened Text
  import opened CodeNormal
  import opened StockTypes
  import SinaHk

  /** Eastmoney's code rule: lower-case, trim, then pad (lengths in bytes). */
  function NormalizeHkCode(code: string): (r: string)
    ensures HasHkPrefix(r)
    ensures var c := Trim(Lower(code), GoSpace);
            |r| >= |c| && (!HasHkPrefix(c) ==> r[|r| - |c|..] == c)
            && (!HasHkPrefix(c) && Len(c, Utf8Bytes) <= 5 ==> Canonical(r, Utf8Bytes))
  {
    Pad(Trim(Lower(code), GoSpace), Utf8Bytes)
  }

  /** The Eastmoney copy of the rule is the same function as the Sina copy. */
  lemma SameAsSina(code: string)
    ensures NormalizeHkCode(code) == SinaHk.NormalizeHkCode(code)
  {
    LowerTrim(code, GoSpace);
  }

  /** The market prefix of a Hong Kong security id. */
  const HkMarket := "116."

  /** The push2 security id of a code: "116." and the code without its "hk"
      when the code is "hk" and at least five more bytes, else "116." and the
      whole code. */
  function SecId(hkCode: string): (r: string)
    ensures |r| >= 4 && r[..4] == HkMarket
    ensures r[4..] == hkCode || (HasHkPrefix(hkCode) && r[4..] == hkCode[2..])
  {
    if HasHkPrefix(hkCode) && Len(hkCode, Utf8Bytes) >= 7 then HkMarket + hkCode[2..]
    else HkMarket + hkCode
  }

  /** A short all-digit code asks for "116." and five digits denoting the same
      stock number. */
  lemma SecIdOfShortCode(code: string)
    requires AllDigits(code) && 1 <= |code| <= 5
    ensures var s := SecId(NormalizeHkCode(code));
            |s| == 9 && s[..4] == HkMarket && AllDigits(s[4..]) && DigitsValue(s[4..]) == DigitsValue(code)
  {
    var n := NormalizeHkCode(code);
    NormalizeShort(code);
    PadKeepsNumber(code, Utf8Bytes);
    SecIdOfSeven(n);
    assert SecId(n)[4..] == n[2..];
  }

  /** A short digit string is padded with zeros to five digits. */
  lemma NormalizeShort(code: string)
    requires AllDigits(code) && 1 <= |code| <= 5
    ensures Len(code, Utf8Bytes) == |code|
    ensures NormalizeHkCode(code) == Pad(code, Utf8Bytes) == "hk" + Repeat('0', 5 - |code|) + code
  {
    DigitsClean(code);
    LenAscii(code, Utf8Bytes);
  }

  /** A string of digits is its own lower-cased, trimmed form. */
  lemma DigitsClean(code: string)
    requires AllDigits(code) && |code| >= 1
    ensures Trim(Lower(code), GoSpace) == code && IsAscii(code) && !HasHkPrefix(code)
  {
    assert Lower(code) == code;
    assert IsDigit(code[0]) && IsDigit(code[|code| - 1]);
    TrimLeftNoop(code, GoSpace);
    TrimRightNoop(code, GoSpace);
  }

  /** A seven-character "hk" code loses just its "hk". */
  lemma SecIdOfSeven(n: string)
    requires |n| == 7 && HasHkPrefix(n)
    ensures SecId(n) == HkMarket + n[2..] && |SecId(n)| == 9
  {
    assert Len(n, Utf8Bytes) >= |n|;
  }

  /** The fields of a push2 stock reply that the service reads: price, volume,
      code, name and previous close; prices are integers scaled by 1000. */
  datatype Push2Data = Push2Data(f43: int, f47: int, f57: string, f58: string, f60: int)

  /** A push2 reply: the request or body read failed, the body is not JSON,
      or the decoded `data` member, which may be null. */
  datatype Push2Reply<T> =
    | FetchFailed(err: string)
    | Malformed(reason: string)
    | Decoded(data: Option<T>)

  /** An integer scaled by `scale` as the number it stands for. */
  function Unscale(x: int, scale: nat): (r: real)
    requires scale > 0
    ensures r * scale as real == x as real
  {
    x as real / scale as real
  }

  /** The change in percent from the previous close, 0 when there is none. */
  function ChangePercent(price: real, prevClose: real): (r: real)
    ensures prevClose > 0.0 ==> prevClose + prevClose * r / 100.0 == price
    ensures prevClose <= 0.0 ==> r == 0.0
  {
    if prevClose > 0.0 then (price - prevClose) / prevClose * 100.0 else 0.0
  }

  /** The percent is positive exactly when the price rose, negative exactly
      when it fell. */
  lemma ChangeSign(price: real, prevClose: real)
    requires prevClose > 0.0
    ensures ChangePercent(price, prevClose) > 0.0 <==> price > prevClose
    ensures ChangePercent(price, prevClose) < 0.0 <==> price < prevClose
  {
    var r := ChangePercent(price, prevClose);
    assert prevClose * r / 100.0 == price - prevClose;
    if r > 0.0 {
      assert prevClose * r > 0.0;
    } else if r < 0.0 {
      assert prevClose * r < 0.0;
    }
  }

  function InvalidCode(code: string): string
  {
    "invalid code or no data: " + code
  }

  /** The stock in a decoded reply for an already normalised code. */
  function StockFromPush2(code: string, reply: Push2Reply<Push2Data>): (r: Result<StockInfo, string>)
    ensures reply.FetchFailed? ==> r == Err(reply.err)
    ensures reply.Malformed? ==> r == Err("parse response: " + reply.reason)
    ensures reply.Decoded? ==>
              (r.Err? <==> reply.data.None? || (reply.data.value.f57 == "" && reply.data.value.f58 == ""))
    ensures reply.Decoded? && r.Err? ==> r.error == InvalidCode(code)
    ensures r.Ok? ==> var d := reply.data.value;
                      r.value.code == code && r.value.currentPrice * 1000.0 == d.f43 as real
                      && r.value.volume == d.f47 && r.value.timestamp == ""
                      && r.value.name == (if d.f58 == "" then code else d.f58)
                      && r.value.changePercent == ChangePercent(r.value.currentPrice, Unscale(d.f60, 1000))
  {
    match reply
    case FetchFailed(e) => Err(e)
    case Malformed(e) => Err("parse response: " + e)
    case Decoded(None) => Err(InvalidCode(code))
    case Decoded(Some(d)) =>
      if d.f57 == "" && d.f58 == "" then Err(InvalidCode(code))
      else
        var price := Unscale(d.f43, 1000);
        var prev := Unscale(d.f60, 1000);
        Ok(StockInfo(code, if d.f58 == "" then code else d.f58, price, ChangePercent(price, prev), d.f47, ""))
  }

  /** GetStockInfo once the reply is in: `fetch` answers for a security id. */
  function StockQuote(code: string, fetch: string -> Push2Reply<Push2Data>): (r: Result<StockInfo, string>)
    ensures r.Ok? ==> r.value.code == NormalizeHkCode(code) && HasHkPrefix(r.value.code)
    ensures r == StockFromPush2(NormalizeHkCode(code), fetch(SecId(NormalizeHkCode(code))))
  {
    var c := NormalizeHkCode(code);
    StockFromPush2(c, fetch(SecId(c)))
  }

  /** The fields of a push2 index reply: value, name, change and change
      percent, each scaled by 100. */
  datatype IndexData = IndexData(f43: int, f58: string, f60: int, f169: int, f170: int)

  const HangSengName := "恒生指数"

  /** The index in a decoded reply; a body that is not JSON and a null `data`
      give the same error. */
  function IndexFromPush2(reply: Push2Reply<IndexData>): (r: Result<MarketIndex, string>)
    ensures r.Err? <==> !reply.Decoded? || reply.data.None?
    ensures reply.FetchFailed? ==> r == Err(reply.err)
    ensures reply.Malformed? || reply == Decoded(None) ==> r == Err("invalid index response")
    ensures r.Ok? ==> var d := reply.data.value;
                      r.value.value * 100.0 == d.f43 as real && r.value.change * 100.0 == d.f169 as real
                      && r.value.changePercent * 100.0 == d.f170 as real
                      && r.value.name == (if d.f58 == "" then HangSengName else d.f58) && r.value.name != ""
  {
    match reply
    case FetchFailed(e) => Err(e)
    case Malformed(_) => Err("invalid index response")
    case Decoded(None) => Err("invalid index response")
    case Decoded(Some(d)) =>
      Ok(MarketIndex(if d.f58 == "" then HangSengName else d.f58,
                     Unscale(d.f43, 100), Unscale(d.f169, 100), Unscale(d.f170, 100)))
  }
}
