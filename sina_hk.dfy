/** The Sina quote provider: its copy of the stock-code rule and the parsing
    of its `var hq_str_X="f0,f1,...";` replies into a stock or an index. */
module SinaHk {
  import opened Wrappers
  import opened Text
  import opened CodeNormal
  import opened StockTypes
  import GatewayHandlers

  /** Sina's code rule: trim, lower-case, then pad (lengths in bytes). */
  function NormalizeHkCode(code: string): (r: string)
    ensures HasHkPrefix(r)
    ensures var c := Lower(Trim(code, GoSpace));
            (HasHkPrefix(c) && Len(c, Utf8Bytes) == 7 ==> r == c)
            && (HasHkPrefix(c) && Len(c, Utf8Bytes) == 6 ==> r == "hk0" + c[2..])
            && (HasHkPrefix(c) && Len(c, Utf8Bytes) != 6 ==> r == c)
            && (!HasHkPrefix(c) && Len(c, Utf8Bytes) <= 5 ==>
                  r == "hk" + Repeat('0', 5 - Len(c, Utf8Bytes)) + c && Canonical(r, Utf8Bytes))
            && (!HasHkPrefix(c) && Len(c, Utf8Bytes) > 5 ==> r == "hk" + c)
  {
    Pad(Lower(Trim(code, GoSpace)), Utf8Bytes)
  }

  /** Trimming before or after lower-casing makes no difference: Sina's rule
      and the gateway's are the same function. */
  lemma SameAsGateway(code: string)
    ensures NormalizeHkCode(code) == GatewayHandlers.NormalizeHkCode(code)
  {
    LowerTrim(code, GoSpace);
  }

  /** The text that opens the quoted payload. */
  const Opening := "=\""

  lemma OpeningGivesTwoParts(content: string)
    requires Contains(content, Opening)
    ensures |Split(content, Opening)| >= 2
  {
    SplitStep(content, Opening, IndexOf(content, Opening).value);
  }

  /** The quoted payload: the text after the first `="` up to the next `="`,
      without a closing `";` and then without a closing `"`. None when the
      reply has no `="`. */
  function Payload(content: string): (r: Option<string>)
    ensures r.None? <==> !Contains(content, Opening)
  {
    if !Contains(content, Opening) then None
    else
      var parts := Split(content, Opening);
      OpeningGivesTwoParts(content);
      Some(TrimSuffix(TrimSuffix(parts[1], "\";"), "\""))
  }

  /** A reply of the `var hq_str_X="...";` shape gives back its payload. */
  lemma PayloadOfReply(prefix: string, p: string)
    requires SplitsCleanly(prefix, Opening) && !Contains(p + "\";", Opening)
    requires p == "" || p[|p| - 1] != '"'
    ensures Payload(prefix + Opening + p + "\";") == Some(p)
  {
    var content := prefix + Opening + p + "\";";
    var rest := p + "\";";
    assert content == (prefix + Opening) + rest;
    SplitPrepend(prefix, Opening, rest);
    assert Split(content, Opening) == [prefix, rest];
    assert Contains(content, Opening) by {
      assert content[|prefix|..|prefix| + 2] == Opening;
      ContainsWitness(content, Opening, |prefix|);
    }
    assert rest[|rest| - 2..] == "\";";
    assert TrimSuffix(rest, "\";") == p;
  }

  /** The fields of a payload: split on commas, each trimmed. */
  function Fields(payload: string): (fs: seq<string>)
    ensures |fs| == |Split(payload, ",")|
    ensures forall k :: 0 <= k < |fs| ==> fs[k] == Trim(Split(payload, ",")[k], GoSpace)
  {
    var parts := Split(payload, ",");
    seq(|parts|, k requires 0 <= k < |parts| => Trim(parts[k], GoSpace))
  }

  /** Trims every field in place. */
  method TrimFields(fields: array<string>)
    modifies fields
    ensures forall k :: 0 <= k < fields.Length ==> fields[k] == Trim(old(fields[k]), GoSpace)
  {
    var i := 0;
    while i < fields.Length
      invariant 0 <= i <= fields.Length
      invariant forall k :: 0 <= k < i ==> fields[k] == Trim(old(fields[k]), GoSpace)
      invariant forall k :: i <= k < fields.Length ==> fields[k] == old(fields[k])
    {
      fields[i] := Trim(fields[i], GoSpace);
      i := i + 1;
    }
  }

  /** Splits a payload on commas into a fresh slice and trims it in place. */
  method ReadFields(payload: string) returns (fields: seq<string>)
    ensures fields == Fields(payload)
  {
    var pieces := Split(payload, ",");
    var a := new string[|pieces|](k requires 0 <= k < |pieces| => pieces[k]);
    TrimFields(a);
    fields := a[..];
  }

  /** The number parsers (strconv.ParseFloat and ParseInt with their errors
      ignored): a value for every field text. */
  datatype Parsers = Parsers(float: string -> real, integer: string -> int)

  function FieldCountError(n: nat): string
  {
    "unexpected data format: " + Decimal(n) + " fields"
  }

  /** The stock in a row of quote fields: 1 = Chinese name, 0 = English name,
      6 = price, 8 = change percent, 12 = volume, 16 and 17 = date and time.
      Fewer than 9 fields is an error; a row without field 12 has volume 0 and
      one without field 17 has no timestamp. */
  function StockFromFields(code: string, fields: seq<string>, num: Parsers): (r: Result<StockInfo, string>)
    ensures r.Err? <==> |fields| < 9
    ensures r.Err? ==> r.error == FieldCountError(|fields|)
    ensures r.Ok? ==>
              r.value.code == code && r.value.currentPrice == num.float(fields[6])
              && r.value.changePercent == num.float(fields[8])
    ensures r.Ok? ==>
              (fields[1] != "" ==> r.value.name == fields[1]) && (fields[1] == "" ==> r.value.name == fields[0])
    ensures r.Ok? ==> r.value.volume == if |fields| > 12 then num.integer(fields[12]) else 0
    ensures r.Ok? ==> r.value.timestamp == if |fields| > 17 then fields[16] + " " + fields[17] else ""
  {
    if |fields| < 9 then Err(FieldCountError(|fields|))
    else
      var name := if fields[1] == "" then fields[0] else fields[1];
      var volume := if |fields| <= 12 then 0 else num.integer(fields[12]);
      var timestamp := if |fields| > 17 then fields[16] + " " + fields[17] else "";
      Ok(StockInfo(code, name, num.float(fields[6]), num.float(fields[8]), volume, timestamp))
  }

  /** What the stock parse does as written: field 12 is read before the row's
      length is checked, so a row of 9 to 12 fields faults. */
  datatype Parse = Parsed(info: StockInfo) | Failed(err: string) | IndexOutOfRange(index: nat, length: nat)

  function StockFromFieldsAsWritten(code: string, fields: seq<string>, num: Parsers): (r: Parse)
    ensures r.IndexOutOfRange? <==> 9 <= |fields| <= 12
  {
    if |fields| < 9 then Failed(FieldCountError(|fields|))
    else if |fields| <= 12 then IndexOutOfRange(12, |fields|)
    else
      var name := if fields[1] == "" then fields[0] else fields[1];
      var volume := num.integer(fields[12]);
      var timestamp := if |fields| > 17 then fields[16] + " " + fields[17] else "";
      Parsed(StockInfo(code, name, num.float(fields[6]), num.float(fields[8]), volume, timestamp))
  }

  /** A nine-field row: as written the parse faults, while the length check
      that follows the read shows that volume 0 was meant. */
  lemma ShortRowFaults(code: string, num: Parsers)
    ensures var row := ["Tencent", "腾讯控股", "350.0", "348.0", "352.0", "347.0", "350.2", "2.2", "0.63"];
            StockFromFieldsAsWritten(code, row, num) == IndexOutOfRange(12, 9)
            && StockFromFields(code, row, num).Ok? && StockFromFields(code, row, num).value.volume == 0
  {
  }

  /** Outside the 9 to 12 field rows the parse as written and the corrected
      one agree. */
  lemma AsWrittenAgreesElsewhere(code: string, fields: seq<string>, num: Parsers)
    requires |fields| < 9 || |fields| > 12
    ensures var w := StockFromFieldsAsWritten(code, fields, num);
            var r := StockFromFields(code, fields, num);
            (w.Parsed? <==> r.Ok?) && (w.Parsed? ==> w.info == r.value) && (w.Failed? ==> w.err == r.error)
  {
  }

  /** The stock in a reply, for the code asked. */
  function StockQuote(code: string, content: string, num: Parsers): (r: Result<StockInfo, string>)
    ensures !Contains(content, Opening) ==> r == Err("invalid stock code or empty response: " + NormalizeHkCode(code))
    ensures r.Ok? ==> r.value.code == NormalizeHkCode(code) && Payload(content).Some? && Payload(content).value != ""
  {
    var c := NormalizeHkCode(code);
    match Payload(content)
    case None => Err("invalid stock code or empty response: " + c)
    case Some(p) => if p == "" then Err("empty data") else StockFromFields(c, Fields(p), num)
  }

  /** GetStockInfo once the reply is in: normalise the code, cut out the
      payload, split it, trim the fields in place and read the stock. */
  method GetStockInfo(code: string, content: string, num: Parsers) returns (r: Result<StockInfo, string>)
    ensures r == StockQuote(code, content, num)
  {
    var c := NormalizeHkCode(code);
    if !Contains(content, Opening) {
      return Err("invalid stock code or empty response: " + c);
    }
    var parts := Split(content, Opening);
    OpeningGivesTwoParts(content);
    var data := TrimSuffix(parts[1], "\";");
    data := TrimSuffix(data, "\"");
    if data == "" {
      return Err("empty data");
    }
    var fields := ReadFields(data);
    r := StockFromFields(c, fields, num);
  }

  /** A reply built from a row of trimmed, comma-free fields reads back that
      row. */
  lemma QuoteOfRow(code: string, prefix: string, row: seq<string>, num: Parsers)
    requires SplitsCleanly(prefix, Opening)
    requires |row| > 0 && forall k :: 0 <= k < |row| ==> ',' !in row[k] && Trimmed(row[k], GoSpace)
    requires var p := Join(row, ","); p != "" && p[|p| - 1] != '"' && !Contains(p + "\";", Opening)
    ensures StockQuote(code, prefix + Opening + Join(row, ",") + "\";", num)
            == StockFromFields(NormalizeHkCode(code), row, num)
  {
    var p := Join(row, ",");
    PayloadOfReply(prefix, p);
    FieldsOfRow(row);
  }

  lemma FieldsOfRow(row: seq<string>)
    requires |row| > 0 && forall k :: 0 <= k < |row| ==> ',' !in row[k] && Trimmed(row[k], GoSpace)
    ensures Fields(Join(row, ",")) == row
  {
    SplitOfJoin(row, ',');
    forall k | 0 <= k < |row| ensures Trim(row[k], GoSpace) == row[k] {
      TrimShape(row[k], GoSpace);
    }
  }

  /** The index in a reply: its name, value and change percent from the first
      three fields. */
  function IndexQuote(content: string, num: Parsers): (r: Result<(string, real, real), string>)
    ensures !Contains(content, Opening) ==> r == Err("invalid response")
    ensures Contains(content, Opening) ==>
              var fs := Fields(Payload(content).value);
              (|fs| >= 3 ==> r == Ok((fs[0], num.float(fs[1]), num.float(fs[2]))))
              && (|fs| < 3 ==> r == Err("not enough fields"))
  {
    match Payload(content)
    case None => Err("invalid response")
    case Some(p) =>
      var fs := Fields(p);
      if |fs| < 3 then Err("not enough fields") else Ok((fs[0], num.float(fs[1]), num.float(fs[2])))
  }

  /** A reply built from a row of at least three trimmed, comma-free fields
      gives the index named by the first, with the next two parsed. */
  lemma IndexOfRow(prefix: string, row: seq<string>, num: Parsers)
    requires SplitsCleanly(prefix, Opening)
    requires |row| >= 3 && forall k :: 0 <= k < |row| ==> ',' !in row[k] && Trimmed(row[k], GoSpace)
    requires var p := Join(row, ","); p != "" && p[|p| - 1] != '"' && !Contains(p + "\";", Opening)
    ensures IndexQuote(prefix + Opening + Join(row, ",") + "\";", num) == Ok((row[0], num.float(row[1]), num.float(row[2])))
  {
    var p := Join(row, ",");
    PayloadOfReply(prefix, p);
    FieldsOfRow(row);
  }

  /** GetIndexInfo once the reply is in. The second part of the split always
      exists, because the reply holds `="`. */
  method GetIndexInfo(content: string, num: Parsers) returns (r: Result<(string, real, real), string>)
    ensures r == IndexQuote(content, num)
  {
    if !Contains(content, Opening) {
      return Err("invalid response");
    }
    var parts := Split(content, Opening);
    OpeningGivesTwoParts(content);
    var data := TrimSuffix(TrimSuffix(parts[1], "\";"), "\"");
    var fields := ReadFields(data);
    if |fields| < 3 {
      return Err("not enough fields");
    }
    r := Ok((fields[0], num.float(fields[1]), num.float(fields[2])));
  }
}
