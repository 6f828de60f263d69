# HK stock assistant — a Dafny model of its decision and text-processing core

The HK stock assistant is a Hong Kong equities tool. It has three Go
services and a React web client:

- the **stock service** quotes a stock from Eastmoney's push2 API or Sina's
  `hq.sinajs.cn` list API, and assembles the market summary (the Hang Seng
  Index and the Hang Seng TECH Index);
- the **AI service** builds a prompt from the quote, the market summary and
  the Hong Kong trading clock, asks an OpenAI-compatible LLM for an analysis,
  either in one blocking call or as a stream, and serves the stream as
  server-sent events (SSE);
- the **gateway** exposes the HTTP API: real-time quotes, the market
  summary, the sector rankings, and the prediction, both as one JSON answer
  and as a relayed SSE stream;
- the **web client** normalises codes, parses the SSE stream incrementally,
  shows the streamed analysis and its summary, and keeps a watchlist.

This project models that core in Dafny, one module per source file:

| module | file |
|---|---|
| `Predictor` | `backend/ai_service/biz/predictor/predictor.go` |
| `AiStream` | `backend/ai_service/stream.go` |
| `GatewayPrediction` | `backend/gateway/biz/handler/api/prediction.go` |
| `GatewayHandlers` | `backend/gateway/biz/handler/api/handlers.go` |
| `Sectors` | `backend/gateway/biz/handler/api/sectors.go` |
| `SinaHk` | `backend/stock_service/biz/provider/sina_hk/client.go` |
| `EastmoneyHk` | `backend/stock_service/biz/provider/eastmoney_hk/client.go` |
| `StockService` | `backend/stock_service/handler.go` |
| `StockApi` | `web/src/api/stock.ts` |
| `WebPrediction` | `web/src/pages/Prediction.tsx` |
| `WebHome` | `web/src/pages/Home.tsx` |

Some modules are shared by the others:

- `Wrappers` holds `Option` and `Result`.
- `StockTypes` holds the quote and index records.
- `Text` covers trimming, searching, splitting, joining, lower-casing, string lengths and decimal digits. It distinguishes three whitespace sets: Go's `strings.TrimSpace`, JavaScript's `trim` and JSON's.
- `CodeNormal` holds the padding rule shared by the four copies of the stock-code normaliser. Its length measure is a parameter: Go's `len` counts UTF-8 bytes, while JavaScript's `length` counts UTF-16 code units.
- `JsonString` models Go's `json.Marshal` of a string, as Go 1.22 and later write it (backspace and form feed as `\b` and `\f`, where earlier releases write `\u0008` and `\u000c`), and `JSON.parse` of a string literal whose `\u` escapes make whole characters.
- `EndToEnd` takes the frames the stream handler writes, cut into chunks in any way, through the browser's parser to the prediction page. The gateway's part of the way is `GatewayPrediction.RelayCopiesAll`: while the browser stays connected, the relay passes on the upstream bytes unchanged.

Network, clock and parsing inputs become parameters:

- The HTTP replies of the LLM, Sina, Eastmoney and the internal stream server become datatypes of replies: decoded records, lines, or chunks read.
- `strconv` parsing and `%.2f` formatting become function parameters.
- The wall clock becomes a weekday, an hour and a minute.
- A write failure on an HTTP response becomes a write budget. The response accepts that many writes, then fails every later one.

Two statements of the source do not compile as written. For each, the model
chooses a reading:

- `backend/stock_service/handler.go:45` expects five results from the Sina
  `GetIndexInfo`, which returns four (name, value, percent and an error). The
  model takes the Sina index with change 0.
- `backend/ai_service/stream.go:69` passes a two-argument callback to
  `StreamPredict`, whose callback takes only the text. The model's
  predictor emits each fragment with its channel (content or reasoning), and
  the stream handler frames it under that event name, which is what the web
  client's parser expects (`web/src/api/stock.ts:49-53`). Under the other
  reading, the handler passes only the text and writes each fragment with no
  `event:` line; the browser then drops every fragment. That is the second
  finding below.

The gateway relay ignores write and flush errors
(`backend/gateway/biz/handler/api/prediction.go:109-110`): only a read EOF or
a read error ends it, and the model keeps that.

## Model

| member | source | states |
|---|---|---|
| `Predictor.IsHKTradingTime` | backend/ai_service/biz/predictor/predictor.go:120-133 | weekends are closed; an open minute lies in 9:30–16:00 and outside 12:00–13:00 |
| `Predictor.TradingByClock` | backend/ai_service/biz/predictor/predictor.go:120-133 | on a weekday the market is open exactly in 9:30–11:59 and 13:00–15:59, so 12:00 and 16:00 are closed |
| `Predictor.Atoi` | backend/ai_service/biz/predictor/predictor.go:31 | an accepted text is digits with an optional sign; its value is the digits' decimal value with the sign applied, accepted exactly when that fits a 64-bit int |
| `Predictor.LlmTimeoutSec` | backend/ai_service/biz/predictor/predictor.go:28-36 | a trimmed setting that parses to a positive integer is the timeout; anything else gives 120 |
| `Predictor.TimeoutRoundTrip` | backend/ai_service/biz/predictor/predictor.go:28-36 | a positive setting written in decimal is the timeout used |
| `Predictor.TimeoutLenient` | backend/ai_service/biz/predictor/predictor.go:30-32 | white space around the setting, a `+` sign and a leading zero do not change the timeout |
| `Predictor.TimeoutDefault` | backend/ai_service/biz/predictor/predictor.go:28-36 | a setting that does not parse to a positive number gives 120 |
| `Predictor.ParseEnvLine` | backend/ai_service/biz/predictor/predictor.go:58-67 | blank lines, `#` lines, lines without `=` and lines starting with `=` assign nothing; an assignment is the trimmed, non-empty text before and after the first `=` |
| `Predictor.ParseEnvLineRoundTrip` | backend/ai_service/biz/predictor/predictor.go:58-67 | `key=value` with a trimmed key and value, no `=` in the key and no leading `#`, parses to that pair |
| `Predictor.EnvNeverOverwrites` | backend/ai_service/biz/predictor/predictor.go:68-70 | loading a file never changes a variable that is already set |
| `Predictor.EnvFirstAssignmentWins` | backend/ai_service/biz/predictor/predictor.go:57-71 | an unset variable gets the value of the first line of the file that assigns it |
| `Predictor.EnvUnassignedUnchanged` | backend/ai_service/biz/predictor/predictor.go:57-71 | a variable that no line assigns keeps its value |
| `Predictor.ProcessEnv.LoadEnv` | backend/ai_service/biz/predictor/predictor.go:46-72 | a missing file changes nothing; otherwise the environment is the lines applied in order |
| `Predictor.ProcessEnv.ApplyLine` | backend/ai_service/biz/predictor/predictor.go:58-70 | one line sets its key only when the key is unset |
| `Predictor.NewConfig` | backend/ai_service/biz/predictor/predictor.go:92-111 | with the Zhipu key set: that key, the Zhipu URL, and `ZHIPU_MODEL` when set, else glm-4-flash; otherwise `LLM_API_KEY`, and `LLM_BASE_URL` and `LLM_MODEL` each when set, else its default |
| `Predictor.ChooseModel` | backend/ai_service/biz/predictor/predictor.go:202-205 | the override when non-empty, else the configured model |
| `Predictor.ContentToString` | backend/ai_service/biz/predictor/predictor.go:434-454 | nil gives "", a string itself, a list the in-order `text` fields of its object parts, anything else its printed form |
| `Predictor.PartsTextAppend` | backend/ai_service/biz/predictor/predictor.go:442-450 | the text of a list is the text of its halves joined |
| `Predictor.PartsTextSkipsOthers` | backend/ai_service/biz/predictor/predictor.go:443-448 | parts without a string `text` field contribute nothing |
| `Predictor.Truncate` | backend/ai_service/biz/predictor/predictor.go:456-461 | a short string is unchanged; a longer one is its first `max` bytes and "..." |
| `Predictor.ResolveReply` | backend/ai_service/biz/predictor/predictor.go:286-304 | an accepted analysis is non-empty and trimmed, and comes from a reply with no API error and at least one choice |
| `Predictor.ApiErrorFirst` | backend/ai_service/biz/predictor/predictor.go:286-288 | an API error message wins over everything else |
| `Predictor.ContentWins` | backend/ai_service/biz/predictor/predictor.go:293-296 | non-blank content is the analysis, trimmed |
| `Predictor.ReasoningFallback` | backend/ai_service/biz/predictor/predictor.go:297-304 | blank content falls back to the trimmed reasoning text, and both blank is the empty-content error |
| `Predictor.StockText` | backend/ai_service/biz/predictor/predictor.go:137-149 | the stock block is never empty, and a quote starts with its name and code |
| `Predictor.IndexLines` | backend/ai_service/biz/predictor/predictor.go:159-166 | one line per index present, none for a missing one |
| `Predictor.FetchMarketData` | backend/ai_service/biz/predictor/predictor.go:151-168 | the market block is the index lines joined by newlines |
| `Predictor.MarketTextLines` | backend/ai_service/biz/predictor/predictor.go:160-167 | splitting the market block on newlines gives back its lines |
| `Predictor.InstructionTrim` | backend/ai_service/biz/predictor/predictor.go:188-199 | the trimmed blocking-mode instruction is the streaming-mode one |
| `Predictor.PromptsDifferByOneNewline` | backend/ai_service/biz/predictor/predictor.go:208-230 | the blocking prompt is the streaming prompt with one more newline after the common head |
| `Predictor.PromptsOneMoreNewline` | backend/ai_service/biz/predictor/predictor.go:328-351 | the same, stated as a predicate on the two prompts |
| `Predictor.BlockingResult` | backend/ai_service/biz/predictor/predictor.go:244-305 | a refused request gives its bare error; the call, read, status (`LLM 返回 <status>: <body>`) and decode errors each give their message; a 200 reply that decodes gives the resolution error or the analysis with confidence 0.85 |
| `Predictor.Predict` | backend/ai_service/biz/predictor/predictor.go:171-305 | no key means no request and the 0.5 placeholder; with a key the result is that of the call, sent as a non-streaming request with the chosen model unless the URL is refused |
| `Predictor.PlaceholderAnswer` | backend/ai_service/biz/predictor/predictor.go:179-182 | the placeholder names the code, the stock block and the market block, whatever the LLM would say |
| `Predictor.PredictRequest` | backend/ai_service/biz/predictor/predictor.go:185-230 | the request carries the chosen model and the prompt built from the trading state |
| `Predictor.BuildPromptForLLM` | backend/ai_service/biz/predictor/predictor.go:309-353 | an error exactly when there is no key; the model is the chosen one |
| `Predictor.CallShapesAgree` | backend/ai_service/biz/predictor/predictor.go:202-230 | the blocking and the streaming call use the same model, and prompts one newline apart |
| `Predictor.DeltaEmission` | backend/ai_service/biz/predictor/predictor.go:420-425 | the content, or the reasoning when the content is empty; nothing when both are empty |
| `Predictor.FirstFailureFrom` | backend/ai_service/biz/predictor/predictor.go:425-428 | the first emission whose callback fails |
| `Predictor.LineStepOf` | backend/ai_service/biz/predictor/predictor.go:395-424 | a line that does not start with `data: ` once trimmed is skipped, and an emitted text is never empty |
| `Predictor.RunStreamLines` | backend/ai_service/biz/predictor/predictor.go:394-431 | the loop returns the emissions up to the stop, the first callback error, or the scanner's error |
| `Predictor.EmissionsNonEmpty` | backend/ai_service/biz/predictor/predictor.go:425 | no empty text is ever emitted |
| `Predictor.EmissionsAppend` | backend/ai_service/biz/predictor/predictor.go:394-430 | emissions follow line order: the emissions of two stretches of lines are concatenated |
| `Predictor.SentinelEndsStream` | backend/ai_service/biz/predictor/predictor.go:403-405 | nothing after a `[DONE]` line is emitted |
| `Predictor.MalformedSkipped` | backend/ai_service/biz/predictor/predictor.go:414-416 | a payload that does not decode neither emits nor ends the stream |
| `Predictor.OtherLinesSkipped` | backend/ai_service/biz/predictor/predictor.go:395-401 | a line that does not start with `data: ` once trimmed neither emits nor ends the stream |
| `Predictor.EmptyChoicesSkipped` | backend/ai_service/biz/predictor/predictor.go:417-419 | a chunk with no choices neither emits nor ends the stream |
| `Predictor.StreamOutcome` | backend/ai_service/biz/predictor/predictor.go:356-431 | emissions or success only come from a key and a 200 reply; no key is the missing-key error |
| `Predictor.StreamPredict` | backend/ai_service/biz/predictor/predictor.go:356-431 | a refused request gives its bare error and no request; otherwise a streaming request with the blocking-mode model and prompt shape, and the call, status and loop errors as written |
| `AiStream.Admit` | backend/ai_service/stream.go:25-55 | 405 for any method but GET and POST; a POST takes the trimmed code and model and the positive days (else 3) from its body, whose fields an empty body leaves zero; a GET takes the trimmed query code |
| `AiStream.QueryCodeDiscarded` | backend/ai_service/stream.go:29-40 | on a POST the query code plays no part |
| `AiStream.MissingCodeIsBlank` | backend/ai_service/stream.go:32-55 | a POST is refused exactly when its body's code is blank, so a POST with an empty body is refused; a GET exactly when its query code is blank |
| `AiStream.FrameWrites` | backend/ai_service/stream.go:80-89 | an `event:` line only for a named event, then `data: ` and the JSON text and a blank line |
| `AiStream.ChunkFrames` | backend/ai_service/stream.go:69-71 | one frame per emission, named by its channel |
| `AiStream.TerminalFrame` | backend/ai_service/stream.go:72-76 | the closing frame is terminal |
| `AiStream.TerminalLast` | backend/ai_service/stream.go:65-76 | exactly one terminal frame, the last; it is `done` exactly when the predictor exists and succeeded |
| `AiStream.Response.Write` | backend/ai_service/stream.go:81 | a write appends within the budget, and fails changing nothing once it is spent |
| `AiStream.Response.Error` | backend/ai_service/stream.go:48 | the status, the plain-text headers and the message line |
| `AiStream.Send` | backend/ai_service/stream.go:81-88 | the body grows by the writes the budget still allows |
| `AiStream.WriteSse` | backend/ai_service/stream.go:79-92 | both lines are written in order; a failed write stops the frame and skips the flush |
| `AiStream.HandleStream` | backend/ai_service/stream.go:24-77 | 405, 400 or 500 with nothing streamed and no provider call; otherwise the SSE headers, the planned frames cut at the write budget, and a provider call carrying the prompt and model built from the admitted code, days and model override |
| `AiStream.StreamFrames` | backend/ai_service/stream.go:65-76 | the body is the planned frames' writes, cut at the budget; the provider is asked, when at all, with the prompt and model built for the given query |
| `AiStream.Predicting` | backend/ai_service/stream.go:65-76 | with a predictor, the body is its planned frames cut at the budget, and the provider request is the one built for the query |
| `AiStream.ReplayCalls` | backend/ai_service/stream.go:69-71 | replaying emissions writes their chunk frames in order |
| `AiStream.DeliveredCut` | backend/ai_service/stream.go:69-76 | a failing client sees exactly a prefix of what a healthy one would see |
| `GatewayPrediction.EffectiveDays` | backend/gateway/biz/handler/api/prediction.go:38-40 | days are positive, and a positive request keeps its own |
| `GatewayPrediction.GetPrediction` | backend/gateway/biz/handler/api/prediction.go:28-63 | 400 for a blank code; else the normalised RPC request, and 500 on error or an empty result, or the result's four fields |
| `GatewayPrediction.PredictionCopiesResult` | backend/gateway/biz/handler/api/prediction.go:53-62 | a JSON answer carries exactly the RPC result's code, confidence, analysis and news summary |
| `GatewayPrediction.SameRequestBothWays` | backend/gateway/biz/handler/api/prediction.go:67-82 | the streaming route forwards the same code, days and model as the blocking one |
| `GatewayPrediction.GetPredictionStream` | backend/gateway/biz/handler/api/prediction.go:66-119 | 400 for a blank code; else the upstream's error, its non-200 status and body verbatim, or the relayed stream; the error answers are plain text |
| `GatewayPrediction.Respond` | backend/gateway/biz/handler/api/prediction.go:83-119 | the upstream failure as a plain-text 500, a failure status with its body as plain text, or the stream is passed on |
| `GatewayPrediction.LastRead` | backend/gateway/biz/handler/api/prediction.go:112-117 | the loop's last read is the first EOF or read error |
| `GatewayPrediction.Payloads` | backend/gateway/biz/handler/api/prediction.go:108-111 | only non-empty reads are written |
| `GatewayPrediction.PayloadsText` | backend/gateway/biz/handler/api/prediction.go:105-111 | the written text is the concatenation of all reads |
| `GatewayPrediction.Relay` | backend/gateway/biz/handler/api/prediction.go:105-118 | the relay runs to the first EOF or read error, and writes and flushes each non-empty read in order, whatever the writes return |
| `GatewayPrediction.RelayCopiesAll` | backend/gateway/biz/handler/api/prediction.go:105-111 | within the budget the output is every byte read, in order |
| `GatewayPrediction.CopyStream` | backend/gateway/biz/handler/api/prediction.go:100-118 | SSE headers, then the relayed reads |
| `GatewayPrediction.Downstream.Write` | backend/gateway/biz/handler/api/prediction.go:109 | a write appends within the budget and otherwise fails silently |
| `GatewayHandlers.NormalizeHkCode` | backend/gateway/biz/handler/api/handlers.go:61-76 | always `hk`-prefixed; an `hk` code gains a 0 at 6 bytes and is otherwise unchanged; a code without the prefix is zero-padded to `hk`+5 bytes when at most 5 bytes long, and otherwise just prefixed with `hk` |
| `GatewayHandlers.NormalizeIdempotent` | backend/gateway/biz/handler/api/handlers.go:61-76 | normalising twice is normalising once |
| `GatewayHandlers.GetRealtime` | backend/gateway/biz/handler/api/handlers.go:14-40 | 400 exactly for a blank code; else the normalised lookup, 500 on error, 404 for no stock |
| `GatewayHandlers.RequestedCodeStable` | backend/gateway/biz/handler/api/handlers.go:20 | the code asked for is already normal |
| `GatewayHandlers.GetMarketSummary` | backend/gateway/biz/handler/api/handlers.go:43-59 | 500 with the RPC error, or the indices as given |
| `Sectors.Sink` | backend/gateway/biz/handler/api/sectors.go:86 | one insertion step: the prefix grows sorted and the array is a permutation |
| `Sectors.SortDesc` | backend/gateway/biz/handler/api/sectors.go:86 | the array ends sorted non-increasingly by the key, a permutation of its start |
| `Sectors.SortedCopy` | backend/gateway/biz/handler/api/sectors.go:84-86 | a sorted permutation of the input, the input untouched |
| `Sectors.ToEntry` | backend/gateway/biz/handler/api/sectors.go:102-113 | retail inflow is f78 + f84, the other fields copied |
| `Sectors.ToEntries` | backend/gateway/biz/handler/api/sectors.go:115-126 | one entry per item, in order |
| `Sectors.GetSectors` | backend/gateway/biz/handler/api/sectors.go:50-137 | errors as written; empty input gives three empty lists; else the first 10 by change, all by change, and the first 20 by main inflow |
| `Sectors.RankingLength` | backend/gateway/biz/handler/api/sectors.go:84-86 | a ranking keeps every item |
| `Sectors.PrefixIsTop` | backend/gateway/biz/handler/api/sectors.go:87-99 | the first m of a ranking rank at least as high as every item left out |
| `Sectors.RankingKeysUnique` | backend/gateway/biz/handler/api/sectors.go:84-95 | any two rankings of one list agree key by key, so the unstable sort decides only ties |
| `SinaHk.NormalizeHkCode` | backend/stock_service/biz/provider/sina_hk/client.go:33-50 | the four cases of the normaliser, by byte length: 6-byte `hk` codes gain a 0, other `hk` codes are kept, codes of at most 5 bytes are zero-padded after `hk`, longer ones only prefixed |
| `SinaHk.SameAsGateway` | backend/stock_service/biz/provider/sina_hk/client.go:33-50 | the Sina copy equals the gateway copy |
| `SinaHk.OpeningGivesTwoParts` | backend/stock_service/biz/provider/sina_hk/client.go:90-93 | the "parse error" branch cannot be taken |
| `SinaHk.Payload` | backend/stock_service/biz/provider/sina_hk/client.go:86-95 | a payload exists exactly when the body contains `="` |
| `SinaHk.PayloadOfReply` | backend/stock_service/biz/provider/sina_hk/client.go:90-95 | the payload of a `...="p";` reply is p |
| `SinaHk.Fields` | backend/stock_service/biz/provider/sina_hk/client.go:100-103 | the comma-separated fields, each trimmed |
| `SinaHk.TrimFields` | backend/stock_service/biz/provider/sina_hk/client.go:101-103 | the in-place loop trims every field |
| `SinaHk.FieldsOfRow` | backend/stock_service/biz/provider/sina_hk/client.go:100-103 | joining clean fields with commas and reading them back gives the fields |
| `SinaHk.StockFromFields` | backend/stock_service/biz/provider/sina_hk/client.go:105-138 | under 9 fields is an error; else the name fallback, price, percent, volume (0 without field 12) and timestamp |
| `SinaHk.AsWrittenAgreesElsewhere` | backend/stock_service/biz/provider/sina_hk/client.go:105-138 | outside 9–12 fields the code as written agrees with the corrected parse |
| `SinaHk.StockQuote` | backend/stock_service/biz/provider/sina_hk/client.go:55-138 | the missing-`="` error with the normalised code; a quote carries the normalised code |
| `SinaHk.GetStockInfo` | backend/stock_service/biz/provider/sina_hk/client.go:86-138 | the imperative parse computes `StockQuote` |
| `SinaHk.QuoteOfRow` | backend/stock_service/biz/provider/sina_hk/client.go:86-138 | a well-formed reply is parsed into its own row |
| `SinaHk.IndexQuote` | backend/stock_service/biz/provider/sina_hk/client.go:171-186 | "invalid response" without `="`; with it, at least 3 fields give the first as the name and the next two parsed, fewer give "not enough fields" |
| `SinaHk.IndexOfRow` | backend/stock_service/biz/provider/sina_hk/client.go:171-186 | a well-formed reply of at least three fields gives its own name and numbers |
| `SinaHk.GetIndexInfo` | backend/stock_service/biz/provider/sina_hk/client.go:171-186 | the imperative parse computes `IndexQuote` |
| `EastmoneyHk.NormalizeHkCode` | backend/stock_service/biz/provider/eastmoney_hk/client.go:23-38 | `hk`-prefixed, ends with the cleaned code, and short codes are padded |
| `EastmoneyHk.SameAsSina` | backend/stock_service/biz/provider/eastmoney_hk/client.go:23-38 | the Eastmoney copy equals the Sina copy |
| `EastmoneyHk.SecId` | backend/stock_service/biz/provider/eastmoney_hk/client.go:41-47 | starts with "116."; the rest is the code or the code without its "hk" |
| `EastmoneyHk.SecIdOfShortCode` | backend/stock_service/biz/provider/eastmoney_hk/client.go:41-47 | a short numeric code asks for "116." and five digits of the same number |
| `EastmoneyHk.SecIdOfSeven` | backend/stock_service/biz/provider/eastmoney_hk/client.go:43-44 | a 7-character `hk` code drops just its "hk" |
| `EastmoneyHk.Unscale` | backend/stock_service/biz/provider/eastmoney_hk/client.go:109-110 | the scaled integer divided exactly |
| `EastmoneyHk.ChangePercent` | backend/stock_service/biz/provider/eastmoney_hk/client.go:111-114 | the percent that takes the previous close to the price, or 0 without a positive close |
| `EastmoneyHk.ChangeSign` | backend/stock_service/biz/provider/eastmoney_hk/client.go:111-114 | the percent is positive or negative exactly as the price rose or fell |
| `EastmoneyHk.StockFromPush2` | backend/stock_service/biz/provider/eastmoney_hk/client.go:100-127 | fetch and decode errors passed on; invalid exactly for null data or blank code and name; price ×1000 is f43, name falls back to the code |
| `EastmoneyHk.StockQuote` | backend/stock_service/biz/provider/eastmoney_hk/client.go:76-128 | the quote of the normalised code's security id |
| `EastmoneyHk.IndexFromPush2` | backend/stock_service/biz/provider/eastmoney_hk/client.go:160-171 | errors exactly for failures and null data; value, change and percent ×100 are the fields; the name defaults to 恒生指数 |
| `StockService.GetRealtime` | backend/stock_service/handler.go:28-37 | no request or an empty code is an empty answer; else the Eastmoney quote or its error |
| `StockService.RealtimeNeverEmpty` | backend/stock_service/handler.go:32-36 | a non-empty code gives an error or a stock with the normalised code |
| `StockService.SinaIndex` | backend/stock_service/handler.go:45 | the Sina fallback index carries change 0 |
| `StockService.Hsi` | backend/stock_service/handler.go:43-46 | Eastmoney's index when it answers, else Sina's |
| `StockService.Obtained` | backend/stock_service/handler.go:47-63 | at most two indices, the Hang Seng Index first and HSTECH last |
| `StockService.MarketSummary` | backend/stock_service/handler.go:64-67 | an error exactly when neither index was obtained |
| `StockService.HstechIndependent` | backend/stock_service/handler.go:56-63 | the HSTECH query does not affect the Hang Seng Index, and its failure leaves that index alone |
| `StockService.GetMarketSummary` | backend/stock_service/handler.go:40-68 | the summary, asking Sina only after Eastmoney fails |
| `StockService.QueryHsi` | backend/stock_service/handler.go:43-46 | Eastmoney first, Sina only on failure |
| `StockApi.NormalizeCode` | web/src/api/stock.ts:10-21 | `hk`-prefixed; a 6-unit `hk` code gains a 0; a short code is padded |
| `StockApi.AgreesWithGateway` | web/src/api/stock.ts:10-21 | on ASCII input the browser normaliser equals the gateway's |
| `StockApi.NonOkMessage` | web/src/api/stock.ts:73-77 | the body text, or a non-empty status message when it is empty |
| `StockApi.LastEventWins` | web/src/api/stock.ts:95-98 | the last `event: ` line gives the trimmed event name |
| `StockApi.NoEventLine` | web/src/api/stock.ts:93-98 | with no `event: ` line the name is empty |
| `StockApi.LastDataWins` | web/src/api/stock.ts:95-98 | the last `data: ` line gives the data |
| `StockApi.ParseEvent` | web/src/api/stock.ts:93-98 | the line loop computes the last event and the last data |
| `StockApi.Dispatch` | web/src/api/stock.ts:99-116 | a chunk exactly for `reasoning` and `content`, a stop exactly for `error` and `done`, nothing otherwise |
| `StockApi.RunAppend` | web/src/api/stock.ts:92-117 | the events of consecutive chunks run as one sequence |
| `StockApi.RunEnded` | web/src/api/stock.ts:106-116 | after `error` or `done` nothing more happens |
| `StockApi.ReplaySettled` | web/src/api/stock.ts:92-117 | only chunks come before the one stop |
| `StockApi.CutEvents` | web/src/api/stock.ts:89-91 | the cut yields complete events and a rest without `\n\n`, keeping all the text |
| `StockApi.EventReader.SplitOfReceived` | web/src/api/stock.ts:89-91 | the text received splits into the processed events and the buffer |
| `StockApi.EventReader.Feed` | web/src/api/stock.ts:87-117 | one chunk is appended, cut into events and dispatched, and the buffer invariant kept |
| `StockApi.EventReader.HandleEvents` | web/src/api/stock.ts:92-117 | the events are dispatched in order until a stop |
| `StockApi.EventReader.Finish` | web/src/api/stock.ts:119-135 | the leftover chunk if any, then `onDone` |
| `StockApi.EventReader.Conclude` | web/src/api/stock.ts:119-135 | the end of the stream as a function of the buffer |
| `StockApi.Leftover` | web/src/api/stock.ts:119-133 | at most one chunk, only from a non-blank buffer |
| `StockApi.OneTerminal` | web/src/api/stock.ts:106-135 | every callback but the last is a chunk, and a body read to its end closes with `onDone` or `onError` |
| `StockApi.EndedEarly` | web/src/api/stock.ts:106-116 | text after the stop does not matter |
| `StockApi.GetPredictionStream` | web/src/api/stock.ts:50-145 | the normalised code and the callbacks of the outcome; a cancelled fetch or read calls back nothing |
| `StockApi.Caught` | web/src/api/stock.ts:140-143 | an abort calls back nothing; any other error calls `onError` with its message |
| `StockApi.AbortSilent` | web/src/api/stock.ts:85-143 | a read cancelled by the page adds no callback; any other failed read adds `onError` unless an event had ended the stream |
| `StockApi.ReadBody` | web/src/api/stock.ts:85-135 | the read loop's callbacks depend on the body's text only, not on how it was chunked |
| `WebPrediction.ExtractSummary` | web/src/pages/Prediction.tsx:8-19 | the loop computes `Summary` |
| `WebPrediction.MarkerSearch` | web/src/pages/Prediction.tsx:11-18 | the first marker present gives the suffix at its first occurrence, else the trimmed text |
| `WebPrediction.ThirdMarkerDead` | web/src/pages/Prediction.tsx:11-17 | the third marker never decides, as it contains the second |
| `WebPrediction.SummaryIsSuffix` | web/src/pages/Prediction.tsx:9-18 | blank text gives ""; the summary is a suffix of the trimmed text |
| `WebPrediction.SummaryIdempotent` | web/src/pages/Prediction.tsx:8-19 | summarising a summary changes nothing |
| `WebPrediction.Accumulates` | web/src/pages/Prediction.tsx:62-64 | the full text is the concatenation of the chunk arguments |
| `WebPrediction.Settles` | web/src/pages/Prediction.tsx:66-75 | after the closing callback loading stops, with the summary on done or the error on error |
| `WebPrediction.ChunksOnly` | web/src/pages/Prediction.tsx:62-65 | while only chunks arrive the page is loading and shows the text so far |
| `WebPrediction.EndOfBodyStopsLoading` | web/src/pages/Prediction.tsx:66-75 | a body read to its end always stops loading |
| `WebPrediction.EventNamesShown` | web/src/pages/Prediction.tsx:62-64 | as written, the summary shows the event name instead of the text |
| `WebPrediction.IntendedSummary` | web/src/pages/Prediction.tsx:62-70 | with the text bound, the summary is that of the in-order fragments |
| `WebPrediction.PredictionPage.RunStream` | web/src/pages/Prediction.tsx:49-78 | the reset, then each callback applied in order |
| `WebPrediction.PredictionPage.Done` | web/src/pages/Prediction.tsx:66-71 | loading stops and the summary of the full text is shown |
| `WebHome.DedupSound` | web/src/pages/Home.tsx:12 | the deduplicated list has no repeats and the same members |
| `WebHome.DedupNoDup` | web/src/pages/Home.tsx:12 | a list without repeats is unchanged |
| `WebHome.LoadWatchlist` | web/src/pages/Home.tsx:9-15 | the stored list without repeats, or the default list when nothing is stored or it does not parse |
| `WebHome.AddCode` | web/src/pages/Home.tsx:85-87 | blank input adds nothing; an `hk` input is kept verbatim; otherwise `hk` and the padded code |
| `WebHome.AddCodeVsNormalize` | web/src/pages/Home.tsx:87 | adding agrees with the browser normaliser except on 6-unit `hk` codes, where it keeps the code as typed |
| `WebHome.AddShortDigits` | web/src/pages/Home.tsx:87 | a code of 1–5 digits becomes a canonical 7-character code |
| `WebHome.Add` | web/src/pages/Home.tsx:88-90 | the code is in the list afterwards, the old list is a prefix and nothing else is added |
| `WebHome.AddKeepsNoDup` | web/src/pages/Home.tsx:88-90 | a list without repeats stays so |
| `WebHome.Remove` | web/src/pages/Home.tsx:95-97 | every occurrence of the code goes and every other code stays |
| `WebHome.RemoveAt` | web/src/pages/Home.tsx:95-97 | in a list without repeats, removing is deleting that one position, the rest in order |
| `WebHome.RemoveKeepsNoDup` | web/src/pages/Home.tsx:95-97 | a list without repeats stays so |
| `WebHome.GetColor` | web/src/pages/Home.tsx:21-25 | red exactly for a rise, green exactly for a fall, grey exactly for no change |
| `WebHome.FirstPerCodeDistinct` | web/src/pages/Home.tsx:47-54 | the kept quotes have distinct codes |
| `WebHome.FirstPerCodeCovers` | web/src/pages/Home.tsx:49-54 | every kept quote was fulfilled, and every fulfilled code is kept |
| `WebHome.FirstPerCodePrefix` | web/src/pages/Home.tsx:49-54 | later results never displace earlier ones |
| `WebHome.KeepFirstFulfilled` | web/src/pages/Home.tsx:47-54 | the `forEach` loop keeps the first fulfilled quote per code, in order |
| `WebHome.FetchStocks` | web/src/pages/Home.tsx:41-59 | an empty watchlist does nothing; else the first fulfilled quote per code |
| `WebHome.HomePage.AddStock` | web/src/pages/Home.tsx:84-93 | blank input changes nothing; else the code is added if absent and the box closed |
| `WebHome.HomePage.RemoveStock` | web/src/pages/Home.tsx:95-97 | the code is removed and the list keeps no repeats |
| `JsonString.RoundTrip` | backend/ai_service/stream.go:86 | decoding the JSON encoding of any text gives the text back |
| `JsonString.EncodePrintable` | backend/ai_service/stream.go:85-87 | the encoding holds no control character, so no newline can break the framing |
| `CodeNormal.Pad` | backend/gateway/biz/handler/api/handlers.go:63-75 | the shared padding rule: prefixed, ends with the code, canonical where the source pads, and the exact result of each case (a 0 after `hk`, zeros before the code, or `hk` alone) |
| `CodeNormal.PadIdempotent` | backend/gateway/biz/handler/api/handlers.go:63-75 | padding twice is padding once |
| `CodeNormal.PadKeepsNumber` | backend/gateway/biz/handler/api/handlers.go:72-73 | padding keeps the stock number |
| `Text.TrimIdempotent` | backend/ai_service/biz/predictor/predictor.go:395 | trimming twice is trimming once |
| `Text.SplitJoin` | web/src/api/stock.ts:90-91 | splitting then joining gives the text back |
| `EndToEnd.WireText` | backend/ai_service/stream.go:79-92 | the stream body is each frame's piece followed by `\n\n` |
| `EndToEnd.PieceAction` | web/src/api/stock.ts:93-116 | the browser reads each frame back as the event and the text it was written with |
| `EndToEnd.WireSplit` | web/src/api/stock.ts:90-91 | the body splits into exactly the written frames |
| `EndToEnd.RunFrames` | web/src/api/stock.ts:92-117 | the chunk frames reach the page in order |
| `EndToEnd.Delivery` | web/src/api/stock.ts:85-135 | however the relay cuts the body into chunks, the page gets the chunks and then the one closing callback |
| `EndToEnd.FragmentDelivery` | backend/ai_service/stream.go:65-76 | the predictor's fragments arrive as chunks, in order, then done or the error |
| `EndToEnd.PlannedDelivery` | backend/ai_service/stream.go:65-76 | with named frames, no predictor gives one error, else the fragments then the terminal callback |
| `EndToEnd.PageShowsPrediction` | web/src/pages/Prediction.tsx:53-71 | a successful stream leaves the page with the fragments' text, its summary, and loading off |
| `EndToEnd.UnnamedDropped` | web/src/api/stock.ts:99 | unnamed frames are all dropped: the page sees only the closing callback |

## Left out

- Network I/O is out of the model: the HTTP requests to the LLM, Sina, Eastmoney and the stream server, the read timeouts, the scanner's buffer limit and the chunked writer. Each becomes a reply datatype or a sequence of reads.
- GBK decoding is out of the model. So are `strconv.ParseFloat`/`ParseInt`, `%.2f` and `toFixed`. They are function parameters, and numbers are exact reals.
- `json.Unmarshal` of objects is out of the model: the LLM envelope, the stream chunks, the push2 and clist replies, and request bodies. The model takes them already decoded. Only the JSON string codec used for the SSE data is modelled.
- The wall clock and time-zone loading are inputs, and the prompt's timestamp is an input string.
- Context cancellation, the `sync.Once` singletons, the stream server's goroutine, `Promise.allSettled` and the refresh interval are left out as concurrency and timing.
- React rendering, hooks, localStorage and scrolling are left out. The pages are modelled by their state updates.
- Lower-casing is ASCII only. Go's and JavaScript's Unicode case mapping is not modelled.
- `Predictor.StockText`: it states only that the block is never empty and starts with the name and code. The numbers are formatted by a parameter.
- `Predictor.IndexLines`: it states only the line count bound. Each line's text comes from the formatting parameter.
- `EastmoneyHk.SecId`: its contract does not say which of its two shapes applies to a given code. `SecIdOfSeven` and `SecIdOfShortCode` state it for normalised codes.
- `EastmoneyHk.NormalizeHkCode`: it states only the shared shape. `SameAsSina` and `SinaHk.SameAsGateway` tie it to the full case analysis of `SinaHk.NormalizeHkCode`.
- `AiStream.HandleStream`: a client disconnect is modelled as a write budget. Errors of the request-body decoder are not modelled, since the source discards them: malformed JSON counts as empty fields, and a field of the wrong type stays zero while the other fields decode (a `StreamBody` with that field zero).
- `GatewayPrediction.GetPredictionStream`: marshalling the forwarded request is not modelled. The forwarded code, days and model are returned instead.
- `GatewayPrediction.Relay`: the model takes an upstream whose reads end in EOF or an error. An upstream that never ends keeps the Go loop running, and the model does not describe that.
- `StockApi.Dispatch`: data that is valid JSON but not a string (a number, an object, an array, `true`, `false` or `null`) reaches the callbacks as the value `JSON.parse` makes of it. The model hands over the raw data text instead, because it decodes only JSON string literals. The page would show an object as "[object Object]" and an array as its comma-joined elements.
- `StockApi.Dispatch`: a string literal with a `\uD800`–`\uDFFF` escape that is not part of a high/low surrogate pair is decoded by `JSON.parse` into a string holding a lone surrogate. The model's strings are sequences of Unicode scalar values and cannot hold one, so such data reaches the callbacks as raw text. Go's encoder never writes such an escape, so the stream server's frames are not affected.
- `Predictor.RunStreamLines`: after the `[DONE]` line the source returns `sc.Err()`. That can report a read error the scanner met while buffering ahead of the sentinel. The model returns no error there.
- The `log.Printf` calls are left out (in `predictor.go`, `stream.go`, `sectors.go:129` and the AI service's `handler.go`). They only write to the process log.

## Findings

| source | as written | input that shows it | evidently intended | confidence | as-written member | corrected member |
|---|---|---|---|---|---|---|
| backend/stock_service/biz/provider/sina_hk/client.go:115 | `fields[12]` is read before the length check on line 116 | a reply with 9 fields, e.g. `Tencent,腾讯控股,350.0,348.0,352.0,347.0,350.2,2.2,0.63`: the index is out of range and `GetStockInfo` panics. The fault is latent: `handler.go:32` quotes through the Eastmoney client, and no source file calls the Sina `GetStockInfo` | volume 0 when there are at most 12 fields | high; not executed | `SinaHk.ShortRowFaults` | `SinaHk.StockFromFields` |
| web/src/api/stock.ts:99 | events with no name are ignored, and `stream.go:69` does not type-check against the one-argument callback of `predictor.go:356` | every fragment framed without an `event:` line: the page receives only `onDone` and shows nothing | each fragment framed under its channel's name, `reasoning` or `content` | medium; not executed | `EndToEnd.UnnamedDropped` | `EndToEnd.PlannedDelivery` |
| web/src/pages/Prediction.tsx:62 | `onChunk(t)` binds the first argument, which `stock.ts:102` fills with the event name | a stream of one `content` chunk "x" then done: the summary is "content", not "x" | the text argument is accumulated | high; not executed | `WebPrediction.EventNamesShown` | `WebPrediction.IntendedSummary` |
