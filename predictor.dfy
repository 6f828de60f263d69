/**
 * The prediction engine: trading-session clock, configuration from the
 * environment, the .env loader, the conversion of a chat-completion reply
 * into an analysis, the prompts, and the line loop that turns a streamed
 * completion into text fragments. The wall clock, the HTTP exchange with the
 * language model, the stock service and JSON decoding are inputs.
 */
module Predictor {
  import opened Wrappers
  import opened Text
  import opened StockTypes
  import CodeNormal

  // ---------------------------------------------------------------- clock

  /** Go's time.Weekday order. */
  datatype Weekday = Sunday | Monday | Tuesday | Wednesday | Thursday | Friday | Saturday

  /** Hong Kong local time, as read from the clock in the Asia/Hong_Kong zone. */
  datatype Clock = Clock(weekday: Weekday, hour: nat, minute: nat, stamp: string)

  /** Whether the exchange is in a trading session: 9:30 to 12:00 and 13:00 to
      16:00, Monday to Friday. */
  function IsHKTradingTime(weekday: Weekday, hour: nat, minute: nat): (open: bool)
    ensures weekday == Saturday || weekday == Sunday ==> !open
    ensures open ==> 9 * 60 + 30 <= hour * 60 + minute < 16 * 60
    ensures open ==> !(12 * 60 <= hour * 60 + minute < 13 * 60)
  {
    if weekday == Saturday || weekday == Sunday then false
    else
      var m := hour * 60 + minute;
      if m >= 9 * 60 + 30 && m < 12 * 60 + 0 then true
      else if m >= 13 * 60 + 0 && m < 16 * 60 + 0 then true
      else false
  }

  /** The same rule read off a wall clock: 9:30 to 11:59 and 13:00 to 15:59 on
      weekdays; noon, the lunch hour and 16:00 are closed. */
  lemma TradingByClock(weekday: Weekday, hour: nat, minute: nat)
    requires minute < 60
    ensures IsHKTradingTime(weekday, hour, minute) <==>
              weekday != Saturday && weekday != Sunday &&
              ((hour == 9 && minute >= 30) || hour == 10 || hour == 11 || hour == 13 || hour == 14 || hour == 15)
  {
  }

  // -------------------------------------------------------------- timeout

  const DefaultTimeoutSec: int := 120
  const Int64Min: int := -0x8000_0000_0000_0000
  const Int64Max: int := 0x7FFF_FFFF_FFFF_FFFF

  /** strconv.Atoi: an optional sign and one or more decimal digits whose value
      fits in a 64-bit int; anything else is an error (None). */
  function Atoi(s: string): (r: Option<int>)
    ensures r.Some? ==> Int64Min <= r.value <= Int64Max
    ensures r.Some? ==> AllDigits(s) || (|s| > 1 && (s[0] == '-' || s[0] == '+') && AllDigits(s[1..]))
    ensures s != "" && AllDigits(s) ==>
              (r.Some? <==> DigitsValue(s) <= Int64Max) && (r.Some? ==> r.value == DigitsValue(s))
    ensures |s| > 1 && s[0] == '+' && AllDigits(s[1..]) ==>
              (r.Some? <==> DigitsValue(s[1..]) <= Int64Max) && (r.Some? ==> r.value == DigitsValue(s[1..]))
    ensures |s| > 1 && s[0] == '-' && AllDigits(s[1..]) ==>
              (r.Some? <==> DigitsValue(s[1..]) <= -Int64Min) && (r.Some? ==> r.value == 0 - (DigitsValue(s[1..]) as int))
  {
    var digits := if |s| > 0 && (s[0] == '-' || s[0] == '+') then s[1..] else s;
    if |digits| == 0 || !AllDigits(digits) then None
    else
      var v: int := if s[0] == '-' then 0 - (DigitsValue(digits) as int) else DigitsValue(digits);
      if Int64Min <= v <= Int64Max then Some(v) else None
  }

  /** The model-call timeout in seconds, given LLM_TIMEOUT_SEC ("" when unset). */
  function LlmTimeoutSec(env: string): (sec: int)
    ensures sec >= 1
    ensures var n := Atoi(Trim(env, GoSpace)); n.Some? && n.value > 0 ==> sec == n.value
    ensures var n := Atoi(Trim(env, GoSpace)); !(n.Some? && n.value > 0) ==> sec == DefaultTimeoutSec
  {
    if env != "" then
      match Atoi(Trim(env, GoSpace))
      case Some(n) => if n > 0 then n else DefaultTimeoutSec
      case None => DefaultTimeoutSec
    else DefaultTimeoutSec
  }

  /** Any positive 64-bit count of seconds written in decimal is taken as is. */
  lemma TimeoutRoundTrip(n: int)
    requires 0 < n <= Int64Max
    ensures LlmTimeoutSec(Decimal(n)) == n
  {
    var s := Decimal(n);
    assert s == NatDigits(n);
    DigitsTrimmed(s);
    NatDigitsValue(n);
    assert Atoi(s) == Some(n);
  }

  lemma DigitsTrimmed(s: string)
    requires |s| > 0 && AllDigits(s)
    ensures Trim(s, GoSpace) == s
  {
    assert IsDigit(s[0]) && IsDigit(s[|s| - 1]);
    assert !IsSpace(s[0], GoSpace) && !IsSpace(s[|s| - 1], GoSpace);
    TrimLeftNoop(s, GoSpace);
    TrimRightNoop(s, GoSpace);
  }

  /** Surrounding white space, a plus sign and leading zeros do not change the
      timeout read from the setting. */
  lemma TimeoutLenient(n: int, pre: string, post: string)
    requires 0 < n <= Int64Max
    requires forall k :: 0 <= k < |pre| ==> IsSpace(pre[k], GoSpace)
    requires forall k :: 0 <= k < |post| ==> IsSpace(post[k], GoSpace)
    ensures LlmTimeoutSec(pre + Decimal(n) + post) == n
    ensures LlmTimeoutSec(pre + "+" + Decimal(n) + post) == n
    ensures LlmTimeoutSec(pre + "0" + Decimal(n) + post) == n
  {
    var d := Decimal(n);
    DecimalDigits(n);
    SettingReads(pre, d, post, n);
    AtoiPlus(d);
    PlusSetting(pre, d, post, n);
    AtoiZero(d);
    ZeroSetting(pre, d, post, n);
  }

  lemma PlusSetting(pre: string, d: string, post: string, n: int)
    requires forall k :: 0 <= k < |pre| ==> IsSpace(pre[k], GoSpace)
    requires forall k :: 0 <= k < |post| ==> IsSpace(post[k], GoSpace)
    requires |d| > 0 && !IsSpace(d[|d| - 1], GoSpace)
    requires Atoi(['+'] + d) == Some(n) && n > 0
    ensures LlmTimeoutSec(pre + "+" + d + post) == n
  {
    var plus := ['+'] + d;
    assert pre + "+" + d + post == pre + plus + post by {
      assert "+" + d == plus;
    }
    assert plus[|plus| - 1] == d[|d| - 1];
    SettingReads(pre, plus, post, n);
  }

  lemma ZeroSetting(pre: string, d: string, post: string, n: int)
    requires forall k :: 0 <= k < |pre| ==> IsSpace(pre[k], GoSpace)
    requires forall k :: 0 <= k < |post| ==> IsSpace(post[k], GoSpace)
    requires |d| > 0 && !IsSpace(d[|d| - 1], GoSpace)
    requires Atoi(['0'] + d) == Some(n) && n > 0
    ensures LlmTimeoutSec(pre + "0" + d + post) == n
  {
    var zero := ['0'] + d;
    assert pre + "0" + d + post == pre + zero + post by {
      assert "0" + d == zero;
    }
    assert zero[|zero| - 1] == d[|d| - 1];
    SettingReads(pre, zero, post, n);
  }

  lemma AtoiPlus(d: string)
    requires |d| > 0 && AllDigits(d)
    ensures Atoi(['+'] + d) == Atoi(d)
  {
    var plus := ['+'] + d;
    assert plus[1..] == d;
  }

  lemma AtoiZero(d: string)
    requires |d| > 0 && AllDigits(d)
    ensures Atoi(['0'] + d) == Atoi(d)
  {
    var zero := ['0'] + d;
    CodeNormal.LeadingZeros(1, d);
    assert Repeat('0', 1) + d == zero;
  }

  lemma DecimalDigits(n: int)
    requires 0 < n
    ensures var d := Decimal(n); AllDigits(d) && |d| > 0 && DigitsValue(d) == n
  {
    assert Decimal(n) == NatDigits(n);
    NatDigitsValue(n);
  }

  /** A setting whose core parses to a positive n, surrounded by white space, gives n. */
  lemma SettingReads(pre: string, core: string, post: string, n: int)
    requires forall k :: 0 <= k < |pre| ==> IsSpace(pre[k], GoSpace)
    requires forall k :: 0 <= k < |post| ==> IsSpace(post[k], GoSpace)
    requires |core| > 0 && !IsSpace(core[0], GoSpace) && !IsSpace(core[|core| - 1], GoSpace)
    requires Atoi(core) == Some(n) && n > 0
    ensures LlmTimeoutSec(pre + core + post) == n
  {
    TrimSurrounded(pre, core, post, GoSpace);
  }

  /** A value that is not a positive integer leaves the default in force. */
  lemma TimeoutDefault(env: string)
    requires forall n :: Atoi(Trim(env, GoSpace)) == Some(n) ==> n <= 0
    ensures LlmTimeoutSec(env) == DefaultTimeoutSec
  {
  }

  // ------------------------------------------------------------- .env file

  /** os.Getenv: an unset variable reads as "". */
  function EnvGet(env: map<string, string>, key: string): string
  {
    if key in env then env[key] else ""
  }

  /** The assignment a line of a .env file makes, if any: blank lines, comments,
      lines without '=' or starting with '=', and empty keys or values make none. */
  function ParseEnvLine(raw: string): (r: Option<(string, string)>)
    ensures r.Some? ==> r.value.0 != "" && r.value.1 != ""
    ensures r.Some? ==> Trimmed(r.value.0, GoSpace) && Trimmed(r.value.1, GoSpace)
    ensures var line := Trim(raw, GoSpace);
            line == "" || line[0] == '#' || IndexOf(line, "=") == None || IndexOf(line, "=") == Some(0) ==> r.None?
    ensures r.Some? ==> var line := Trim(raw, GoSpace);
            IndexOf(line, "=").Some? && 0 < IndexOf(line, "=").value
            && r.value == (Trim(line[..IndexOf(line, "=").value], GoSpace), Trim(line[IndexOf(line, "=").value + 1..], GoSpace))
  {
    var line := Trim(raw, GoSpace);
    if line == "" || line[0] == '#' then None
    else
      match IndexOf(line, "=")
      case None => None
      case Some(i) =>
        if i == 0 then None
        else
          var key := Trim(line[..i], GoSpace);
          var val := Trim(line[i + 1..], GoSpace);
          TrimShape(line[..i], GoSpace);
          TrimShape(line[i + 1..], GoSpace);
          if key != "" && val != "" then Some((key, val)) else None
  }

  lemma TrimmedFixed(s: string)
    requires Trimmed(s, GoSpace)
    ensures Trim(s, GoSpace) == s
  {
    TrimLeftNoop(s, GoSpace);
    TrimRightNoop(s, GoSpace);
  }

  lemma AssignmentLineShape(key: string, val: string)
    requires key != "" && val != "" && Trimmed(key, GoSpace) && Trimmed(val, GoSpace) && '=' !in key
    ensures var line := key + "=" + val;
      Trim(line, GoSpace) == line && IndexOf(line, "=") == Some(|key|)
      && line[..|key|] == key && line[|key| + 1..] == val
  {
    var line := key + "=" + val;
    assert line[0] == key[0] && line[|line| - 1] == val[|val| - 1];
    TrimmedFixed(line);
    assert OccursAt(line, "=", |key|);
    forall j | 0 <= j < |key|
      ensures !OccursAt(line, "=", j)
    {
      assert line[j] == key[j];
    }
    IndexOfIs(line, "=", |key|);
    assert line[..|key|] == key && line[|key| + 1..] == val;
  }

  /** A line written as KEY=VALUE is read back as that assignment. */
  lemma ParseEnvLineRoundTrip(key: string, val: string)
    requires key != "" && val != "" && Trimmed(key, GoSpace) && Trimmed(val, GoSpace)
    requires key[0] != '#' && '=' !in key
    ensures ParseEnvLine(key + "=" + val) == Some((key, val))
  {
    AssignmentLineShape(key, val);
    TrimmedFixed(key);
    TrimmedFixed(val);
  }

  /** One line's effect: an assignment is made only when the variable is unset or empty. */
  function ApplyEnvLine(env: map<string, string>, raw: string): map<string, string>
  {
    match ParseEnvLine(raw)
    case Some((key, val)) => if EnvGet(env, key) == "" then env[key := val] else env
    case None => env
  }

  /** The environment after loading the lines of a .env file, in order. */
  function EnvAfter(env: map<string, string>, lines: seq<string>): map<string, string>
    decreases |lines|
  {
    if lines == [] then env else EnvAfter(ApplyEnvLine(env, lines[0]), lines[1..])
  }

  lemma EnvAfterStep(env: map<string, string>, lines: seq<string>, i: nat)
    requires i < |lines|
    ensures EnvAfter(env, lines[i..]) == EnvAfter(ApplyEnvLine(env, lines[i]), lines[i + 1..])
  {
    assert lines[i..][1..] == lines[i + 1..];
  }

  /** A variable that already has a value keeps it. */
  lemma {:induction false} EnvNeverOverwrites(env: map<string, string>, lines: seq<string>, key: string)
    requires EnvGet(env, key) != ""
    ensures EnvGet(EnvAfter(env, lines), key) == EnvGet(env, key)
    decreases |lines|
  {
    if lines != [] {
      EnvNeverOverwrites(ApplyEnvLine(env, lines[0]), lines[1..], key);
    }
  }

  predicate Assigns(raw: string, key: string)
  {
    ParseEnvLine(raw).Some? && ParseEnvLine(raw).value.0 == key
  }

  lemma ApplyOtherLine(env: map<string, string>, raw: string, key: string)
    requires !Assigns(raw, key)
    ensures EnvGet(ApplyEnvLine(env, raw), key) == EnvGet(env, key)
  {
  }

  lemma ApplyAssigningLine(env: map<string, string>, raw: string, key: string)
    requires Assigns(raw, key) && EnvGet(env, key) == ""
    ensures EnvGet(ApplyEnvLine(env, raw), key) == ParseEnvLine(raw).value.1 != ""
  {
  }

  /** For an unset variable, the first line of the file that assigns it wins. */
  lemma EnvFirstAssignmentWins(env: map<string, string>, lines: seq<string>, key: string, j: nat)
    requires EnvGet(env, key) == ""
    requires j < |lines| && Assigns(lines[j], key)
    requires forall i :: 0 <= i < j ==> !Assigns(lines[i], key)
    ensures EnvGet(EnvAfter(env, lines), key) == ParseEnvLine(lines[j]).value.1
  {
    assert lines[0..] == lines;
    FirstAssignmentFrom(env, lines, key, j, 0);
  }

  /** The same, for the lines from `start` on. */
  lemma {:induction false} FirstAssignmentFrom(env: map<string, string>, lines: seq<string>, key: string, j: nat, start: nat)
    requires EnvGet(env, key) == ""
    requires start <= j < |lines| && Assigns(lines[j], key)
    requires forall i :: start <= i < j ==> !Assigns(lines[i], key)
    ensures EnvGet(EnvAfter(env, lines[start..]), key) == ParseEnvLine(lines[j]).value.1
    decreases j - start
  {
    var next := ApplyEnvLine(env, lines[start]);
    EnvAfterStep(env, lines, start);
    if j == start {
      ApplyAssigningLine(env, lines[start], key);
      EnvNeverOverwrites(next, lines[start + 1..], key);
    } else {
      ApplyOtherLine(env, lines[start], key);
      FirstAssignmentFrom(next, lines, key, j, start + 1);
    }
  }

  /** A variable no line assigns is left as it was. */
  lemma {:induction false} EnvUnassignedUnchanged(env: map<string, string>, lines: seq<string>, key: string)
    requires forall i :: 0 <= i < |lines| ==> !Assigns(lines[i], key)
    ensures EnvGet(EnvAfter(env, lines), key) == EnvGet(env, key)
    decreases |lines|
  {
    if lines != [] {
      ApplyOtherLine(env, lines[0], key);
      EnvUnassignedUnchanged(ApplyEnvLine(env, lines[0]), lines[1..], key);
    }
  }

  /** The process environment, which the loader updates in place. */
  class ProcessEnv {
    var vars: map<string, string>

    constructor (initial: map<string, string>)
      ensures vars == initial
    {
      vars := initial;
    }

    function Getenv(key: string): string
      reads this
    {
      EnvGet(vars, key)
    }

    method Setenv(key: string, val: string)
      modifies this
      ensures vars == old(vars)[key := val]
    {
      vars := vars[key := val];
    }

    /** Loads the .env file of the working directory, given as its lines, or None
        when it cannot be opened. */
    method LoadEnv(file: Option<seq<string>>)
      modifies this
      ensures file.None? ==> vars == old(vars)
      ensures file.Some? ==> vars == EnvAfter(old(vars), file.value)
    {
      if file.None? {
        return;
      }
      var lines := file.value;
      var i := 0;
      while i < |lines|
        invariant 0 <= i <= |lines|
        invariant EnvAfter(vars, lines[i..]) == EnvAfter(old(vars), lines)
      {
        EnvAfterStep(vars, lines, i);
        ApplyLine(lines[i]);
        i := i + 1;
      }
    }

    /** One line of the file: set the variable it assigns when it is unset. */
    method ApplyLine(raw: string)
      modifies this
      ensures vars == ApplyEnvLine(old(vars), raw)
    {
      var kv := ParseEnvLine(raw);
      if kv.Some? && Getenv(kv.value.0) == "" {
        Setenv(kv.value.0, kv.value.1);
      }
    }
  }

  // ------------------------------------------------------------ configuration

  const ZhipuBaseUrl := "https://open.bigmodel.cn/api/paas/v4"
  const ZhipuModel := "glm-4-flash"
  const OpenAiBaseUrl := "https://api.openai.com/v1"
  const OpenAiModel := "gpt-4o-mini"

  datatype Config = Config(apiKey: string, baseUrl: string, model: string)

  /** The provider settings: the Zhipu key when set, otherwise the generic
      OpenAI-compatible variables, each with its default. */
  function NewConfig(env: map<string, string>): (c: Config)
    ensures c.baseUrl != "" && c.model != ""
    ensures EnvGet(env, "ZHIPU_API_KEY") != "" ==>
              c.apiKey == EnvGet(env, "ZHIPU_API_KEY") && c.baseUrl == ZhipuBaseUrl
              && (EnvGet(env, "ZHIPU_MODEL") != "" ==> c.model == EnvGet(env, "ZHIPU_MODEL"))
              && (EnvGet(env, "ZHIPU_MODEL") == "" ==> c.model == ZhipuModel)
    ensures EnvGet(env, "ZHIPU_API_KEY") == "" ==>
              c.apiKey == EnvGet(env, "LLM_API_KEY")
              && (EnvGet(env, "LLM_BASE_URL") != "" ==> c.baseUrl == EnvGet(env, "LLM_BASE_URL"))
              && (EnvGet(env, "LLM_BASE_URL") == "" ==> c.baseUrl == OpenAiBaseUrl)
              && (EnvGet(env, "LLM_MODEL") != "" ==> c.model == EnvGet(env, "LLM_MODEL"))
              && (EnvGet(env, "LLM_MODEL") == "" ==> c.model == OpenAiModel)
  {
    var apiKey := EnvGet(env, "ZHIPU_API_KEY");
    var model := if EnvGet(env, "ZHIPU_MODEL") == "" then ZhipuModel else EnvGet(env, "ZHIPU_MODEL");
    if apiKey == "" then
      var baseUrl := if EnvGet(env, "LLM_BASE_URL") == "" then OpenAiBaseUrl else EnvGet(env, "LLM_BASE_URL");
      var model' := if EnvGet(env, "LLM_MODEL") == "" then OpenAiModel else EnvGet(env, "LLM_MODEL");
      Config(EnvGet(env, "LLM_API_KEY"), baseUrl, model')
    else Config(apiKey, ZhipuBaseUrl, model)
  }

  /** The model of a request: the caller's override when non-empty. */
  function ChooseModel(modelOverride: string, configured: string): (model: string)
    ensures modelOverride != "" ==> model == modelOverride
    ensures modelOverride == "" ==> model == configured
  {
    if modelOverride == "" then configured else modelOverride
  }

  // ------------------------------------------------------------- reply content

  /** A field of a decoded JSON object: only string values matter here. */
  datatype Field = StringField(s: string) | OtherField

  /** An element of a structured content list. */
  datatype Part = ObjectPart(fields: map<string, Field>) | OtherPart

  /** The decoded "content" of a chat message: absent, a string, a list of
      parts, or some other JSON value together with its fmt.Sprint form. */
  datatype Content = NoContent | TextContent(s: string) | PartList(parts: seq<Part>) | OtherContent(printed: string)

  /** The text a part contributes: its "text" field when that is a string. */
  function PartText(p: Part): string
  {
    if p.ObjectPart? && "text" in p.fields && p.fields["text"].StringField? then p.fields["text"].s else ""
  }

  /** The in-order concatenation of the parts' texts. */
  function PartsText(parts: seq<Part>): string
  {
    if parts == [] then "" else PartText(parts[0]) + PartsText(parts[1..])
  }

  lemma {:induction false} PartsTextAppend(a: seq<Part>, b: seq<Part>)
    ensures PartsText(a + b) == PartsText(a) + PartsText(b)
  {
    if a == [] {
      assert a + b == b;
    } else {
      assert (a + b)[0] == a[0];
      assert (a + b)[1..] == a[1..] + b;
      PartsTextAppend(a[1..], b);
    }
  }

  /** Parts without a string "text" field contribute nothing. */
  lemma {:induction false} PartsTextSkipsOthers(parts: seq<Part>)
    requires forall k :: 0 <= k < |parts| ==> PartText(parts[k]) == ""
    ensures PartsText(parts) == ""
  {
    if parts != [] {
      PartsTextSkipsOthers(parts[1..]);
    }
  }

  /** The text of a decoded message content, as the reply converter reads it. */
  function ContentText(c: Content): string
  {
    match c
    case NoContent => ""
    case TextContent(s) => s
    case PartList(parts) => PartsText(parts)
    case OtherContent(printed) => printed
  }

  /** Converts a decoded content to text, writing the parts' texts into a builder. */
  method ContentToString(c: Content) returns (s: string)
    ensures c.NoContent? ==> s == ""
    ensures c.TextContent? ==> s == c.s
    ensures c.PartList? ==> s == PartsText(c.parts)
    ensures c.OtherContent? ==> s == c.printed
    ensures s == ContentText(c)
  {
    match c {
      case NoContent =>
        s := "";
      case TextContent(t) =>
        s := t;
      case PartList(parts) =>
        var b := "";
        var i := 0;
        while i < |parts|
          invariant 0 <= i <= |parts|
          invariant b == PartsText(parts[..i])
        {
          var part := parts[i];
          if part.ObjectPart? && "text" in part.fields && part.fields["text"].StringField? {
            b := b + part.fields["text"].s;
          }
          PartsTextAppend(parts[..i], [part]);
          assert parts[..i + 1] == parts[..i] + [part];
          i := i + 1;
        }
        assert parts[..|parts|] == parts;
        s := b;
      case OtherContent(printed) =>
        s := printed;
    }
  }

  // ----------------------------------------------------------------- truncate

  newtype byte = x: int | 0 <= x < 256

  /** The bytes of "..." */
  const Ellipsis: seq<byte> := [46, 46, 46]

  /** Shortens text for a log line: at most `max` bytes are kept and "..." marks a cut. */
  function Truncate(s: seq<byte>, max: nat): (r: seq<byte>)
    ensures |s| <= max ==> r == s
    ensures |s| > max ==> |r| == max + 3 && r[..max] == s[..max] && r[max..] == Ellipsis
    ensures |r| <= |s| + 3 && |r| <= max + 3
  {
    if |s| <= max then s else s[..max] + Ellipsis
  }

  // ------------------------------------------------- blocking reply resolution

  datatype ApiError = ApiError(message: string, code: string)

  /** One choice of a chat-completion reply. */
  datatype Choice = Choice(content: Content, reasoning: string, finishReason: string)

  /** A decoded chat-completion reply. */
  datatype Envelope = Envelope(error: Option<ApiError>, choices: seq<Choice>)

  const NoChoicesError := "LLM 未返回内容"
  const EmptyContentError := "LLM 返回内容为空（可能触发内容策略或模型限制，请稍后重试或换用其他模型）"

  predicate HasApiError(out: Envelope)
  {
    out.error.Some? && out.error.value.message != ""
  }

  /** Turns a decoded reply into the analysis text or an error message. */
  function ResolveReply(out: Envelope): (r: Result<string, string>)
    ensures r.Ok? ==> r.value != "" && Trimmed(r.value, GoSpace)
    ensures r.Ok? ==> !HasApiError(out) && |out.choices| > 0
  {
    if HasApiError(out) then Err("LLM 错误: " + out.error.value.message)
    else if |out.choices| == 0 then Err(NoChoicesError)
    else
      var analysis := Trim(ContentText(out.choices[0].content), GoSpace);
      var analysis' := if analysis == "" then Trim(out.choices[0].reasoning, GoSpace) else analysis;
      TrimShape(ContentText(out.choices[0].content), GoSpace);
      TrimShape(out.choices[0].reasoning, GoSpace);
      if analysis' == "" then Err(EmptyContentError) else Ok(analysis')
  }

  /** An error object with a message wins over everything else in the reply. */
  lemma ApiErrorFirst(out: Envelope)
    requires HasApiError(out)
    ensures ResolveReply(out) == Err("LLM 错误: " + out.error.value.message)
  {
  }

  /** Non-empty content is the answer, trimmed, whatever the reasoning says. */
  lemma ContentWins(out: Envelope)
    requires !HasApiError(out) && |out.choices| > 0
    requires Trim(ContentText(out.choices[0].content), GoSpace) != ""
    ensures ResolveReply(out) == Ok(Trim(ContentText(out.choices[0].content), GoSpace))
  {
  }

  /** Empty content falls back to the reasoning text, trimmed. */
  lemma ReasoningFallback(out: Envelope)
    requires !HasApiError(out) && |out.choices| > 0
    requires Trim(ContentText(out.choices[0].content), GoSpace) == ""
    ensures Trim(out.choices[0].reasoning, GoSpace) != "" ==> ResolveReply(out) == Ok(Trim(out.choices[0].reasoning, GoSpace))
    ensures Trim(out.choices[0].reasoning, GoSpace) == "" ==> ResolveReply(out) == Err(EmptyContentError)
  {
  }

  // ------------------------------------------------------- data for the prompt

  /** The stock service's real-time reply: an RPC error, no quote, or a quote. */
  type QuoteReply = Result<Option<StockInfo>, string>

  /** The stock service's market-summary reply; None entries are nil indices. */
  type SummaryReply = Result<seq<Option<MarketIndex>>, string>

  /** The quote block of the prompt. `fmt2` is %.2f. A failed fetch becomes text. */
  function StockText(reply: QuoteReply, fmt2: real -> string): (t: string)
    ensures t != ""
    ensures reply.Ok? && reply.value.Some? ==>
              HasPrefix(t, "名称=" + reply.value.value.name + ", 代码=")
  {
    match reply
    case Err(e) => "获取行情失败: " + e
    case Ok(None) => "无行情数据"
    case Ok(Some(s)) =>
      "名称=" + s.name + ", 代码=" + s.code + ", 现价=" + fmt2(s.currentPrice) + ", 涨跌幅=" + fmt2(s.changePercent)
      + "%, 成交量=" + Decimal(s.volume)
  }

  function IndexLine(idx: MarketIndex, fmt2: real -> string): string
  {
    idx.name + ": " + fmt2(idx.value) + ", 涨跌" + fmt2(idx.changePercent) + "%, 变动" + fmt2(idx.change)
  }

  /** One line per present index, in order. */
  function IndexLines(indices: seq<Option<MarketIndex>>, fmt2: real -> string): (lines: seq<string>)
    ensures |lines| <= |indices|
  {
    if indices == [] then []
    else (if indices[0].Some? then [IndexLine(indices[0].value, fmt2)] else []) + IndexLines(indices[1..], fmt2)
  }

  lemma {:induction false} IndexLinesAppend(a: seq<Option<MarketIndex>>, b: seq<Option<MarketIndex>>, fmt2: real -> string)
    ensures IndexLines(a + b, fmt2) == IndexLines(a, fmt2) + IndexLines(b, fmt2)
  {
    if a == [] {
      assert a + b == b;
    } else {
      assert (a + b)[0] == a[0];
      assert (a + b)[1..] == a[1..] + b;
      IndexLinesAppend(a[1..], b, fmt2);
    }
  }

  /** The market block of the prompt. */
  function MarketText(reply: SummaryReply, fmt2: real -> string): string
  {
    match reply
    case Err(e) => "获取大盘失败: " + e
    case Ok(indices) => if |indices| == 0 then "无大盘数据" else Join(IndexLines(indices, fmt2), "\n")
  }

  /** Builds the market block, appending one line per present index. */
  method FetchMarketData(reply: SummaryReply, fmt2: real -> string) returns (text: string)
    ensures text == MarketText(reply, fmt2)
    ensures reply.Ok? && |reply.value| > 0 ==> text == Join(IndexLines(reply.value, fmt2), "\n")
  {
    if reply.Err? {
      return "获取大盘失败: " + reply.error;
    }
    var indices := reply.value;
    if |indices| == 0 {
      return "无大盘数据";
    }
    var lines: seq<string> := [];
    var i := 0;
    while i < |indices|
      invariant 0 <= i <= |indices|
      invariant lines == IndexLines(indices[..i], fmt2)
    {
      IndexLinesAppend(indices[..i], [indices[i]], fmt2);
      assert indices[..i + 1] == indices[..i] + [indices[i]];
      if indices[i].Some? {
        lines := lines + [IndexLine(indices[i].value, fmt2)];
      }
      i := i + 1;
    }
    assert indices[..|indices|] == indices;
    text := Join(lines, "\n");
  }

  /** When no line holds a line break, the market block splits back into one
      line per present index. */
  lemma MarketTextLines(indices: seq<Option<MarketIndex>>, fmt2: real -> string)
    requires |IndexLines(indices, fmt2)| > 0
    requires forall k :: 0 <= k < |IndexLines(indices, fmt2)| ==> '\n' !in IndexLines(indices, fmt2)[k]
    ensures Split(MarketText(Ok(indices), fmt2), "\n") == IndexLines(indices, fmt2)
  {
    var lines := IndexLines(indices, fmt2);
    assert MarketText(Ok(indices), fmt2) == Join(lines, ['\n']);
    SplitOfJoin(lines, '\n');
  }

  // ------------------------------------------------------------------ prompts

  /** The caller's request. */
  datatype Query = Query(code: string, days: int, modelOverride: string)

  const ClosedStatus := "港股休市"
  const OpenStatus := "港股盘中（9:30-12:00, 13:00-16:00 香港时间）"
  const ClosedInstruction := "- 当前状态：港股休市（盘后/周末）\n" + "- 重点：结合全日表现与大盘环境，给出下一交易日及未来数日的展望" + "。"
  const OpenInstruction := "- 当前状态：港股盘中交易中\n" + "- 重点：结合实时价格、涨跌幅、成交量与大盘联动，判断尾盘及短期方向" + "。"
  const PromptTail := "\n\n请直接输出你的分析结论。"

  function TradingStatus(trading: bool): string
  {
    if trading then OpenStatus else ClosedStatus
  }

  function PredictionFocus(trading: bool, days: int): string
  {
    if trading then "今日收盘走势及未来 " + Decimal(days) + " 天"
    else "未来 1 个交易日及未来 " + Decimal(days) + " 天走势"
  }

  /** The instruction block as the blocking prompt writes it, with a line break
      on either side. */
  function RawInstruction(trading: bool): string
  {
    "\n" + (if trading then OpenInstruction else ClosedInstruction) + "\n"
  }

  /** The instruction block as the streaming prompt writes it. */
  function Instruction(trading: bool): string
  {
    if trading then OpenInstruction else ClosedInstruction
  }

  /** The common part of both prompts, up to the output requirements. */
  function PromptHead(code: string, stamp: string, trading: bool, days: int, stockText: string, marketText: string): string
  {
    "你是一位港股分析专家（专业基金经理水平）。请根据以下数据对港股 " + code
    + " 做简明分析与预测。\n\n当前时间与状态：" + stamp + "（" + TradingStatus(trading)
    + "）\n\n[个股实时数据]\n" + stockText + "\n\n[大盘指数]\n" + marketText
    + "\n\n请按以下逻辑组织回答（不必逐条标题，但需覆盖要点）：\n"
    + "1. 时间与大盘环境：结合当前是否盘中、大盘涨跌，说明对个股的影响。\n"
    + "2. 个股逻辑：价格、涨跌幅、成交量反映的资金与情绪。\n"
    + "3. 风险提示：若波动剧烈或大盘偏弱，需提示风险。\n"
    + "4. 预测：对「" + PredictionFocus(trading, days) + "」给出方向判断（看多/看空/震荡）及简要理由。\n"
    + "5. 置信度：0～1 之间的数值。\n\n输出要求：\n- 语言：简体中文。\n"
    + "- 风格：专业、客观、简洁（2～4 段即可）。\n- 不要编造未提供的数据。\n"
  }

  /** The prompt of a blocking prediction. */
  function BlockingPrompt(code: string, stamp: string, trading: bool, days: int, stockText: string, marketText: string): string
  {
    PromptHead(code, stamp, trading, days, stockText, marketText) + "\n" + Trim(RawInstruction(trading), GoSpace) + PromptTail
  }

  /** The prompt of a streamed prediction. */
  function StreamPrompt(code: string, stamp: string, trading: bool, days: int, stockText: string, marketText: string): string
  {
    PromptHead(code, stamp, trading, days, stockText, marketText) + Instruction(trading) + PromptTail
  }

  lemma InstructionEnds(trading: bool)
    ensures var ins := Instruction(trading); |ins| > 0 && ins[0] == '-' && !IsSpace(ins[|ins| - 1], GoSpace)
  {
  }

  lemma InstructionTrim(trading: bool)
    ensures Trim(RawInstruction(trading), GoSpace) == Instruction(trading)
  {
    var ins := Instruction(trading);
    InstructionEnds(trading);
    var raw := RawInstruction(trading);
    assert raw == "\n" + ins + "\n";
    assert raw[1..] == ins + "\n";
    assert TrimLeft(raw, GoSpace) == ins + "\n" by {
      TrimLeftNoop(ins + "\n", GoSpace);
    }
    assert (ins + "\n")[..|ins|] == ins;
    TrimRightNoop(ins, GoSpace);
  }

  lemma InsertAt(head: string, mid: string, tail: string)
    ensures var s := head + mid + tail; |head| <= |s| && head + "\n" + mid + tail == s[..|head|] + "\n" + s[|head|..]
  {
    var s := head + mid + tail;
    assert s[..|head|] == head;
    assert s[|head|..] == mid + tail;
  }

  /** The two prompts differ only by one extra line break in front of the
      instruction block in the blocking one. */
  lemma PromptsDifferByOneNewline(code: string, stamp: string, trading: bool, days: int, stockText: string, marketText: string)
    ensures var head := PromptHead(code, stamp, trading, days, stockText, marketText);
            var streamed := StreamPrompt(code, stamp, trading, days, stockText, marketText);
            |head| <= |streamed|
            && BlockingPrompt(code, stamp, trading, days, stockText, marketText)
               == streamed[..|head|] + "\n" + streamed[|head|..]
  {
    InstructionTrim(trading);
    InsertAt(PromptHead(code, stamp, trading, days, stockText, marketText), Instruction(trading), PromptTail);
  }

  // ------------------------------------------------------- blocking prediction

  /** The chat-completion request sent to the provider. */
  datatype ChatRequest = ChatRequest(url: string, model: string, prompt: string, stream: bool)

  /** What the blocking call to the provider gives: the request refused
      before sending (a base URL http.NewRequestWithContext rejects), a
      transport failure, a failure while reading the body, or a status with
      its body and the result of decoding that body. */
  datatype BlockingReply =
    | Unsendable(err: string)
    | CallFailed(err: string)
    | ReadFailed(err: string)
    | Replied(status: int, body: string, decoded: Result<Envelope, string>)

  datatype Prediction = Prediction(analysis: string, confidence: real, newsSummary: string)

  /** The request made, if any, and the result of a blocking prediction. */
  datatype Blocking = Blocking(request: Option<ChatRequest>, result: Result<Prediction, string>)

  const NewsSummary := "参见分析内容。"
  const MissingKeyError := "未配置 ZHIPU_API_KEY 或 LLM_API_KEY"

  const PlaceholderOpen := "【港股 "
  const PlaceholderData := "】\n当前数据："
  const PlaceholderMarket := "\n\n大盘：\n"
  const PlaceholderHint := "\n\n请设置环境变量 ZHIPU_API_KEY 或 LLM_API_KEY 后使用 AI 预测。"

  /** The answer given when no provider key is configured. */
  function PlaceholderAnalysis(code: string, stockText: string, marketText: string): string
  {
    PlaceholderOpen + code + PlaceholderData + stockText + PlaceholderMarket + marketText + PlaceholderHint
  }

  /** The result of a blocking call: each failure becomes its error message;
      a 200 reply that decodes is resolved into the analysis. */
  function BlockingResult(reply: BlockingReply): (r: Result<Prediction, string>)
    ensures r.Ok? ==> r.value.confidence == 0.85 && r.value.analysis != "" && r.value.newsSummary == NewsSummary
    ensures r.Ok? <==> reply.Replied? && reply.status == 200 && reply.decoded.Ok?
                       && ResolveReply(reply.decoded.value).Ok?
    ensures r.Ok? ==> ResolveReply(reply.decoded.value) == Ok(r.value.analysis)
    ensures reply.Unsendable? ==> r == Err(reply.err)
    ensures reply.CallFailed? ==> r == Err("调用 LLM 失败: " + reply.err)
    ensures reply.ReadFailed? ==> r == Err("读取 LLM 响应: " + reply.err)
    ensures reply.Replied? && reply.status != 200 ==> r == Err("LLM 返回 " + Decimal(reply.status) + ": " + reply.body)
    ensures reply.Replied? && reply.status == 200 && reply.decoded.Err? ==>
              r == Err("解析 LLM 响应: " + reply.decoded.error)
    ensures reply.Replied? && reply.status == 200 && reply.decoded.Ok? && ResolveReply(reply.decoded.value).Err? ==>
              r == Err(ResolveReply(reply.decoded.value).error)
  {
    match reply
    case Unsendable(e) => Err(e)
    case CallFailed(e) => Err("调用 LLM 失败: " + e)
    case ReadFailed(e) => Err("读取 LLM 响应: " + e)
    case Replied(status, body, decoded) =>
      if status != 200 then Err("LLM 返回 " + Decimal(status) + ": " + body)
      else
        match decoded
        case Err(e) => Err("解析 LLM 响应: " + e)
        case Ok(out) =>
          match ResolveReply(out)
          case Ok(analysis) => Ok(Prediction(analysis, 0.85, NewsSummary))
          case Err(e) => Err(e)
  }

  /** A blocking prediction: gather the quote and the market summary, then
      either answer with the placeholder (no key) or ask the provider. */
  function Predict(cfg: Config, q: Query, clock: Clock, quote: QuoteReply, summary: SummaryReply,
                   fmt2: real -> string, reply: BlockingReply): (b: Blocking)
    ensures b.request.None? <==> cfg.apiKey == "" || reply.Unsendable?
    ensures cfg.apiKey == "" ==> b.result.Ok? && b.result.value.confidence == 0.5
    ensures cfg.apiKey != "" ==> b.result == BlockingResult(reply)
    ensures b.request.Some? ==> !b.request.value.stream
                                && b.request.value.model == ChooseModel(q.modelOverride, cfg.model)
  {
    var stockText := StockText(quote, fmt2);
    var marketText := MarketText(summary, fmt2);
    if cfg.apiKey == "" then
      Blocking(None, Ok(Prediction(PlaceholderAnalysis(q.code, stockText, marketText), 0.5, NewsSummary)))
    else
      var trading := IsHKTradingTime(clock.weekday, clock.hour, clock.minute);
      var prompt := BlockingPrompt(q.code, clock.stamp, trading, q.days, stockText, marketText);
      var request := ChatRequest(cfg.baseUrl + "/chat/completions", ChooseModel(q.modelOverride, cfg.model), prompt, false);
      Blocking(if reply.Unsendable? then None else Some(request), BlockingResult(reply))
  }

  /** Without a key the answer names the stock and carries both data blocks,
      whatever the provider would have said. */
  lemma PlaceholderAnswer(cfg: Config, q: Query, clock: Clock, quote: QuoteReply, summary: SummaryReply,
                          fmt2: real -> string, reply: BlockingReply)
    requires cfg.apiKey == ""
    ensures var a := Predict(cfg, q, clock, quote, summary, fmt2, reply).result.value.analysis;
            Contains(a, q.code) && Contains(a, StockText(quote, fmt2)) && Contains(a, MarketText(summary, fmt2))
    ensures forall other :: Predict(cfg, q, clock, quote, summary, fmt2, other)
                            == Predict(cfg, q, clock, quote, summary, fmt2, reply)
  {
    var st, mt := StockText(quote, fmt2), MarketText(summary, fmt2);
    PlaceholderParts(q.code, st, mt);
  }

  lemma PlaceholderParts(code: string, st: string, mt: string)
    ensures var a := PlaceholderAnalysis(code, st, mt); Contains(a, code) && Contains(a, st) && Contains(a, mt)
  {
    var s1 := PlaceholderOpen + code;
    var s2 := s1 + PlaceholderData;
    var s3 := s2 + st;
    var s4 := s3 + PlaceholderMarket;
    var s5 := s4 + mt;
    ContainsEnd(PlaceholderOpen, code);
    ContainsGrow(s1, code, PlaceholderData);
    ContainsGrow(s2, code, st);
    ContainsEnd(s2, st);
    ContainsGrow(s3, code, PlaceholderMarket);
    ContainsGrow(s3, st, PlaceholderMarket);
    ContainsGrow(s4, code, mt);
    ContainsGrow(s4, st, mt);
    ContainsEnd(s4, mt);
    ContainsGrow(s5, code, PlaceholderHint);
    ContainsGrow(s5, st, PlaceholderHint);
    ContainsGrow(s5, mt, PlaceholderHint);
  }

  /** The prompt and model of a streamed prediction, or the missing-key error. */
  function BuildPromptForLLM(cfg: Config, q: Query, clock: Clock, quote: QuoteReply, summary: SummaryReply,
                             fmt2: real -> string): (r: Result<(string, string), string>)
    ensures r.Err? <==> cfg.apiKey == ""
    ensures r.Ok? ==> r.value.1 == ChooseModel(q.modelOverride, cfg.model)
  {
    var stockText := StockText(quote, fmt2);
    var marketText := MarketText(summary, fmt2);
    if cfg.apiKey == "" then Err(MissingKeyError)
    else
      var trading := IsHKTradingTime(clock.weekday, clock.hour, clock.minute);
      Ok((StreamPrompt(q.code, clock.stamp, trading, q.days, stockText, marketText), ChooseModel(q.modelOverride, cfg.model)))
  }

  /** `longer` is `shorter` with one line break inserted somewhere. */
  predicate OneMoreNewline(longer: string, shorter: string)
  {
    exists k :: 0 <= k <= |shorter| && longer == shorter[..k] + "\n" + shorter[k..]
  }

  lemma PromptsOneMoreNewline(code: string, stamp: string, trading: bool, days: int, stockText: string, marketText: string)
    ensures OneMoreNewline(BlockingPrompt(code, stamp, trading, days, stockText, marketText),
                           StreamPrompt(code, stamp, trading, days, stockText, marketText))
  {
    PromptsDifferByOneNewline(code, stamp, trading, days, stockText, marketText);
    var k := |PromptHead(code, stamp, trading, days, stockText, marketText)|;
    var streamed := StreamPrompt(code, stamp, trading, days, stockText, marketText);
    assert 0 <= k <= |streamed|
           && BlockingPrompt(code, stamp, trading, days, stockText, marketText) == streamed[..k] + "\n" + streamed[k..];
  }

  /** The request of a blocking prediction with a key. */
  lemma PredictRequest(cfg: Config, q: Query, clock: Clock, quote: QuoteReply, summary: SummaryReply,
                       fmt2: real -> string, reply: BlockingReply)
    requires cfg.apiKey != "" && !reply.Unsendable?
    ensures var trading := IsHKTradingTime(clock.weekday, clock.hour, clock.minute);
            var req := Predict(cfg, q, clock, quote, summary, fmt2, reply).request.value;
            req.model == ChooseModel(q.modelOverride, cfg.model)
            && req.prompt == BlockingPrompt(q.code, clock.stamp, trading, q.days, StockText(quote, fmt2), MarketText(summary, fmt2))
  {
  }

  /** With a key, both call shapes send the same model and prompts that differ
      by one line break. */
  lemma CallShapesAgree(cfg: Config, q: Query, clock: Clock, quote: QuoteReply, summary: SummaryReply,
                        fmt2: real -> string, reply: BlockingReply)
    requires cfg.apiKey != "" && !reply.Unsendable?
    ensures var req := Predict(cfg, q, clock, quote, summary, fmt2, reply).request.value;
            var built := BuildPromptForLLM(cfg, q, clock, quote, summary, fmt2).value;
            req.model == built.1 && OneMoreNewline(req.prompt, built.0)
  {
    var trading := IsHKTradingTime(clock.weekday, clock.hour, clock.minute);
    PredictRequest(cfg, q, clock, quote, summary, fmt2, reply);
    PromptsOneMoreNewline(q.code, clock.stamp, trading, q.days, StockText(quote, fmt2), MarketText(summary, fmt2));
  }

  // ------------------------------------------------------- streamed prediction

  /** The delta of one decoded stream chunk. */
  datatype Delta = Delta(content: string, reasoning: string)

  /** Which field of the delta a fragment was taken from. */
  datatype Channel = ContentChannel | ReasoningChannel

  /** A text fragment handed to the callback. */
  datatype Emission = Emission(channel: Channel, text: string)

  /** What the loop does with one line. */
  datatype LineStep = Skip | Stop | Emit(emission: Emission)

  const DataPrefix := "data: "
  const DoneSentinel := "[DONE]"

  /** The fragment of a delta: its content, or its reasoning text when the
      content is empty; nothing when both are empty. */
  function DeltaEmission(d: Delta): (e: Option<Emission>)
    ensures e.Some? ==> e.value.text != ""
    ensures e.Some? ==> (e.value.channel == ContentChannel <==> d.content != "")
    ensures e.None? <==> d.content == "" && d.reasoning == ""
  {
    if d.content != "" then Some(Emission(ContentChannel, d.content))
    else if d.reasoning != "" then Some(Emission(ReasoningChannel, d.reasoning))
    else None
  }

  /** One line of the provider's stream; `decode` is the JSON decoding of a
      chunk's choices (None when the payload does not decode). */
  function LineStepOf(raw: string, decode: string -> Option<seq<Delta>>): (step: LineStep)
    ensures !HasPrefix(Trim(raw, GoSpace), DataPrefix) ==> step == Skip
    ensures step.Emit? ==> step.emission.text != ""
  {
    var line := Trim(raw, GoSpace);
    if line == "" || !HasPrefix(line, DataPrefix) then Skip
    else
      var payload := line[|DataPrefix|..];
      if payload == DoneSentinel then Stop
      else
        match decode(payload)
        case None => Skip
        case Some(choices) =>
          if |choices| == 0 then Skip
          else
            match DeltaEmission(choices[0])
            case None => Skip
            case Some(e) => Emit(e)
  }

  /** What the loop does with each line. */
  function StepsOf(lines: seq<string>, decode: string -> Option<seq<Delta>>): (steps: seq<LineStep>)
    ensures |steps| == |lines| && forall k :: 0 <= k < |lines| ==> steps[k] == LineStepOf(lines[k], decode)
  {
    seq(|lines|, k requires 0 <= k < |lines| => LineStepOf(lines[k], decode))
  }

  /** The fragments of a run of steps, in order, up to the first Stop. */
  function Fragments(steps: seq<LineStep>): seq<Emission>
  {
    if steps == [] then []
    else
      match steps[0]
      case Stop => []
      case Skip => Fragments(steps[1..])
      case Emit(e) => [e] + Fragments(steps[1..])
  }

  predicate HasStop(steps: seq<LineStep>)
  {
    steps != [] && (steps[0] == Stop || HasStop(steps[1..]))
  }

  /** The fragments of a stream, in line order, up to the sentinel. */
  function Emissions(lines: seq<string>, decode: string -> Option<seq<Delta>>): seq<Emission>
  {
    Fragments(StepsOf(lines, decode))
  }

  /** Whether the stream holds the sentinel. */
  predicate ReachesDone(lines: seq<string>, decode: string -> Option<seq<Delta>>)
  {
    HasStop(StepsOf(lines, decode))
  }

  /** The index of the first callback call that fails, among the first n. */
  function FirstFailureFrom(onChunk: nat -> Option<string>, i: nat, n: nat): (r: Option<nat>)
    ensures r.Some? ==> i <= r.value < n && onChunk(r.value).Some?
                        && forall j :: i <= j < r.value ==> onChunk(j).None?
    ensures r.None? ==> forall j :: i <= j < n ==> onChunk(j).None?
    decreases n - i
  {
    if i >= n then None
    else if onChunk(i).Some? then Some(i)
    else FirstFailureFrom(onChunk, i + 1, n)
  }

  function FirstFailure(onChunk: nat -> Option<string>, n: nat): Option<nat>
  {
    FirstFailureFrom(onChunk, 0, n)
  }

  lemma {:induction false} FirstFailureIs(onChunk: nat -> Option<string>, i: nat, n: nat, k: nat)
    requires i <= k < n && onChunk(k).Some? && forall j :: i <= j < k ==> onChunk(j).None?
    ensures FirstFailureFrom(onChunk, i, n) == Some(k)
    decreases k - i
  {
    if i < k {
      FirstFailureIs(onChunk, i + 1, n, k);
    }
  }

  /** The calls made and the error returned by the loop over a run of steps.
      `onChunk(k)` is what the k-th callback call returns; `scanErr` is the
      scanner's error once the lines run out. */
  function StepsOutcome(steps: seq<LineStep>, onChunk: nat -> Option<string>, scanErr: Option<string>)
    : (seq<Emission>, Option<string>)
  {
    var ems := Fragments(steps);
    match FirstFailure(onChunk, |ems|)
    case Some(k) => (ems[..k + 1], onChunk(k))
    case None => (ems, if HasStop(steps) then None else scanErr)
  }

  /** The calls made and the error returned by the stream loop over the lines. */
  function StreamLinesOutcome(lines: seq<string>, decode: string -> Option<seq<Delta>>,
                              onChunk: nat -> Option<string>, scanErr: Option<string>): (seq<Emission>, Option<string>)
  {
    StepsOutcome(StepsOf(lines, decode), onChunk, scanErr)
  }

  /** The stream loop: reads the lines in order, stops at the sentinel, and
      hands each fragment to the callback, returning its first error. */
  method RunStreamLines(lines: seq<string>, decode: string -> Option<seq<Delta>>,
                        onChunk: nat -> Option<string>, scanErr: Option<string>)
    returns (calls: seq<Emission>, err: Option<string>)
    ensures (calls, err) == StreamLinesOutcome(lines, decode, onChunk, scanErr)
  {
    ghost var steps := StepsOf(lines, decode);
    calls := [];
    var i := 0;
    assert steps[0..] == steps;
    while i < |lines|
      invariant 0 <= i <= |lines|
      invariant LoopState(steps, i, calls, onChunk)
    {
      var step := LineStepOf(lines[i], decode);
      assert step == steps[i];
      match step {
        case Stop =>
          OutcomeAtStop(steps, i, calls, onChunk, scanErr);
          return calls, None;
        case Skip =>
          LoopAdvance(steps, i, calls, onChunk);
        case Emit(e) =>
          var k := |calls|;
          var failure := onChunk(k);
          if failure.Some? {
            OutcomeAtFailure(steps, i, calls, onChunk, scanErr);
            return calls + [e], failure;
          }
          LoopAdvance(steps, i, calls, onChunk);
          calls := calls + [e];
      }
      i := i + 1;
    }
    OutcomeAtEnd(steps, calls, onChunk, scanErr);
    err := scanErr;
  }

  /** The loop's invariant after i steps: the calls made so far followed by
      the fragments of the remaining steps are all the fragments, and no call
      has failed yet. */
  ghost predicate LoopState(steps: seq<LineStep>, i: nat, calls: seq<Emission>, onChunk: nat -> Option<string>)
  {
    i <= |steps|
    && Fragments(steps) == calls + Fragments(steps[i..])
    && HasStop(steps) == HasStop(steps[i..])
    && forall j :: 0 <= j < |calls| ==> onChunk(j).None?
  }

  /** How the fragments and the sentinel test unfold at step i. */
  lemma StepUnfold(steps: seq<LineStep>, i: nat)
    requires i < |steps|
    ensures Fragments(steps[i..]) ==
              match steps[i]
              case Stop => []
              case Skip => Fragments(steps[i + 1..])
              case Emit(e) => [e] + Fragments(steps[i + 1..])
    ensures HasStop(steps[i..]) == (steps[i] == Stop || HasStop(steps[i + 1..]))
  {
    assert steps[i..][0] == steps[i];
    assert steps[i..][1..] == steps[i + 1..];
  }

  lemma OutcomeAtStop(steps: seq<LineStep>, i: nat, calls: seq<Emission>,
                      onChunk: nat -> Option<string>, scanErr: Option<string>)
    requires i < |steps| && LoopState(steps, i, calls, onChunk) && steps[i] == Stop
    ensures (calls, None) == StepsOutcome(steps, onChunk, scanErr)
  {
    StepUnfold(steps, i);
    assert Fragments(steps) == calls;
    assert FirstFailure(onChunk, |calls|) == None;
  }

  lemma OutcomeAtFailure(steps: seq<LineStep>, i: nat, calls: seq<Emission>,
                         onChunk: nat -> Option<string>, scanErr: Option<string>)
    requires i < |steps| && LoopState(steps, i, calls, onChunk)
    requires steps[i].Emit? && onChunk(|calls|).Some?
    ensures (calls + [steps[i].emission], onChunk(|calls|)) == StepsOutcome(steps, onChunk, scanErr)
  {
    StepUnfold(steps, i);
    var k := |calls|;
    var all := calls + [steps[i].emission];
    var ems := Fragments(steps);
    assert ems == all + Fragments(steps[i + 1..]);
    FirstFailureIs(onChunk, 0, |ems|, k);
    assert all == ems[..k + 1];
  }

  lemma LoopAdvance(steps: seq<LineStep>, i: nat, calls: seq<Emission>, onChunk: nat -> Option<string>)
    requires i < |steps| && LoopState(steps, i, calls, onChunk) && steps[i] != Stop
    requires steps[i].Emit? ==> onChunk(|calls|).None?
    ensures steps[i].Skip? ==> LoopState(steps, i + 1, calls, onChunk)
    ensures steps[i].Emit? ==> LoopState(steps, i + 1, calls + [steps[i].emission], onChunk)
  {
    StepUnfold(steps, i);
    if steps[i].Emit? {
      var all := calls + [steps[i].emission];
      assert Fragments(steps) == all + Fragments(steps[i + 1..]);
    }
  }

  lemma OutcomeAtEnd(steps: seq<LineStep>, calls: seq<Emission>, onChunk: nat -> Option<string>, scanErr: Option<string>)
    requires LoopState(steps, |steps|, calls, onChunk)
    ensures (calls, scanErr) == StepsOutcome(steps, onChunk, scanErr)
  {
    assert steps[|steps|..] == [];
    assert Fragments(steps) == calls && !HasStop(steps);
    assert FirstFailure(onChunk, |calls|) == None;
  }

  /** Every fragment handed to the callback is non-empty. */
  lemma {:induction false} FragmentsNonEmpty(steps: seq<LineStep>)
    requires forall k :: 0 <= k < |steps| && steps[k].Emit? ==> steps[k].emission.text != ""
    ensures forall k :: 0 <= k < |Fragments(steps)| ==> Fragments(steps)[k].text != ""
  {
    if steps != [] {
      FragmentsNonEmpty(steps[1..]);
    }
  }

  lemma EmissionsNonEmpty(lines: seq<string>, decode: string -> Option<seq<Delta>>)
    ensures forall k :: 0 <= k < |Emissions(lines, decode)| ==> Emissions(lines, decode)[k].text != ""
  {
    var steps := StepsOf(lines, decode);
    forall k | 0 <= k < |steps| && steps[k].Emit?
      ensures steps[k].emission.text != ""
    {
      assert steps[k] == LineStepOf(lines[k], decode);
    }
    FragmentsNonEmpty(steps);
  }

  lemma {:induction false} FragmentsAppend(a: seq<LineStep>, b: seq<LineStep>)
    requires !HasStop(a)
    ensures Fragments(a + b) == Fragments(a) + Fragments(b)
  {
    if a == [] {
      assert a + b == b;
    } else {
      assert (a + b)[0] == a[0];
      assert (a + b)[1..] == a[1..] + b;
      FragmentsAppend(a[1..], b);
    }
  }

  lemma StepsOfAppend(a: seq<string>, b: seq<string>, decode: string -> Option<seq<Delta>>)
    ensures StepsOf(a + b, decode) == StepsOf(a, decode) + StepsOf(b, decode)
  {
    var l, r := StepsOf(a + b, decode), StepsOf(a, decode) + StepsOf(b, decode);
    forall k | 0 <= k < |l| ensures l[k] == r[k] {
      if k < |a| {
        assert (a + b)[k] == a[k];
      } else {
        assert (a + b)[k] == b[k - |a|];
      }
    }
  }

  /** Fragments come out in line order: the stream of a concatenation is the
      concatenation of the streams when the first part has no sentinel. */
  lemma EmissionsAppend(a: seq<string>, b: seq<string>, decode: string -> Option<seq<Delta>>)
    requires !ReachesDone(a, decode)
    ensures Emissions(a + b, decode) == Emissions(a, decode) + Emissions(b, decode)
  {
    StepsOfAppend(a, b, decode);
    FragmentsAppend(StepsOf(a, decode), StepsOf(b, decode));
  }

  lemma {:induction false} FragmentsStopAt(steps: seq<LineStep>, j: nat)
    requires j < |steps| && steps[j] == Stop
    ensures Fragments(steps) == Fragments(steps[..j]) && HasStop(steps)
  {
    if j > 0 {
      FragmentsStopAt(steps[1..], j - 1);
      assert steps[..j][0] == steps[0];
      assert steps[..j][1..] == steps[1..][..j - 1];
    } else {
      assert steps[..0] == [];
    }
  }

  /** Nothing after the sentinel is read. */
  lemma SentinelEndsStream(lines: seq<string>, j: nat, decode: string -> Option<seq<Delta>>)
    requires j < |lines| && LineStepOf(lines[j], decode) == Stop
    ensures Emissions(lines, decode) == Emissions(lines[..j], decode)
    ensures ReachesDone(lines, decode)
  {
    FragmentsStopAt(StepsOf(lines, decode), j);
    assert StepsOf(lines, decode)[..j] == StepsOf(lines[..j], decode);
  }

  /** A skipped line neither emits nor ends the stream. */
  lemma SkippedLine(raw: string, rest: seq<string>, decode: string -> Option<seq<Delta>>)
    requires LineStepOf(raw, decode) == Skip
    ensures Emissions([raw] + rest, decode) == Emissions(rest, decode)
    ensures ReachesDone([raw] + rest, decode) == ReachesDone(rest, decode)
  {
    var steps := StepsOf([raw] + rest, decode);
    assert steps[0] == Skip;
    assert steps[1..] == StepsOf(rest, decode);
  }

  /** A data line read as is: its trimmed form is itself and its payload
      follows the prefix. */
  lemma DataLine(payload: string)
    requires Trimmed(payload, GoSpace) && payload != ""
    ensures var line := DataPrefix + payload;
            Trim(line, GoSpace) == line && HasPrefix(line, DataPrefix) && line[|DataPrefix|..] == payload
  {
    var line := DataPrefix + payload;
    assert line[0] == 'd' && line[|line| - 1] == payload[|payload| - 1];
    TrimLeftNoop(line, GoSpace);
    TrimRightNoop(line, GoSpace);
    assert line[..|DataPrefix|] == DataPrefix && line[|DataPrefix|..] == payload;
  }

  /** Only lines that start with "data: " once trimmed are considered. */
  lemma OtherLinesSkipped(raw: string, rest: seq<string>, decode: string -> Option<seq<Delta>>)
    requires !HasPrefix(Trim(raw, GoSpace), DataPrefix)
    ensures Emissions([raw] + rest, decode) == Emissions(rest, decode)
    ensures ReachesDone([raw] + rest, decode) == ReachesDone(rest, decode)
  {
    SkippedLine(raw, rest, decode);
  }

  /** A data line whose payload does not decode changes nothing. */
  lemma MalformedSkipped(payload: string, rest: seq<string>, decode: string -> Option<seq<Delta>>)
    requires payload != DoneSentinel && decode(payload) == None
    requires Trimmed(payload, GoSpace) && payload != ""
    ensures Emissions([DataPrefix + payload] + rest, decode) == Emissions(rest, decode)
    ensures ReachesDone([DataPrefix + payload] + rest, decode) == ReachesDone(rest, decode)
  {
    DataLine(payload);
    SkippedLine(DataPrefix + payload, rest, decode);
  }

  /** A chunk with no choices changes nothing. */
  lemma EmptyChoicesSkipped(payload: string, rest: seq<string>, decode: string -> Option<seq<Delta>>)
    requires payload != DoneSentinel && decode(payload) == Some([])
    requires Trimmed(payload, GoSpace) && payload != ""
    ensures Emissions([DataPrefix + payload] + rest, decode) == Emissions(rest, decode)
    ensures ReachesDone([DataPrefix + payload] + rest, decode) == ReachesDone(rest, decode)
  {
    DataLine(payload);
    SkippedLine(DataPrefix + payload, rest, decode);
  }

  /** The reply of the streaming call: the request refused before sending (a
      base URL http.NewRequestWithContext rejects), a transport failure, or a
      status with the body (for a failure status) and the body's lines with
      the scanner's final error. */
  datatype StreamReply =
    | StreamUnsendable(err: string)
    | StreamCallFailed(err: string)
    | StreamReplied(status: int, body: string, lines: seq<string>, scanErr: Option<string>)

  /** The callback calls made and the error returned by a streamed
      prediction. No fragment is emitted, and no error is missing, unless the
      key is set and the provider answered 200. */
  function StreamOutcome(cfg: Config, reply: StreamReply, decode: string -> Option<seq<Delta>>,
                         onChunk: nat -> Option<string>): (r: (seq<Emission>, Option<string>))
    ensures r.0 != [] || r.1.None? ==> cfg.apiKey != "" && reply.StreamReplied? && reply.status == 200
    ensures cfg.apiKey == "" ==> r.1 == Some(MissingKeyError)
  {
    if cfg.apiKey == "" then ([], Some(MissingKeyError))
    else
      match reply
      case StreamUnsendable(e) => ([], Some(e))
      case StreamCallFailed(e) => ([], Some("调用 LLM 失败: " + e))
      case StreamReplied(status, body, lines, scanErr) =>
        if status != 200 then ([], Some("LLM 返回 " + Decimal(status) + ": " + body))
        else StreamLinesOutcome(lines, decode, onChunk, scanErr)
  }

  /** A streamed prediction: build the prompt, call the provider, then run the
      line loop; returns the request made, the callback calls and the error. */
  method StreamPredict(cfg: Config, q: Query, clock: Clock, quote: QuoteReply, summary: SummaryReply,
                       fmt2: real -> string, reply: StreamReply, decode: string -> Option<seq<Delta>>,
                       onChunk: nat -> Option<string>)
    returns (request: Option<ChatRequest>, calls: seq<Emission>, err: Option<string>)
    ensures cfg.apiKey == "" ==> request == None && calls == [] && err == Some(MissingKeyError)
    ensures cfg.apiKey != "" && reply.StreamUnsendable? ==>
              request == None && calls == [] && err == Some(reply.err)
    ensures cfg.apiKey != "" && !reply.StreamUnsendable? ==>
              request.Some? && request.value.stream && request.value.url == cfg.baseUrl + "/chat/completions"
              && (request.value.prompt, request.value.model) == BuildPromptForLLM(cfg, q, clock, quote, summary, fmt2).value
    ensures cfg.apiKey != "" && reply.StreamCallFailed? ==>
              calls == [] && err == Some("调用 LLM 失败: " + reply.err)
    ensures cfg.apiKey != "" && reply.StreamReplied? && reply.status != 200 ==>
              calls == [] && err == Some("LLM 返回 " + Decimal(reply.status) + ": " + reply.body)
    ensures cfg.apiKey != "" && reply.StreamReplied? && reply.status == 200 ==>
              (calls, err) == StreamLinesOutcome(reply.lines, decode, onChunk, reply.scanErr)
    ensures (calls, err) == StreamOutcome(cfg, reply, decode, onChunk)
  {
    var built := BuildPromptForLLM(cfg, q, clock, quote, summary, fmt2);
    if built.Err? {
      return None, [], Some(built.error);
    }
    var (prompt, model) := built.value;
    if reply.StreamUnsendable? {
      return None, [], Some(reply.err);
    }
    request := Some(ChatRequest(cfg.baseUrl + "/chat/completions", model, prompt, true));
    if reply.StreamCallFailed? {
      calls, err := [], Some("调用 LLM 失败: " + reply.err);
    } else if reply.status != 200 {
      calls, err := [], Some("LLM 返回 " + Decimal(reply.status) + ": " + reply.body);
    } else {
      calls, err := RunStreamLines(reply.lines, decode, onChunk, reply.scanErr);
    }
  }
}
