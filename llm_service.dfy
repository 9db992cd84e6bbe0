/**
 * The AI analysis of an event: dispatch on the configured provider, the mapping
 * of an HTTP reply to an error message, the extraction of the reply's text, and
 * the normalisation of the model's JSON answer into an `AIAnalysisResult`.
 *
 * The network is a parameter: the reply the provider's endpoint gives. So is
 * `JSON.parse`, as a function from text to a JSON value (`None` when it throws).
 */
module LlmService {
  import opened Wrappers
  import opened Types
  import JsText

  /** A JSON value; numbers are integers in this model. */
  datatype Json = JNull | JBool(b: bool) | JNum(n: int) | JStr(s: string) | JArr(items: seq<Json>) | JObj(fields: map<string, Json>)

  /** What `fetch` gives: a thrown network failure, or a status line and a body (`None` when it is not JSON). */
  datatype HttpReply = ConnectionError | Reply(status: int, statusText: string, body: Option<Json>)

  // ---- JavaScript coercions of JSON values -----------------------------------------------------------

  /** Truthiness of a property value; `None` is `undefined`. */
  predicate Truthy(v: Option<Json>) {
    match v
    case None => false
    case Some(j) =>
      match j
      case JNull => false
      case JBool(b) => b
      case JNum(n) => n != 0
      case JStr(s) => s != ""
      case JArr(_) => true
      case JObj(_) => true
  }

  /** `String(v)` of a JSON value. */
  function JsString(j: Json): string
    decreases j, 1
  {
    match j
    case JNull => "null"
    case JBool(b) => if b then "true" else "false"
    case JNum(n) => JsText.IntToString(n)
    case JStr(s) => s
    case JArr(items) => ArrayText(items)
    case JObj(_) => "[object Object]"
  }

  /** `items.join(",")`, where a `null` element contributes "". */
  function ArrayText(items: seq<Json>): string
    decreases items, 0
  {
    if items == [] then ""
    else
      var first := if items[0].JNull? then "" else JsString(items[0]);
      if |items| == 1 then first else first + "," + ArrayText(items[1..])
  }

  /** `Number(v)` of a property value; `None` is NaN. */
  function JsNumber(v: Option<Json>): Option<int> {
    match v
    case None => None
    case Some(j) =>
      match j
      case JNull => Some(0)
      case JBool(b) => Some(if b then 1 else 0)
      case JNum(n) => Some(n)
      case JStr(s) => JsText.ParseNumber(s)
      case JArr(items) => JsText.ParseNumber(ArrayText(items))
      case JObj(_) => None
  }

  /** A property of a non-null value: an object's own field; other values have none of the fields read here. */
  function Member(j: Json, key: string): Option<Json> {
    if j.JObj? && key in j.fields then Some(j.fields[key]) else None
  }

  // ---- parseResponse -------------------------------------------------------------------------------

  const Fence := "```"

  /** `/^```(?:json)?\n?/` removed from a text that starts with the fence. */
  function DropOpeningFence(s: string): string
    requires JsText.StartsWith(s, Fence)
  {
    var t := s[3..];
    var u := if JsText.StartsWith(t, "json") then t[4..] else t;
    if JsText.StartsWith(u, "\n") then u[1..] else u
  }

  /** `/\n?```$/` removed: the closing fence with the newline before it, if there is one. */
  function DropClosingFence(s: string): string {
    if JsText.EndsWith(s, "\n" + Fence) then s[..|s| - 4]
    else if JsText.EndsWith(s, Fence) then s[..|s| - 3]
    else s
  }

  /** The answer text with surrounding white space and a Markdown code fence removed. */
  function StripFences(raw: string): string {
    var cleaned := JsText.Trim(raw);
    if JsText.StartsWith(cleaned, Fence) then DropClosingFence(DropOpeningFence(cleaned)) else cleaned
  }

  const ParseFailure := "Failed to parse AI response as JSON."
  const DefaultSummary := "No analysis available."

  /** `Math.max(1, Math.min(10, x))`. */
  function Clamp(x: int): int {
    if x < 1 then 1 else if x > 10 then 10 else x
  }

  /** `Number(parsed.severity) || 5`, rounded (integers are their own rounding) and clamped to 1..10. */
  function SeverityOf(v: Option<Json>): int {
    var n := JsNumber(v);
    Clamp(if n.None? || n.value == 0 then 5 else n.value)
  }

  /** `String(v || "")`. */
  function FieldText(v: Option<Json>): string {
    if Truthy(v) then JsString(v.value) else ""
  }

  /** The parsed answer made into a result: unknown enumeration values defaulted, severity clamped. */
  function Normalise(parsed: Json): (r: Result<AIAnalysisResult>)
    ensures r.Ok? ==> r.value.eventType in EventTypeNames && r.value.impact in ImpactNames
    ensures r.Ok? ==> 1 <= r.value.severity <= 10 && r.value.summary != ""
    ensures r.Err? <==> parsed.JNull?
  {
    if parsed.JNull? then Err("Cannot read properties of null (reading 'eventType')")
    else
      var eventType := FieldText(Member(parsed, "eventType"));
      var impact := FieldText(Member(parsed, "impact"));
      var summary := FieldText(Member(parsed, "summary"));
      Ok(AIAnalysisResult(
        if eventType in EventTypeNames then eventType else "Meeting",
        if impact in ImpactNames then impact else "Neutral",
        SeverityOf(Member(parsed, "severity")),
        if summary != "" then summary else DefaultSummary))
  }

  /** `parseResponse`: fences stripped, the text parsed as JSON, the result normalised. */
  function ParseResponse(raw: string, parse: string -> Option<Json>): (r: Result<AIAnalysisResult>)
    ensures r.Ok? ==> IsValidResult(r.value)
    ensures r.Err? <==> parse(StripFences(raw)).None? || parse(StripFences(raw)) == Some(JNull)
    ensures parse(StripFences(raw)).None? ==> r == Err(ParseFailure)
  {
    match parse(StripFences(raw))
    case None => Err(ParseFailure)
    case Some(parsed) => Normalise(parsed)
  }

  // ---- The reply -----------------------------------------------------------------------------------

  const ConnectionFailed := "Connection failed. Please check your network connection."
  const InvalidKey := "Invalid API key. Please check your key in Settings."
  const RateLimited := "Rate limit exceeded. Please try again in a moment."
  const Unavailable := "AI service is temporarily unavailable. Please try again later."

  /** `fetchWithErrorHandling`: a failure message for a thrown fetch or a status outside 200..299, else the body. */
  function CheckReply(reply: HttpReply): Result<Option<Json>> {
    match reply
    case ConnectionError => Err(ConnectionFailed)
    case Reply(status, statusText, body) =>
      if 200 <= status <= 299 then Ok(body)
      else if status == 401 then Err(InvalidKey)
      else if status == 429 then Err(RateLimited)
      else if status == 500 || status == 502 || status == 503 then Err(Unavailable)
      else Err("API error: " + JsText.IntToString(status) + " " + statusText)
  }

  /** One step of an optional chain: `?.key` or `?.[i]`. */
  datatype PathStep = Key(key: string) | Index(i: nat)

  /** An optional chain followed from a value; `None` (undefined) once a step finds nothing. */
  function FollowPath(v: Option<Json>, path: seq<PathStep>): Option<Json>
    decreases |path|
  {
    if path == [] || v.None? then v
    else
      var next := match path[0]
        case Key(k) => Member(v.value, k)
        case Index(i) => if v.value.JArr? && i < |v.value.items| then Some(v.value.items[i]) else None;
      FollowPath(next, path[1..])
  }

  /** Where each provider's reply carries the answer text. */
  function ContentPath(p: Provider): seq<PathStep> {
    match p
    case OpenAI => [Key("choices"), Index(0), Key("message"), Key("content")]
    case Anthropic => [Key("content"), Index(0), Key("text")]
    case Google => [Key("candidates"), Index(0), Key("content"), Key("parts"), Index(0), Key("text")]
  }

  function Label(p: Provider): string {
    match p
    case OpenAI => "OpenAI"
    case Anthropic => "Anthropic"
    case Google => "Google"
  }

  /** The provider a configuration names, if it names one. */
  function ProviderOf(name: string): (p: Option<Provider>)
    ensures p.Some? ==> p.value.Name() == name
  {
    if name == "openai" then Some(OpenAI)
    else if name == "anthropic" then Some(Anthropic)
    else if name == "google" then Some(Google)
    else None
  }

  /** The answer read from a successful reply: empty content fails, text is parsed. */
  function ContentResult(p: Provider, data: Json, parse: string -> Option<Json>): Result<AIAnalysisResult> {
    if data.JNull? then Err("Cannot read properties of null")
    else
      var content := FollowPath(Some(data), ContentPath(p));
      if !Truthy(content) then Err("Empty response from " + Label(p))
      else if content.value.JStr? then ParseResponse(content.value.s, parse)
      else Err("raw.trim is not a function")
  }

  /** `analyzeEvent`: dispatch on the provider, then the reply checked, its text extracted and parsed. */
  function AnalyzeEvent(config: LLMConfig, reply: HttpReply, parse: string -> Option<Json>): Result<AIAnalysisResult> {
    match ProviderOf(config.provider)
    case None => Err("Unsupported provider: " + config.provider)
    case Some(p) =>
      match CheckReply(reply)
      case Err(m) => Err(m)
      case Ok(body) =>
        if body.None? then Err("Unexpected token in JSON") else ContentResult(p, body.value, parse)
  }

  // ---- What the service promises ----------------------------------------------------------------------

  /** Each provider's configuration name selects it, and nothing else selects a provider. */
  lemma ProviderOfName(p: Provider)
    ensures ProviderOf(p.Name()) == Some(p)
    ensures forall name :: ProviderOf(name).Some? <==> name in ["openai", "anthropic", "google"]
  {
  }

  /** An unknown provider fails before any request, whatever the network would answer. */
  lemma UnsupportedProviderFails(config: LLMConfig, reply: HttpReply, parse: string -> Option<Json>)
    requires config.provider != "openai" && config.provider != "anthropic" && config.provider != "google"
    ensures AnalyzeEvent(config, reply, parse) == Err("Unsupported provider: " + config.provider)
  {
  }

  /**
   * A reply passes exactly when fetch did not throw and its status is in 200..299;
   * a failure carries one message per class of status, and any other status is
   * named, so its number reads back from the message.
   */
  lemma ReplyStatusMapping(reply: HttpReply)
    ensures CheckReply(reply).Ok? <==> reply.Reply? && 200 <= reply.status <= 299
    ensures reply.ConnectionError? ==> CheckReply(reply) == Err(ConnectionFailed)
    ensures reply.Reply? && reply.status == 401 ==> CheckReply(reply) == Err(InvalidKey)
    ensures reply.Reply? && reply.status == 429 ==> CheckReply(reply) == Err(RateLimited)
    ensures reply.Reply? && reply.status in {500, 502, 503} ==> CheckReply(reply) == Err(Unavailable)
    ensures reply.Reply? && !(200 <= reply.status <= 299) && reply.status !in {401, 429, 500, 502, 503} ==>
      var m := CheckReply(reply).message;
      var digits := JsText.IntToString(reply.status);
      && JsText.StartsWith(m, "API error: ")
      && m[11..11 + |digits|] == digits
      && JsText.ParseNumber(m[11..11 + |digits|]) == Some(reply.status)
  {
    if reply.Reply? && !(200 <= reply.status <= 299) && reply.status !in {401, 429, 500, 502, 503} {
      ApiErrorNamesStatus(reply.status, reply.statusText);
      JsText.ParseNumberIntToString(reply.status);
    }
  }

  /** The generic failure message carries the status in decimal right after its prefix. */
  lemma ApiErrorNamesStatus(status: int, statusText: string)
    ensures var m := "API error: " + JsText.IntToString(status) + " " + statusText;
      var digits := JsText.IntToString(status);
      && JsText.StartsWith(m, "API error: ")
      && m[11..11 + |digits|] == digits
  {
    SliceAfterPrefix("API error: ", JsText.IntToString(status), " " + statusText);
  }

  lemma SliceAfterPrefix(prefix: string, middle: string, rest: string)
    ensures var m := prefix + middle + rest;
      JsText.StartsWith(m, prefix) && m[|prefix|..|prefix| + |middle|] == middle
  {
    var m := prefix + middle + rest;
    assert m[..|prefix|] == prefix;
    assert m[|prefix|..|prefix| + |middle|] == middle;
  }

  /** A successful reply without answer text fails with the provider's "Empty response" message. */
  lemma EmptyContentFails(p: Provider, data: Json, parse: string -> Option<Json>)
    requires !data.JNull? && !Truthy(FollowPath(Some(data), ContentPath(p)))
    ensures ContentResult(p, data, parse) == Err("Empty response from " + Label(p))
  {
  }

  /** A successful reply with answer text is the parsed answer. */
  lemma ReplyTextIsParsed(config: LLMConfig, status: int, statusText: string, data: Json, text: string, parse: string -> Option<Json>)
    requires ProviderOf(config.provider).Some? && 200 <= status <= 299 && !data.JNull? && text != ""
    requires FollowPath(Some(data), ContentPath(ProviderOf(config.provider).value)) == Some(JStr(text))
    ensures AnalyzeEvent(config, Reply(status, statusText, Some(data)), parse) == ParseResponse(text, parse)
  {
    var p := ProviderOf(config.provider).value;
    assert CheckReply(Reply(status, statusText, Some(data))) == Ok(Some(data));
    ContentIsParsed(p, data, text, parse);
  }

  /** Answer text found at the provider's content path goes to the parser as it is. */
  lemma ContentIsParsed(p: Provider, data: Json, text: string, parse: string -> Option<Json>)
    requires !data.JNull? && text != "" && FollowPath(Some(data), ContentPath(p)) == Some(JStr(text))
    ensures ContentResult(p, data, parse) == ParseResponse(text, parse)
  {
    assert Truthy(Some(JStr(text)));
  }

  /** The closing fence on its own line is removed with its newline. */
  lemma DropClosingFenceLine(body: string)
    ensures DropClosingFence(body + "\n```") == body
  {
    var s := body + "\n```";
    assert JsText.EndsWith(s, "\n" + Fence);
    assert s[..|s| - 4] == body;
  }

  /** The opening fence tagged "json" is removed with its newline. */
  lemma DropTaggedOpeningFence(rest: string)
    ensures JsText.StartsWith("```json\n" + rest, Fence)
    ensures DropOpeningFence("```json\n" + rest) == rest
  {
    var s := "```json\n" + rest;
    assert s[..3] == Fence;
    var t := s[3..];
    assert t[..4] == "json";
    assert t[4..][..1] == "\n";
    assert t[4..][1..] == rest;
  }

  /** The untagged opening fence is removed with its newline. */
  lemma DropPlainOpeningFence(rest: string)
    ensures JsText.StartsWith("```\n" + rest, Fence)
    ensures DropOpeningFence("```\n" + rest) == rest
  {
    var s := "```\n" + rest;
    assert s[..3] == Fence;
    var t := s[3..];
    assert t[0] == '\n';
    assert t[..1] == "\n";
    assert t[1..] == rest;
  }

  /** A fenced answer tagged "json" loses exactly its fence. */
  lemma StripJsonFenceRoundTrip(body: string)
    ensures StripFences("```json\n" + body + "\n```") == body
  {
    var rest := body + "\n```";
    assert "```json\n" + body + "\n```" == "```json\n" + rest;
    JsText.TrimNoBorderSpace("```json\n" + rest);
    DropTaggedOpeningFence(rest);
    DropClosingFenceLine(body);
  }

  /** A fenced answer without a tag loses exactly its fence. */
  lemma StripPlainFenceRoundTrip(body: string)
    ensures StripFences("```\n" + body + "\n```") == body
  {
    var rest := body + "\n```";
    assert "```\n" + body + "\n```" == "```\n" + rest;
    JsText.TrimNoBorderSpace("```\n" + rest);
    DropPlainOpeningFence(rest);
    DropClosingFenceLine(body);
  }

  /** An answer that does not start with a fence is only trimmed. */
  lemma UnfencedOnlyTrimmed(raw: string)
    requires !JsText.StartsWith(JsText.Trim(raw), Fence)
    ensures StripFences(raw) == JsText.Trim(raw)
  {
  }

  /** Text that is not JSON fails with the parse message. */
  lemma UnparsableFails(raw: string, parse: string -> Option<Json>)
    requires parse(StripFences(raw)) == None
    ensures ParseResponse(raw, parse) == Err(ParseFailure)
  {
  }

  /**
   * An event type or impact outside the valid values becomes "Meeting" or "Neutral";
   * a valid one is kept.
   */
  lemma EnumDefaults(parsed: Json)
    requires !parsed.JNull?
    ensures var r := Normalise(parsed).value;
      var t := FieldText(Member(parsed, "eventType"));
      var i := FieldText(Member(parsed, "impact"));
      && (t in EventTypeNames ==> r.eventType == t) && (t !in EventTypeNames ==> r.eventType == "Meeting")
      && (i in ImpactNames ==> r.impact == i) && (i !in ImpactNames ==> r.impact == "Neutral")
  {
  }

  /**
   * Severity lies in 1..10; a missing, zero or non-numeric severity gives 5; a value
   * above 10 gives 10 and a non-zero value below 1 gives 1.
   */
  lemma SeverityRules(v: Option<Json>)
    ensures 1 <= SeverityOf(v) <= 10
    ensures v.None? || v == Some(JNum(0)) || v == Some(JNull) || JsNumber(v).None? ==> SeverityOf(v) == 5
    ensures v.Some? && v.value.JNum? && 1 <= v.value.n <= 10 ==> SeverityOf(v) == v.value.n
    ensures v.Some? && v.value.JNum? && v.value.n > 10 ==> SeverityOf(v) == 10
    ensures v.Some? && v.value.JNum? && v.value.n < 0 ==> SeverityOf(v) == 1
    ensures JsNumber(v).Some? && JsNumber(v).value != 0 ==> SeverityOf(v) == Clamp(JsNumber(v).value)
  {
  }

  /** A non-empty summary is kept; an empty or missing one becomes the placeholder. */
  lemma SummaryDefault(parsed: Json)
    requires !parsed.JNull?
    ensures var s := FieldText(Member(parsed, "summary"));
      Normalise(parsed).value.summary == (if s != "" then s else DefaultSummary)
  {
  }

  /**
   * An answer with an unknown event type, a valid impact, the severity as the text
   * "15" and an empty summary: "Meeting", the impact, 10 and the placeholder.
   */
  lemma NormaliseDefaultsAndClamps()
    ensures Normalise(SampleAnswer) == Ok(AIAnalysisResult("Meeting", "Positive", 10, DefaultSummary))
  {
    assert Member(SampleAnswer, "eventType") == Some(JStr("Bogus"));
    assert Member(SampleAnswer, "impact") == Some(JStr("Positive"));
    assert Member(SampleAnswer, "summary") == Some(JStr(""));
    assert Member(SampleAnswer, "severity") == Some(JStr("15"));
    TextFifteenIsTen();
    BogusIsNoEventType();
    EnumDefaults(SampleAnswer);
    SummaryDefault(SampleAnswer);
  }

  const SampleAnswer := JObj(map["eventType" := JStr("Bogus"), "impact" := JStr("Positive"), "severity" := JStr("15"), "summary" := JStr("")])

  /** The text "15" reads as 15, which is clamped to 10. */
  lemma TextFifteenIsTen()
    ensures SeverityOf(Some(JStr("15"))) == 10
  {
    FifteenReads();
    assert JsNumber(Some(JStr("15"))) == Some(15);
  }

  /** `Number("15")` is 15. */
  lemma FifteenReads()
    ensures JsText.ParseNumber("15") == Some(15)
  {
    var s := "15";
    assert JsText.Trim(s) == s by { JsText.TrimNoBorderSpace(s); }
    assert JsText.AllDigits(s);
    assert JsText.DigitsValue(s) == 15 by { assert s[..1] == "1"; assert "1"[..0] == ""; }
    JsText.ParseNumberOfDigits(s);
  }

  /** "Bogus" is none of the ten event types. */
  lemma BogusIsNoEventType()
    ensures "Bogus" !in EventTypeNames
  {
  }

  /** A result that already satisfies the normalisation's rules. */
  predicate IsValidResult(r: AIAnalysisResult) {
    r.eventType in EventTypeNames && r.impact in ImpactNames && 1 <= r.severity <= 10 && r.summary != ""
  }

  /** The JSON object of a result, as the prompt asks the model to write it. */
  function ResultJson(r: AIAnalysisResult): Json {
    JObj(map["eventType" := JStr(r.eventType), "impact" := JStr(r.impact),
             "severity" := JNum(r.severity), "summary" := JStr(r.summary)])
  }

  /** Normalising a valid result's JSON gives the result back unchanged. */
  lemma NormaliseValidRoundTrip(r: AIAnalysisResult)
    requires IsValidResult(r)
    ensures Normalise(ResultJson(r)) == Ok(r)
  {
    var j := ResultJson(r);
    assert Member(j, "eventType") == Some(JStr(r.eventType));
    assert Member(j, "impact") == Some(JStr(r.impact));
    assert Member(j, "severity") == Some(JNum(r.severity));
    assert Member(j, "summary") == Some(JStr(r.summary));
  }
}
