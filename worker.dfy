/** The Cloudflare variant of a muttr hop (src/worker.mjs): one invocation of
    `fetch(request, env)` as a decision over the outcomes of its outbound
    calls. The chain header is `name(direction)` entries joined by " -> ",
    the log header is JSON records joined by line feeds, the direction comes
    from `X-Muttr-Direction`. */
module Worker {
  import opened Wrappers
  import opened Text
  import opened Json
  import opened Http

  const DefaultHopName := "unknown-hop"
  const DefaultModel := "openai/gpt-4o-mini"
  const Endpoint := "https://openrouter.ai/api/v1/chat/completions"
  const SystemPrompt := "You are muttr, a global todo list that mutates each time it travels across the planet. Embrace playful chaos while keeping tasks actionable."
  const JsonUtf8 := "application/json; charset=utf-8"
  const TextUtf8 := "text/plain; charset=utf-8"
  /** The content type the Fetch standard gives a `Response` with a string body. */
  const PlainBodyType := "text/plain;charset=UTF-8"
  const ChainSeparator := " -> "
  const CompletedPhase := "completed-there-and-back"

  /** The worker's bindings; an unset one is "". */
  datatype Env = Env(hopName: string, nextHop: string, prevHop: string, model: string,
                     apiKey: string, site: string, app: string)

  /** The `request.cf` fields the log records; "" or 0 where absent. */
  datatype Cf = Cf(colo: string, country: string, asn: nat)

  /** An incoming request: method, URL path, headers, body text, `cf`. */
  datatype Request = Request(verb: string, path: string, headers: Headers, body: string, cf: Cf)

  /** A POST to another hop, and the POST to the generation service. */
  datatype HopCall = HopCall(url: string, headers: Headers, body: string)
  datatype GenCall = GenCall(url: string, headers: Headers, body: string)

  /** What an invocation ends with: a response it builds, the response of a
      hop call it returns as it is, an uncaught exception, or the page. */
  datatype Action = Respond(response: Response) | Relay(call: HopCall) | Throw | ServePage

  /** The generation call the invocation makes (if any) and how it ends. */
  datatype Decision = Decision(gen: Option<GenCall>, action: Action)

  /** What the caller receives. `Failed` is an uncaught exception, which the
      platform answers itself; `Page` is the embedded HTML page. */
  datatype Reply = Replied(response: Response) | Failed | Page

  /** The chain and log as this hop extends them on arrival. */
  datatype Visit = Visit(name: string, direction: string, chain: string, log: string)

  function HopName(env: Env): string
  {
    if env.hopName != "" then env.hopName else DefaultHopName
  }

  /** One chain entry. */
  function Label(name: string, direction: string): string
  {
    name + "(" + direction + ")"
  }

  /** `appendChain`: the old chain stays as a prefix and the entry is added
      at the end, after the separator unless the chain was empty. */
  function AppendChain(chain: string, name: string, direction: string): (r: string)
    ensures chain <= r
    ensures |Label(name, direction)| <= |r| && r[|r| - |Label(name, direction)|..] == Label(name, direction)
    ensures chain == "" ==> r == Label(name, direction)
    ensures chain != "" ==> r == chain + ChainSeparator + Label(name, direction)
  {
    var suffix := Label(name, direction);
    if chain == "" then suffix else chain + ChainSeparator + suffix
  }

  /** `appendLog`: the old log stays as a prefix and the entry is added at the
      end, after a line feed unless the log was empty. */
  function AppendLog(log: string, entry: string): (r: string)
    ensures log <= r
    ensures |entry| <= |r| && r[|r| - |entry|..] == entry
    ensures log == "" ==> r == entry
    ensures log != "" ==> r == log + "\n" + entry
  {
    if log != "" then log + "\n" + entry else entry
  }

  /** The chain text of a list of entries. */
  function ChainText(entries: seq<string>): string
  {
    Join(entries, ChainSeparator)
  }

  /** The log text of a list of entries. */
  function LogText(entries: seq<string>): string
  {
    Join(entries, "\n")
  }

  /** Extending a chain adds exactly one entry to it. */
  lemma ChainGrowsByOne(entries: seq<string>, name: string, direction: string)
    requires entries == [] || entries[0] != ""
    ensures AppendChain(ChainText(entries), name, direction) == ChainText(entries + [Label(name, direction)])
  {
    JoinSnoc(entries, Label(name, direction), ChainSeparator);
    if entries != [] {
      JoinNonEmpty(entries, ChainSeparator);
    }
  }

  /** Extending a log adds exactly one entry to it. */
  lemma LogGrowsByOne(entries: seq<string>, entry: string)
    requires entries == [] || entries[0] != ""
    ensures AppendLog(LogText(entries), entry) == LogText(entries + [entry])
  {
    JoinSnoc(entries, entry, "\n");
    if entries != [] {
      JoinNonEmpty(entries, "\n");
    }
  }

  function OrUnknown(s: string): string
  {
    if s != "" then s else "unknown"
  }

  /** The record `makeLogEntry` writes for one visit. */
  function LogRecord(name: string, direction: string, now: string, req: Request): (j: Json)
  {
    JObj([("hop", JStr(name)),
          ("direction", JStr(direction)),
          ("ts", JStr(now)),
          ("colo", JStr(OrUnknown(req.cf.colo))),
          ("country", JStr(OrUnknown(req.cf.country))),
          ("asn", if req.cf.asn == 0 then JStr("unknown") else JNum(NatToString(req.cf.asn))),
          ("ip", JStr(HeaderOr(req.headers, "cf-connecting-ip", "unknown")))])
  }

  /** `makeLogEntry`: one line of JSON. */
  function MakeLogEntry(name: string, direction: string, now: string, req: Request): (r: string)
    ensures r != ""
  {
    var j := LogRecord(name, direction, now, req);
    StringifyBracketed(j);
    Stringify(j)
  }

  /** A log entry is one line, written between braces. */
  lemma LogEntryShape(name: string, direction: string, now: string, req: Request)
    ensures var r := MakeLogEntry(name, direction, now, req);
      r != "" && r[0] == '{' && r[|r| - 1] == '}' && '\n' !in r
  {
    var j := LogRecord(name, direction, now, req);
    StringifyBracketed(j);
    StringifyNoLineFeed(j);
  }

  /** The direction, chain and log the request handler computes before it
      dispatches: the direction defaults to "forward", and chain and log each
      get this hop's entry. */
  function Arrive(env: Env, req: Request, now: string): (v: Visit)
    ensures v.name == HopName(env)
    ensures v.direction == HeaderOr(req.headers, "x-muttr-direction", "forward")
    ensures v.chain == AppendChain(HeaderOr(req.headers, "x-hop-chain", ""), v.name, v.direction)
    ensures v.log == AppendLog(HeaderOr(req.headers, "x-hop-log", ""), MakeLogEntry(v.name, v.direction, now, req))
  {
    var name := HopName(env);
    var direction := HeaderOr(req.headers, "x-muttr-direction", "forward");
    Visit(name, direction,
          AppendChain(HeaderOr(req.headers, "x-hop-chain", ""), name, direction),
          AppendLog(HeaderOr(req.headers, "x-hop-log", ""), MakeLogEntry(name, direction, now, req)))
  }

  /** `parseBody`: the prompt text taken from a request body. */
  function ParseBody(raw: string, parse: Parser): (r: string)
    ensures raw == "" ==> r == ""
    ensures raw != "" && parse(raw).None? ==> r == raw
    ensures raw != "" && parse(raw).Some? && parse(raw).value.JStr? ==> r == parse(raw).value.s
    ensures raw != "" && parse(raw).Some? && !parse(raw).value.JStr? && !IsObject(parse(raw).value) ==> r == raw
    ensures raw != "" && parse(raw).Some? && IsObject(parse(raw).value) ==>
      var j := parse(raw).value;
      r == (if StrProp(j, "message").Some? then StrProp(j, "message").value
            else if ArrProp(j, "messages").Some? then StringifyPretty(JArr(ArrProp(j, "messages").value))
            else StringifyPretty(j))
  {
    if raw == "" then ""
    else
      match parse(raw)
      case None => raw
      case Some(j) =>
        if j.JStr? then j.s
        else if IsObject(j) then
          match StrProp(j, "message")
          case Some(m) => m
          case None =>
            match ArrProp(j, "messages")
            case Some(ms) => StringifyPretty(JArr(ms))
            case None => StringifyPretty(j)
        else raw
  }

  /** A message record `{role, content}`. */
  function MessageJson(role: string, content: string): Json
  {
    JObj([("role", JStr(role)), ("content", JStr(content))])
  }

  /** The request document for the generation service. */
  function GenDocument(env: Env, prompt: string): (j: Json)
    ensures Prop(j, "model") == Some(JStr(if env.model != "" then env.model else DefaultModel))
    ensures Prop(j, "messages") == Some(JArr([MessageJson("system", SystemPrompt), MessageJson("user", prompt)]))
  {
    var fields := [("model", JStr(if env.model != "" then env.model else DefaultModel)),
                   ("messages", JArr([MessageJson("system", SystemPrompt), MessageJson("user", prompt)]))];
    LookupAt(fields, 0);
    LookupAt(fields, 1);
    JObj(fields)
  }

  /** The headers of the generation call: JSON both ways, and the key, site
      and title only when configured. */
  function GenHeaders(env: Env): (h: Headers)
    ensures "content-type" in h && "accept" in h && h["content-type"] == "application/json" && h["accept"] == "application/json"
    ensures ("authorization" in h) == (env.apiKey != "")
    ensures "authorization" in h ==> h["authorization"] == "Bearer " + env.apiKey
    ensures ("http-referer" in h) == (env.site != "") && ("http-referer" in h ==> h["http-referer"] == env.site)
    ensures ("x-title" in h) == (env.app != "") && ("x-title" in h ==> h["x-title"] == env.app)
  {
    var h0 := map["content-type" := "application/json", "accept" := "application/json"];
    var h1 := if env.apiKey != "" then h0["authorization" := "Bearer " + env.apiKey] else h0;
    var h2 := if env.site != "" then h1["http-referer" := env.site] else h1;
    if env.app != "" then h2["x-title" := env.app] else h2
  }

  /** The call the terminal forward hop makes: a two-message conversation,
      the fixed system prompt and then the body's prompt. */
  function GenRequest(env: Env, raw: string, parse: Parser): (c: GenCall)
  {
    GenCall(Endpoint, GenHeaders(env), Stringify(GenDocument(env, ParseBody(raw, parse))))
  }

  /** The headers `callHop` sets: the direction always, chain, log and
      content type only when non-empty. */
  function HopHeaders(direction: string, chain: string, log: string, contentType: string): (h: Headers)
    ensures "x-muttr-direction" in h && h["x-muttr-direction"] == direction
    ensures ("x-hop-chain" in h) == (chain != "") && ("x-hop-chain" in h ==> h["x-hop-chain"] == chain)
    ensures ("x-hop-log" in h) == (log != "") && ("x-hop-log" in h ==> h["x-hop-log"] == log)
    ensures ("content-type" in h) == (contentType != "") && ("content-type" in h ==> h["content-type"] == contentType)
    ensures h.Keys <= {"x-muttr-direction", "x-hop-chain", "x-hop-log", "content-type"}
  {
    var h0 := map["x-muttr-direction" := direction];
    var h1 := if chain != "" then h0["x-hop-chain" := chain] else h0;
    var h2 := if log != "" then h1["x-hop-log" := log] else h1;
    if contentType != "" then h2["content-type" := contentType] else h2
  }

  /** `callHop`: a POST of `body` to `url`. */
  function CallHop(url: string, direction: string, body: string, chain: string, log: string, contentType: string): (c: HopCall)
  {
    HopCall(url, HopHeaders(direction, chain, log, contentType), body)
  }

  /** The error document for a non-2xx generation response. */
  function ErrorDocument(status: nat, text: string): Json
  {
    JObj([("error", JStr("OpenRouter call failed")), ("status", JNum(NatToString(status))), ("body", JStr(text))])
  }

  /** The status the terminal forward hop answers with: 200 after a
      successful generation call, 502 after any other status. */
  function GenerationStatus(status: nat): (r: nat)
    ensures r == 200 || r == 502
    ensures r == 200 <==> IsOk(status)
  {
    if IsOk(status) then 200 else 502
  }

  /** The body it answers or relays with: the service's text as received, or
      the error document. */
  function GenerationBody(status: nat, text: string): string
  {
    if IsOk(status) then text else StringifyPretty(ErrorDocument(status, text))
  }

  /** What a single hop with no neighbours answers after the generation call. */
  function GenerationAnswer(status: nat, text: string): Response
  {
    Response(GenerationStatus(status), map["content-type" := JsonUtf8], Some(GenerationBody(status, text)))
  }

  /** The terminal forward hop after the generation call: an error becomes a
      502 document (or is relayed back to the previous hop); a success is the
      raw text (or is relayed back). A rejected call is not caught. */
  function AfterGeneration(env: Env, v: Visit, gen: Outcome): (a: Action)
    ensures a.Throw? <==> gen.TransportError?
    ensures a.Relay? <==> gen.Resp? && env.prevHop != ""
  {
    match gen
    case TransportError(_) => Throw
    case Resp(status, _, text) =>
      if env.prevHop == "" then
        Respond(GenerationAnswer(status, text))
      else
        Relay(CallHop(env.prevHop, "return", GenerationBody(status, text), v.chain, v.log, JsonUtf8))
  }

  /** `handleForward`. */
  function HandleForward(env: Env, v: Visit, raw: string, contentType: string, parse: Parser, gen: Outcome): (d: Decision)
  {
    if env.nextHop != "" then Decision(None, Relay(CallHop(env.nextHop, "forward", raw, v.chain, v.log, contentType)))
    else Decision(Some(GenRequest(env, raw, parse)), AfterGeneration(env, v, gen))
  }

  /** One part of an array `content`: a string, its `text`, or the `value`
      of a `{type: "text"}` part; "" for anything else. */
  function PartText(part: Json): string
  {
    if !Truthy(part) then ""
    else if part.JStr? then part.s
    else if StrProp(part, "text").Some? then StrProp(part, "text").value
    else if Prop(part, "type") == Some(JStr("text")) && StrProp(part, "value").Some? then StrProp(part, "value").value
    else ""
  }

  /** `parts.map(PartText).join('')`. */
  function ConcatParts(parts: seq<Json>): (r: string)
    ensures r == Join(seq(|parts|, k requires 0 <= k < |parts| => PartText(parts[k])), "")
  {
    if parts == [] then ""
    else
      var texts := seq(|parts|, k requires 0 <= k < |parts| => PartText(parts[k]));
      var rest := seq(|parts| - 1, k requires 0 <= k < |parts| - 1 => PartText(parts[1..][k]));
      assert texts[1..] == rest;
      PartText(parts[0]) + ConcatParts(parts[1..])
  }

  /** Joining the texts of two runs of parts is joining each run's. */
  lemma {:induction false} ConcatPartsAppend(a: seq<Json>, b: seq<Json>)
    ensures ConcatParts(a + b) == ConcatParts(a) + ConcatParts(b)
  {
    if a != [] {
      var ab := a + b;
      assert ab[0] == a[0];
      assert ab[1..] == a[1..] + b;
      assert ConcatParts(ab) == PartText(a[0]) + ConcatParts(a[1..] + b);
      ConcatPartsAppend(a[1..], b);
      assert ConcatParts(a) == PartText(a[0]) + ConcatParts(a[1..]);
    } else {
      assert a + b == b;
    }
  }

  /** A single part contributes its own text. */
  lemma ConcatPartsOne(part: Json)
    ensures ConcatParts([part]) == PartText(part)
  {
    assert [part][1..] == [];
  }

  /** `parsed?.choices?.[0]?.message`. */
  function FirstMessage(parsed: Json): Option<Json>
  {
    PropOpt(AtOpt0(Prop(parsed, "choices")), "message")
  }

  /** `extractAssistantText`. */
  function ExtractAssistantText(parsed: Json): (r: string)
    ensures !Present(FirstMessage(parsed)) ==> r == "(no assistant message found)"
    ensures Present(FirstMessage(parsed)) ==>
      var content := Prop(FirstMessage(parsed).value, "content");
      && (!Present(content) ==> r == "(no assistant content)")
      && (Present(content) && content.value.JStr? ==> r == content.value.s)
      && (Present(content) && content.value.JArr? ==> r == ConcatParts(content.value.items))
      && (Present(content) && content.value.JObj? ==> r == Stringify(content.value))
      && (Present(content) && !content.value.JStr? && !IsObject(content.value) ==> r == "(unknown assistant format)")
  {
    var message := FirstMessage(parsed);
    if !Present(message) then "(no assistant message found)"
    else
      var content := Prop(message.value, "content");
      if !Present(content) then "(no assistant content)"
      else
        match content.value
        case JStr(s) => s
        case JArr(parts) => ConcatParts(parts)
        case JObj(_) => Stringify(content.value)
        case _ => "(unknown assistant format)"
  }

  /** The standard response shape `{choices: [{message: {content}}]}`. */
  function CompletionShape(content: Json): Json
  {
    JObj([("choices", JArr([JObj([("message", JObj([("content", content)]))])]))])
  }

  /** The assistant text of a standard response with non-empty string content
      is that string. */
  lemma AssistantTextOfCompletion(s: string)
    requires s != ""
    ensures ExtractAssistantText(CompletionShape(JStr(s))) == s
  {
  }

  /** `log.split('\n').filter(Boolean)`. */
  function LogLines(log: string): (r: seq<string>)
    ensures forall k :: 0 <= k < |r| ==> r[k] != "" && '\n' !in r[k]
  {
    DropEmpty(Split(log, '\n'))
  }

  /** The `hop_log` records: each line parsed, or `{raw: line}`. */
  function LogRecords(log: string, parse: Parser): (r: seq<Json>)
    ensures |r| == |LogLines(log)|
    ensures forall k :: 0 <= k < |r| ==> r[k] == ParseOrRaw(parse, LogLines(log)[k])
  {
    var lines := LogLines(log);
    seq(|lines|, k requires 0 <= k < |lines| => ParseOrRaw(parse, lines[k]))
  }

  /** The summary document's shape, over its five values. */
  function SummaryObject(chain: string, records: seq<Json>, text: string, parsed: Json): Json
  {
    JObj([("phase", JStr(CompletedPhase)),
          ("hop_chain", JStr(chain)),
          ("hop_log", JArr(records)),
          ("assistant_text", JStr(text)),
          ("openrouter_response", parsed)])
  }

  // One lemma per field of the summary keeps each lookup proof small.

  lemma SummaryPhaseField(chain: string, records: seq<Json>, text: string, parsed: Json)
    ensures Prop(SummaryObject(chain, records, text, parsed), "phase") == Some(JStr(CompletedPhase))
  {
    LookupAt(SummaryObject(chain, records, text, parsed).fields, 0);
  }

  lemma SummaryChainField(chain: string, records: seq<Json>, text: string, parsed: Json)
    ensures Prop(SummaryObject(chain, records, text, parsed), "hop_chain") == Some(JStr(chain))
  {
    LookupAt(SummaryObject(chain, records, text, parsed).fields, 1);
  }

  lemma SummaryLogField(chain: string, records: seq<Json>, text: string, parsed: Json)
    ensures Prop(SummaryObject(chain, records, text, parsed), "hop_log") == Some(JArr(records))
  {
    LookupAt(SummaryObject(chain, records, text, parsed).fields, 2);
  }

  lemma SummaryTextField(chain: string, records: seq<Json>, text: string, parsed: Json)
    ensures Prop(SummaryObject(chain, records, text, parsed), "assistant_text") == Some(JStr(text))
  {
    LookupAt(SummaryObject(chain, records, text, parsed).fields, 3);
  }

  lemma SummaryResponseField(chain: string, records: seq<Json>, text: string, parsed: Json)
    ensures Prop(SummaryObject(chain, records, text, parsed), "openrouter_response") == Some(parsed)
  {
    LookupAt(SummaryObject(chain, records, text, parsed).fields, 4);
  }

  /** The summary the originating hop returns at the end of the return leg:
      the chain, the log records, the assistant's text and the upstream
      document. */
  function SummaryDocument(v: Visit, raw: string, parse: Parser): (j: Json)
    ensures Prop(j, "phase") == Some(JStr(CompletedPhase))
    ensures Prop(j, "hop_chain") == Some(JStr(v.chain))
    ensures Prop(j, "hop_log") == Some(JArr(LogRecords(v.log, parse)))
    ensures Prop(j, "assistant_text") == Some(JStr(ExtractAssistantText(ParseOrRaw(parse, raw))))
    ensures Prop(j, "openrouter_response") == Some(ParseOrRaw(parse, raw))
  {
    var parsed := ParseOrRaw(parse, raw);
    var records := LogRecords(v.log, parse);
    var text := ExtractAssistantText(parsed);
    SummaryPhaseField(v.chain, records, text, parsed);
    SummaryChainField(v.chain, records, text, parsed);
    SummaryLogField(v.chain, records, text, parsed);
    SummaryTextField(v.chain, records, text, parsed);
    SummaryResponseField(v.chain, records, text, parsed);
    SummaryObject(v.chain, records, text, parsed)
  }

  /** The summary's headers: JSON, with chain and log when non-empty. */
  function SummaryHeaders(chain: string, log: string): (h: Headers)
    ensures "content-type" in h && h["content-type"] == JsonUtf8
    ensures ("x-hop-chain" in h) == (chain != "") && ("x-hop-chain" in h ==> h["x-hop-chain"] == chain)
    ensures ("x-hop-log" in h) == (log != "") && ("x-hop-log" in h ==> h["x-hop-log"] == log)
    ensures h.Keys <= {"content-type", "x-hop-chain", "x-hop-log"}
  {
    var h0 := map["content-type" := JsonUtf8];
    var h1 := if chain != "" then h0["x-hop-chain" := chain] else h0;
    if log != "" then h1["x-hop-log" := log] else h1
  }

  /** The summary response: 200, JSON, chain and log attached when non-empty. */
  function Summary(v: Visit, raw: string, parse: Parser): (r: Response)
  {
    Response(200, SummaryHeaders(v.chain, v.log), Some(StringifyPretty(SummaryDocument(v, raw, parse))))
  }

  /** The relay goes to `url` with `body`, and carries the log and the chain,
      whatever they hold, exactly when they are non-empty. */
  lemma CallHopCarries(url: string, direction: string, body: string, chain: string, log: string, contentType: string)
    ensures var c := CallHop(url, direction, body, chain, log, contentType);
      && c.url == url && c.body == body
      && ("x-hop-log" in c.headers) == (log != "") && (log != "" ==> c.headers["x-hop-log"] == log)
      && ("x-hop-chain" in c.headers) == (chain != "") && (chain != "" ==> c.headers["x-hop-chain"] == chain)
  {
  }

  /** The summary is a 200 with the pretty-printed document, and carries the
      log, whatever it holds, exactly when it is non-empty. */
  lemma SummaryCarries(v: Visit, raw: string, parse: Parser)
    ensures var r := Summary(v, raw, parse);
      && r.status == 200 && r.body == Some(StringifyPretty(SummaryDocument(v, raw, parse)))
      && ("x-hop-log" in r.headers) == (v.log != "") && (v.log != "" ==> r.headers["x-hop-log"] == v.log)
  {
  }

  /** `handleReturn`: relay toward the previous hop, or summarise at the origin. */
  function HandleReturn(env: Env, v: Visit, req: Request, parse: Parser): (d: Decision)
  {
    if env.prevHop != "" then
      Decision(None, Relay(CallHop(env.prevHop, "return", req.body, v.chain, v.log, HeaderOr(req.headers, "content-type", JsonUtf8))))
    else
      Decision(None, Respond(Summary(v, req.body, parse)))
  }

  predicate IsHopPost(req: Request)
  {
    req.verb == "POST" && req.path == "/api/hop"
  }

  /** The worker's `fetch`: the page, the hop endpoint, or 404. On the hop
      endpoint the chain and log are extended before the direction is
      checked; an unknown direction is a 400 with no outbound call. */
  function Decide(env: Env, req: Request, now: string, parse: Parser, gen: Outcome): (d: Decision)
    ensures d.gen.Some? ==> IsHopPost(req) && Arrive(env, req, now).direction == "forward" && env.nextHop == ""
  {
    if req.verb == "GET" && req.path == "/" then Decision(None, ServePage)
    else if IsHopPost(req) then
      var v := Arrive(env, req, now);
      if v.direction == "forward" then
        HandleForward(env, v, req.body, HeaderOr(req.headers, "content-type", TextUtf8), parse, gen)
      else if v.direction == "return" then
        HandleReturn(env, v, req, parse)
      else
        Decision(None, Respond(Response(400, map["content-type" := PlainBodyType], Some("Invalid direction"))))
    else
      Decision(None, Respond(Response(404, map["content-type" := PlainBodyType], Some("Not found"))))
  }

  /** On the hop endpoint the decision is the handler the direction names. */
  lemma DecideOnHop(env: Env, req: Request, now: string, parse: Parser, gen: Outcome)
    requires IsHopPost(req)
    ensures var v := Arrive(env, req, now);
      && (v.direction == "forward" ==>
            Decide(env, req, now, parse, gen) == HandleForward(env, v, req.body, HeaderOr(req.headers, "content-type", TextUtf8), parse, gen))
      && (v.direction == "return" ==> Decide(env, req, now, parse, gen) == HandleReturn(env, v, req, parse))
  {
  }

  /** A POST to the hop endpoint naming neither direction is a 400
      "Invalid direction", with no outbound call, whatever a call would
      return. */
  lemma InvalidDirection(env: Env, req: Request, now: string, parse: Parser, gen: Outcome, relay: Outcome)
    requires IsHopPost(req)
    requires HeaderOr(req.headers, "x-muttr-direction", "forward") !in ["forward", "return"]
    ensures var d := Decide(env, req, now, parse, gen);
      && d.gen.None? && !d.action.Relay?
      && Fetch(env, req, now, parse, gen, relay) == Replied(Response(400, map["content-type" := PlainBodyType], Some("Invalid direction")))
  {
  }

  /** Any request but `GET /` and `POST /api/hop` is a 404 "Not found",
      with no outbound call. */
  lemma NotFound(env: Env, req: Request, now: string, parse: Parser, gen: Outcome, relay: Outcome)
    requires !(req.verb == "GET" && req.path == "/") && !IsHopPost(req)
    ensures var d := Decide(env, req, now, parse, gen);
      && d.gen.None? && !d.action.Relay?
      && Fetch(env, req, now, parse, gen, relay) == Replied(Response(404, map["content-type" := PlainBodyType], Some("Not found")))
  {
  }

  /** `GET /` serves the page, with no outbound call. */
  lemma ServesPage(env: Env, req: Request, now: string, parse: Parser, gen: Outcome, relay: Outcome)
    requires req.verb == "GET" && req.path == "/"
    ensures Decide(env, req, now, parse, gen) == Decision(None, ServePage)
    ensures Fetch(env, req, now, parse, gen, relay) == Page
  {
  }

  /** The reply, given the outcome of the hop call when there is one: a
      relayed response is passed back exactly as received. */
  function Finish(d: Decision, relay: Outcome): (r: Reply)
    ensures d.action.Respond? ==> r == Replied(d.action.response)
    ensures d.action.Relay? && relay.Resp? ==> r == Replied(Response(relay.status, relay.headers, Some(relay.body)))
    ensures d.action.Relay? && relay.TransportError? ==> r == Failed
    ensures d.action.Throw? ==> r == Failed
  {
    match d.action
    case Respond(resp) => Replied(resp)
    case Relay(_) =>
      (match relay
       case Resp(status, headers, body) => Replied(Response(status, headers, Some(body)))
       case TransportError(_) => Failed)
    case Throw => Failed
    case ServePage => Page
  }

  /** One invocation, given what its generation call and its hop call return. */
  function Fetch(env: Env, req: Request, now: string, parse: Parser, gen: Outcome, relay: Outcome): Reply
  {
    Finish(Decide(env, req, now, parse, gen), relay)
  }

  // ---- What the client's body becomes, given that JSON.parse inverts JSON.stringify

  /** A body sent as `JSON.stringify(s)` gives the prompt `s`. */
  lemma PromptOfStringifiedString(s: string, parse: Parser)
    requires ParseInvertsStringify(parse)
    ensures ParseBody(Stringify(JStr(s)), parse) == s
  {
    assert Plain(JStr(s));
  }

  /** A body sent as `JSON.stringify({message: m})` gives the prompt `m`. */
  lemma PromptOfMessageObject(m: string, parse: Parser)
    requires ParseInvertsStringify(parse)
    ensures ParseBody(Stringify(JObj([("message", JStr(m))])), parse) == m
  {
    var j := JObj([("message", JStr(m))]);
    NotIndexLike("message");
    assert Plain(j);
    StringifyBracketed(j);
  }

  /** The generation request document survives a JSON round trip. */
  lemma GenDocumentPlain(env: Env, prompt: string)
    ensures Plain(GenDocument(env, prompt))
  {
    NotIndexLike("model");
    NotIndexLike("messages");
    MessagePlain("system", SystemPrompt);
    MessagePlain("user", prompt);
    assert Plain(JArr([MessageJson("system", SystemPrompt), MessageJson("user", prompt)]));
  }

  /** A message document is plain. */
  lemma MessagePlain(role: string, content: string)
    ensures Plain(MessageJson(role, content))
  {
    NotIndexLike("role");
    NotIndexLike("content");
  }

  /** The generation service reads back a conversation of exactly two
      messages: the system prompt, then the user's prompt. */
  lemma TwoMessagesSent(env: Env, raw: string, parse: Parser)
    requires ParseInvertsStringify(parse)
    ensures var doc := parse(GenRequest(env, raw, parse).body);
      doc.Some? && ArrProp(doc.value, "messages") == Some([MessageJson("system", SystemPrompt), MessageJson("user", ParseBody(raw, parse))])
  {
    var j := GenDocument(env, ParseBody(raw, parse));
    GenDocumentPlain(env, ParseBody(raw, parse));
    assert parse(Stringify(j)) == Some(j);
  }

  // ---- Finding: `Headers.set` rejects a value with a line feed

  /** HTTP tab or space and the HTTP newline bytes, which `Headers.set` strips
      from both ends of a value. */
  predicate IsHttpSpace(c: char)
  {
    c == ' ' || c == '\t' || c == '\n' || c == '\r'
  }

  /** The value `Headers.set` accepts: a WebIDL ByteString (no code point
      above U+00FF) which, after normalisation, holds no line feed, carriage
      return or NUL (the Fetch standard's header-value check). */
  predicate AcceptedHeaderValue(v: string)
  {
    var n := HttpTrim(v);
    && (forall i :: 0 <= i < |v| ==> v[i] as int <= 0xFF)
    && '\n' !in n && '\r' !in n && '\0' !in n
  }

  function HttpTrim(v: string): (r: string)
    ensures |r| <= |v|
    ensures v != [] && !IsHttpSpace(v[0]) && !IsHttpSpace(v[|v| - 1]) ==> r == v
  {
    if |v| > 0 && IsHttpSpace(v[0]) then HttpTrim(v[1..])
    else if |v| > 0 && IsHttpSpace(v[|v| - 1]) then HttpTrim(v[..|v| - 1])
    else v
  }

  /** `callHop` as written, with `Headers.set` throwing on a rejected value:
      None is the TypeError. */
  function CallHopAsWritten(url: string, direction: string, body: string, chain: string, log: string, contentType: string): (r: Option<HopCall>)
    ensures r.Some? ==> r.value == CallHop(url, direction, body, chain, log, contentType)
    ensures log != "" && !AcceptedHeaderValue(log) ==> r.None?
  {
    if !AcceptedHeaderValue(direction) || (chain != "" && !AcceptedHeaderValue(chain))
       || (log != "" && !AcceptedHeaderValue(log)) || (contentType != "" && !AcceptedHeaderValue(contentType))
    then None
    else Some(CallHop(url, direction, body, chain, log, contentType))
  }

  /** The summary response as written: it sets the log header too. */
  function SummaryAsWritten(v: Visit, raw: string, parse: Parser): (r: Option<Response>)
    ensures r.Some? ==> r.value == Summary(v, raw, parse)
    ensures v.log != "" && !AcceptedHeaderValue(v.log) ==> r.None?
  {
    if (v.chain != "" && !AcceptedHeaderValue(v.chain)) || (v.log != "" && !AcceptedHeaderValue(v.log))
    then None
    else Some(Summary(v, raw, parse))
  }

  /** A log of two entries, the first not starting and the second not ending
      with white space, keeps its line feed after normalisation. */
  lemma TwoEntryLogRejected(first: string, entry: string)
    requires first != "" && !IsHttpSpace(first[0])
    requires entry != "" && entry[|entry| - 1] == '}'
    ensures !AcceptedHeaderValue(first + "\n" + entry)
  {
    var log := first + "\n" + entry;
    assert log[0] == first[0] && log[|log| - 1] == '}';
    assert log[|first|] == '\n';
  }

  /** Every hop after the first one receives a log header and so relays a log
      of two or more lines, which `Headers.set` refuses: as written, the relay
      throws before the request is sent. */
  lemma RelayAfterFirstHopThrows(env: Env, req: Request, now: string, url: string, direction: string, body: string, contentType: string)
    requires HeaderOr(req.headers, "x-hop-log", "") != ""
    requires !IsHttpSpace(req.headers["x-hop-log"][0])
    ensures var v := Arrive(env, req, now);
      CallHopAsWritten(url, direction, body, v.chain, v.log, contentType).None?
  {
    var v := Arrive(env, req, now);
    LogEntryShape(v.name, v.direction, now, req);
    TwoEntryLogRejected(req.headers["x-hop-log"], MakeLogEntry(v.name, v.direction, now, req));
  }

  /** The same log makes the originating hop's summary throw as written. */
  lemma SummaryAfterRoundTripThrows(v: Visit, raw: string, parse: Parser, first: string, entry: string)
    requires first != "" && !IsHttpSpace(first[0])
    requires entry != "" && entry[|entry| - 1] == '}'
    requires v.log == AppendLog(first, entry)
    ensures SummaryAsWritten(v, raw, parse).None?
  {
    TwoEntryLogRejected(first, entry);
  }
}
