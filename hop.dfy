/** The Azure Functions variant of a muttr hop (MuttrHop/index.js): one
    invocation as the outbound calls it makes and the response it sets,
    given the outcomes of those calls. The chain is `name(direction)`
    labels joined by commas, the log travels as a JSON array of one-line
    records, and the direction comes from `X-Direction`. */
module MuttrHop {
  import opened Wrappers
  import opened Text
  import opened Json
  import opened Http
  import opened HopCodec
  import opened HopPayload
  import Referer
  import Worker

  const DefaultHopName := "unknown-hop"
  const DefaultModel := "openai/gpt-4o-mini"
  const DefaultPath := "/api/muttr"
  const Endpoint := "https://openrouter.ai/api/v1/chat/completions"
  const AppTitle := "muttr"
  const MissingKeyMessage := "OPENROUTER_API_KEY not configured on this app."
  const NoAssistantText := "(no assistant text)"
  /** What `${e}` gives for the TypeErrors V8 raises when a property of
      `null` is read. */
  const NullChoicesError := "TypeError: Cannot read properties of null (reading 'choices')"
  const NullPartError := "TypeError: Cannot read properties of null (reading 'text')"

  /** The app settings the function reads; an unset string one is "".
      `delay` is `parseInt(DELAY_MS || "0", 10)`, None for NaN. */
  datatype Env = Env(hopName: string, nextHop: string, prevHop: string, delay: Option<int>,
                     apiKey: string, model: string, site: Referer.Site)

  /** An incoming request: method, `originalUrl`, lower-cased headers, the
      raw body text, and `req.body` as the runtime parsed it (a string body
      is a JSON string). */
  datatype Request = Request(verb: string, originalUrl: string, headers: Headers, rawBody: string, body: Option<Json>)

  /** What one invocation does: the generation call and the hop call it
      makes, if any, and the response it leaves in `context.res`. */
  datatype Invocation =
    | Invocation(gen: Option<Worker.GenCall>, hop: Option<Worker.HopCall>, response: Response)
    | Uncaught(gen: Option<Worker.GenCall>, hop: Option<Worker.HopCall>, error: string)

  /** The chain, the log lines and their header as this hop extends them. */
  datatype Visit = Visit(name: string, direction: string, chain: string, lines: seq<string>, log: string)

  function HopName(env: Env): string
  {
    if env.hopName != "" then env.hopName else DefaultHopName
  }

  function ConfiguredModel(env: Env): string
  {
    if env.model != "" then env.model else DefaultModel
  }

  function UrlPath(req: Request): string
  {
    if req.originalUrl != "" then req.originalUrl else DefaultPath
  }

  /** The body text: `rawBody`, else a string body, else a truthy body in
      its JSON text, else "". */
  function BodyText(req: Request): string
  {
    if req.rawBody != "" then req.rawBody
    else
      match req.body
      case Some(JStr(s)) => s
      case Some(j) => if Truthy(j) then Stringify(j) else ""
      case None => ""
  }

  /** The CORS headers every response carries. */
  function Cors(headers: Headers): Headers
  {
    map["access-control-allow-origin" := HeaderOr(headers, "origin", "*"),
        "access-control-allow-methods" := "POST, OPTIONS",
        "access-control-allow-headers" := "Content-Type, X-Direction, X-Hop-Chain, X-Hop-Log"]
  }

  /** `setResponse`: every CORS header the handler does not set itself, and
      every header it sets, with its value. */
  function SetResponse(req: Request, status: nat, headers: Headers, body: Option<string>): Response
  {
    Response(status, Cors(req.headers) + headers, body)
  }

  /** Every CORS header the handler does not set itself, and every header
      it sets, with its value. */
  lemma SetResponseHeaders(req: Request, status: nat, headers: Headers, body: Option<string>)
    ensures var r := SetResponse(req, status, headers, body);
      && r.headers.Keys == Cors(req.headers).Keys + headers.Keys
      && (forall n :: n in headers ==> r.headers[n] == headers[n])
      && (forall n :: n in Cors(req.headers) && n !in headers ==> r.headers[n] == Cors(req.headers)[n])
  {
  }

  /** The direction, chain and log computed before dispatch. */
  function Arrive(env: Env, req: Request, now: string, parse: Parser): (v: Visit)
    ensures v.log == EncodeLog(v.lines)
  {
    var name := HopName(env);
    var direction := HeaderOr(req.headers, "x-direction", "forward");
    var chain := NewChain(HeaderOr(req.headers, "x-hop-chain", ""), HopLabel(name, direction));
    var line := LogLine(name, direction, UrlPath(req), env.delay, chain, now);
    var lines := NewLogLines(HeaderOr(req.headers, "x-hop-log", ""), line, parse);
    Visit(name, direction, chain, lines, EncodeLog(lines))
  }

  /** This hop's own log line. */
  function OwnLine(env: Env, req: Request, now: string, parse: Parser): string
  {
    var v := Arrive(env, req, now, parse);
    LogLine(v.name, v.direction, UrlPath(req), env.delay, v.chain, now)
  }

  /** The log header a hop passes on decodes to the log it received plus
      its own line, and it is a single line of text. */
  lemma ArrivalLog(env: Env, req: Request, now: string, parse: Parser)
    requires ParseInvertsStringify(parse)
    ensures var v := Arrive(env, req, now, parse);
      && ParseHopLogHeader(v.log, parse) == ParseHopLogHeader(HeaderOr(req.headers, "x-hop-log", ""), parse) + [OwnLine(env, req, now, parse)]
      && '\n' !in v.log
  {
    var v := Arrive(env, req, now, parse);
    LogGrowsByOne(HeaderOr(req.headers, "x-hop-log", ""), OwnLine(env, req, now, parse), parse);
    StringifyNoLineFeed(StrArray(v.lines));
  }

  /** A chain that lists some labels comes out listing one label more,
      this hop's, last. */
  lemma ArrivalChain(env: Env, req: Request, now: string, parse: Parser, labels: seq<string>)
    requires HeaderOr(req.headers, "x-hop-chain", "") == Join(labels, ChainSeparator)
    requires forall k :: 0 <= k < |labels| ==> ChainLabel(labels[k])
    requires ',' !in HopName(env) && ',' !in HeaderOr(req.headers, "x-direction", "forward")
    ensures var v := Arrive(env, req, now, parse);
      ChainLabels(v.chain) == labels + [HopLabel(v.name, v.direction)]
  {
    var v := Arrive(env, req, now, parse);
    ChainGrowsByOne(labels, HopLabel(v.name, v.direction));
  }

  /** The headers of a hop call. */
  function HopHeaders(v: Visit, direction: string, contentType: string): (h: Headers)
    ensures h.Keys == {"content-type", "x-hop-chain", "x-hop-log", "x-direction"}
    ensures h["content-type"] == contentType && h["x-hop-chain"] == v.chain
    ensures h["x-hop-log"] == v.log && h["x-direction"] == direction
  {
    map["content-type" := contentType, "x-hop-chain" := v.chain, "x-hop-log" := v.log, "x-direction" := direction]
  }

  /** The record an unreachable callee adds to the log. */
  function ErrorRecord(err: string): Json
  {
    JObj([("error", JStr(err))])
  }

  /** The 502 set when an outbound call is rejected: the log gains an error
      line. */
  function Unreached(req: Request, v: Visit, err: string, message: string): Response
  {
    SetResponse(req, 502, map["content-type" := "text/plain", "x-hop-chain" := v.chain,
                              "x-hop-log" := EncodeLog(v.lines + [Stringify(ErrorRecord(err))])], Some(message))
  }

  /** The log header set after a hop call: the callee's log when it sent a
      non-empty one, this hop's otherwise. */
  function ReturnedLog(v: Visit, h: Headers, parse: Parser): string
  {
    var down := ParseHopLogHeader(HeaderOr(h, "x-hop-log", ""), parse);
    if |down| > 0 then EncodeLog(down) else v.log
  }

  /** `callHop` after its POST: a rejected call is a plain-text 502 naming
      the URL and carrying this hop's chain; a response is passed on with
      its status, text, content type and chain, falling back to plain text
      and this hop's chain where the callee sent none. */
  function RelayResponse(req: Request, v: Visit, url: string, parse: Parser, relay: Outcome): (r: Response)
    ensures "content-type" in r.headers && "x-hop-chain" in r.headers && "x-hop-log" in r.headers
    ensures relay.TransportError? ==>
      && r.status == 502 && r.body == Some("Failed to reach hop at " + url)
      && r.headers["content-type"] == "text/plain" && r.headers["x-hop-chain"] == v.chain
      && r.headers["x-hop-log"] == EncodeLog(v.lines + [Stringify(ErrorRecord(relay.error))])
    ensures relay.Resp? ==>
      && r.status == relay.status && r.body == Some(relay.body)
      && r.headers["content-type"] == HeaderOr(relay.headers, "content-type", "text/plain")
      && r.headers["x-hop-chain"] == HeaderOr(relay.headers, "x-hop-chain", v.chain)
      && r.headers["x-hop-log"] == ReturnedLog(v, relay.headers, parse)
  {
    match relay
    case TransportError(err) =>
      var hs := map["content-type" := "text/plain", "x-hop-chain" := v.chain,
                    "x-hop-log" := EncodeLog(v.lines + [Stringify(ErrorRecord(err))])];
      SetResponseHeaders(req, 502, hs, Some("Failed to reach hop at " + url));
      Unreached(req, v, err, "Failed to reach hop at " + url)
    case Resp(status, h, text) =>
      var hs := map["content-type" := HeaderOr(h, "content-type", "text/plain"),
                    "x-hop-chain" := HeaderOr(h, "x-hop-chain", v.chain),
                    "x-hop-log" := ReturnedLog(v, h, parse)];
      SetResponseHeaders(req, status, hs, Some(text));
      SetResponse(req, status, hs, Some(text))
  }

  /** An invocation that ends with `callHop`. */
  function Relayed(gen: Option<Worker.GenCall>, req: Request, v: Visit, url: string, direction: string,
                   body: string, contentType: string, parse: Parser, relay: Outcome): (inv: Invocation)
    ensures inv.gen == gen
    ensures inv.hop == Some(Worker.HopCall(url, HopHeaders(v, direction, contentType), body))
    ensures inv.Invocation? && inv.response == RelayResponse(req, v, url, parse, relay)
  {
    Invocation(gen, Some(Worker.HopCall(url, HopHeaders(v, direction, contentType), body)),
               RelayResponse(req, v, url, parse, relay))
  }

  /** The log a relayed response carries decodes to the callee's log when
      it sent one, and to this hop's log otherwise. */
  lemma RelayedLog(req: Request, v: Visit, url: string, parse: Parser, status: nat, h: Headers, text: string)
    requires ParseInvertsStringify(parse)
    requires v.log == EncodeLog(v.lines)
    ensures var r := RelayResponse(req, v, url, parse, Resp(status, h, text));
      var down := ParseHopLogHeader(HeaderOr(h, "x-hop-log", ""), parse);
      && r.headers["x-hop-log"] == ReturnedLog(v, h, parse)
      && ParseHopLogHeader(r.headers["x-hop-log"], parse) == if down != [] then down else v.lines
  {
    var down := ParseHopLogHeader(HeaderOr(h, "x-hop-log", ""), parse);
    DecodeEncode(down, parse);
    DecodeEncode(v.lines, parse);
  }

  /** The JSON payload the body carries: `JSON.parse(body)` for a non-empty
      body, nothing where that throws. */
  function Payload(body: string, parse: Parser): Option<Json>
  {
    if body != "" then parse(body) else None
  }

  /** The request document for the generation service; building it throws
      where building the conversation does. */
  function GenDocument(env: Env, body: string, parse: Parser): (r: Attempt<Json>)
    ensures r.Threw? <==> RequestMessages(Payload(body, parse), body).Threw?
    ensures r.Threw? ==> r.error == ConvertError
    ensures r.Returned? ==>
      && Prop(r.value, "model") == Some(JStr(RequestModel(Payload(body, parse), ConfiguredModel(env))))
      && Prop(r.value, "messages") == Some(MessagesJson(RequestMessages(Payload(body, parse), body).value))
  {
    var payload := Payload(body, parse);
    match RequestMessages(payload, body)
    case Threw(e) => Threw(e)
    case Returned(messages) =>
      var model := RequestModel(payload, ConfiguredModel(env));
      RequestDocumentFields(model, messages, payload, "model");
      Returned(RequestDocument(model, messages, payload))
  }

  /** The headers of the generation call. */
  function GenHeaders(env: Env, req: Request, parseUrl: Referer.UrlParser): Headers
  {
    map["authorization" := "Bearer " + env.apiKey,
        "content-type" := "application/json",
        "http-referer" := Referer.Referer(env.site, req.headers, parseUrl),
        "x-title" := AppTitle]
  }

  /** The generation call of the last forward hop, or the error thrown
      while building its body. */
  function GenRequest(env: Env, req: Request, body: string, parse: Parser, parseUrl: Referer.UrlParser): (r: Attempt<Worker.GenCall>)
    ensures r.Threw? <==> RequestMessages(Payload(body, parse), body).Threw?
    ensures r.Threw? ==> r.error == ConvertError
    ensures r.Returned? ==> r.value.url == Endpoint && r.value.headers == GenHeaders(env, req, parseUrl)
  {
    match GenDocument(env, body, parse)
    case Threw(e) => Threw(e)
    case Returned(doc) => Returned(Worker.GenCall(Endpoint, GenHeaders(env, req, parseUrl), Stringify(doc)))
  }

  /** The forward leg: relay to the next hop, or (with a key) build the
      generation call `call`, which may throw, make it and relay its text
      back or answer with it. */
  function Forward(env: Env, req: Request, v: Visit, body: string, call: Attempt<Worker.GenCall>, parse: Parser,
                   gen: Outcome, relay: Outcome): Invocation
  {
    if env.nextHop != "" then
      Relayed(None, req, v, env.nextHop, "forward", body, HeaderOr(req.headers, "content-type", "text/plain"), parse, relay)
    else if env.apiKey == "" then
      Invocation(None, None, SetResponse(req, 500, map[], Some(MissingKeyMessage)))
    else if call.Threw? then
      Uncaught(None, None, call.error)
    else
      match gen
      case TransportError(err) => Invocation(Some(call.value), None, Unreached(req, v, err, "Failed to reach OpenRouter"))
      case Resp(_, _, text) =>
        if env.prevHop != "" then Relayed(Some(call.value), req, v, env.prevHop, "return", text, "application/json", parse, relay)
        else Invocation(Some(call.value), None, SetResponse(req, 200, map["content-type" := "application/json",
                                                                          "x-hop-chain" := v.chain,
                                                                          "x-hop-log" := v.log], Some(text)))
  }

  /** The value `map` gives for one part of an array `content`: a string
      part itself, else its `text` when truthy, else "". Reading `text` of a
      `null` part throws (None). */
  function PartValue(part: Json): (r: Option<Json>)
    ensures r.None? <==> part.JNull?
    ensures r.Some? ==> !r.value.JNull?
  {
    if part.JNull? then None
    else if part.JStr? then Some(part)
    else if Present(Prop(part, "text")) then Prop(part, "text")
    else Some(JStr(""))
  }

  /** `values.join("")`: each value in its `String` form, `null` as "";
      it throws when converting a value throws. */
  function JoinValues(values: seq<Json>): (r: Attempt<string>)
    ensures r.Threw? <==> exists k :: 0 <= k < |values| && ConvertThrows(values[k])
    ensures r.Threw? ==> r.error == ConvertError
    ensures r.Returned? && values != [] ==>
      && (values[0].JNull? || ToJsString(values[0]).Returned?)
      && JoinValues(values[1..]).Returned?
      && r.value == (if values[0].JNull? then "" else ToJsString(values[0]).value) + JoinValues(values[1..]).value
    decreases |values|
  {
    if values == [] then Returned("")
    else
      var rest := JoinValues(values[1..]);
      assert forall k :: 1 <= k < |values| ==> values[k] == values[1..][k - 1];
      var head := if values[0].JNull? then Returned("") else ToJsString(values[0]);
      if head.Threw? then Threw(head.error)
      else if rest.Threw? then Threw(rest.error)
      else Returned(head.value + rest.value)
  }

  /** Joining string values concatenates them. */
  lemma {:induction false} JoinValuesOfStrings(values: seq<Json>, texts: seq<string>)
    requires |values| == |texts| && forall k :: 0 <= k < |values| ==> values[k] == JStr(texts[k])
    ensures JoinValues(values) == Returned(Join(texts, ""))
  {
    if values != [] {
      assert forall k :: 0 <= k < |values| - 1 ==> values[1..][k] == JStr(texts[1..][k]);
      JoinValuesOfStrings(values[1..], texts[1..]);
      if |values| == 1 {
        assert texts[1..] == [];
      } else {
        assert texts[0] + "" == texts[0];
      }
    }
  }

  /** `content.map(...).join("")`: the `map` throws first, on a `null` part;
      otherwise the `join` throws when converting a part's value throws. */
  function JoinPartTexts(parts: seq<Json>): (r: Attempt<string>)
    ensures (exists k :: 0 <= k < |parts| && parts[k].JNull?) ==> r == Threw(NullPartError)
    ensures (forall k :: 0 <= k < |parts| ==> !parts[k].JNull?) ==>
      (r.Threw? <==> exists k :: 0 <= k < |parts| && ConvertThrows(PartValue(parts[k]).value))
      && (r.Threw? ==> r.error == ConvertError)
    ensures (forall k :: 0 <= k < |parts| ==> !parts[k].JNull?) ==>
      r == JoinValues(seq(|parts|, k requires 0 <= k < |parts| => PartValue(parts[k]).value))
  {
    if exists k :: 0 <= k < |parts| && parts[k].JNull? then Threw(NullPartError)
    else
      var values := seq(|parts|, k requires 0 <= k < |parts| => PartValue(parts[k]).value);
      assert forall k :: 0 <= k < |parts| ==> values[k] == PartValue(parts[k]).value;
      JoinValues(values)
  }

  /** Parts that are strings, or objects whose `text` is a non-empty string,
      join to the concatenation of those strings. */
  lemma JoinPartTextsOfStrings(parts: seq<Json>)
    requires forall k :: 0 <= k < |parts| ==> PartValue(parts[k]).Some? && PartValue(parts[k]).value.JStr?
    ensures JoinPartTexts(parts)
      == Returned(Join(seq(|parts|, k requires 0 <= k < |parts| => PartValue(parts[k]).value.s), ""))
  {
    var values := seq(|parts|, k requires 0 <= k < |parts| => PartValue(parts[k]).value);
    JoinValuesOfStrings(values, seq(|parts|, k requires 0 <= k < |parts| => PartValue(parts[k]).value.s));
  }

  /** `parsed.choices[0].message.content`, short-circuiting on a falsy
      step (a falsy value has no properties, so the lookups give nothing). */
  function Content(parsed: Json): Option<Json>
  {
    PropOpt(PropOpt(AtOpt0(Prop(parsed, "choices")), "message"), "content")
  }

  function ExtractionError(e: string): string
  {
    "(error extracting assistant text: " + e + ")"
  }

  /** The assistant text the originating hop reports. */
  function AssistantText(parsed: Json): (r: string)
    ensures parsed.JNull? ==> r == ExtractionError(NullChoicesError)
    ensures !parsed.JNull? && !Present(Content(parsed)) ==> r == NoAssistantText
    ensures !parsed.JNull? && Present(Content(parsed)) && Content(parsed).value.JStr? ==> r == Content(parsed).value.s
    ensures !parsed.JNull? && Present(Content(parsed)) && Content(parsed).value.JArr? ==>
      var parts := Content(parsed).value.items;
      && (JoinPartTexts(parts).Returned? ==> r == JoinPartTexts(parts).value)
      && ((exists k :: 0 <= k < |parts| && parts[k].JNull?) ==> r == ExtractionError(NullPartError))
      && ((forall k :: 0 <= k < |parts| ==> !parts[k].JNull?)
          && (exists k :: 0 <= k < |parts| && ConvertThrows(PartValue(parts[k]).value)) ==>
            r == ExtractionError(ConvertError))
    ensures !parsed.JNull? && Present(Content(parsed)) && !Content(parsed).value.JStr? && !Content(parsed).value.JArr? ==>
      r == NoAssistantText
  {
    if parsed.JNull? then ExtractionError(NullChoicesError)
    else
      var c := Content(parsed);
      if !Present(c) then NoAssistantText
      else
        match c.value
        case JStr(s) => s
        case JArr(parts) =>
          (match JoinPartTexts(parts)
           case Returned(t) => t
           case Threw(e) => ExtractionError(e))
        case _ => NoAssistantText
  }

  /** The assistant text of a standard completion with non-empty string
      content is that content. */
  lemma AssistantTextOfCompletion(s: string)
    requires s != ""
    ensures AssistantText(Worker.CompletionShape(JStr(s))) == s
  {
  }

  /** The `hop_log` records: each line parsed, or `{raw: line}`. */
  function LogRecords(lines: seq<string>, parse: Parser): (r: seq<Json>)
    ensures |r| == |lines|
    ensures forall k :: 0 <= k < |r| ==> r[k] == ParseOrRaw(parse, lines[k])
  {
    seq(|lines|, k requires 0 <= k < |lines| => ParseOrRaw(parse, lines[k]))
  }

  /** The summary the originating hop returns after the return leg. */
  function SummaryDocument(v: Visit, body: string, parse: Parser): (j: Json)
    ensures Prop(j, "phase") == Some(JStr(Worker.CompletedPhase))
    ensures Prop(j, "hop_chain") == Some(JStr(v.chain))
    ensures Prop(j, "hop_log") == Some(JArr(LogRecords(v.lines, parse)))
    ensures Prop(j, "assistant_text") == Some(JStr(AssistantText(ParseOrRaw(parse, body))))
    ensures Prop(j, "openrouter_response") == Some(ParseOrRaw(parse, body))
  {
    var parsed := ParseOrRaw(parse, body);
    var records := LogRecords(v.lines, parse);
    var text := AssistantText(parsed);
    Worker.SummaryPhaseField(v.chain, records, text, parsed);
    Worker.SummaryChainField(v.chain, records, text, parsed);
    Worker.SummaryLogField(v.chain, records, text, parsed);
    Worker.SummaryTextField(v.chain, records, text, parsed);
    Worker.SummaryResponseField(v.chain, records, text, parsed);
    Worker.SummaryObject(v.chain, records, text, parsed)
  }

  /** The return leg: relay toward the previous hop, or summarise. */
  function Return(env: Env, req: Request, v: Visit, body: string, parse: Parser, relay: Outcome): Invocation
  {
    if env.prevHop != "" then Relayed(None, req, v, env.prevHop, "return", body, "application/json", parse, relay)
    else Invocation(None, None, SetResponse(req, 200, map["content-type" := "application/json",
                                                          "x-hop-chain" := v.chain,
                                                          "x-hop-log" := v.log],
                                            Some(StringifyPretty(SummaryDocument(v, body, parse)))))
  }

  /** One invocation of the function. A preflight is answered before any
      chain or log work; otherwise the direction picks the leg. */
  function Handle(env: Env, req: Request, now: string, parse: Parser, parseUrl: Referer.UrlParser,
                  gen: Outcome, relay: Outcome): (inv: Invocation)
  {
    if req.verb == "OPTIONS" then Invocation(None, None, SetResponse(req, 204, map[], None))
    else
      var v := Arrive(env, req, now, parse);
      var body := BodyText(req);
      if v.direction == "forward" then Forward(env, req, v, body, GenRequest(env, req, body, parse, parseUrl), parse, gen, relay)
      else if v.direction == "return" then Return(env, req, v, body, parse, relay)
      else Invocation(None, None, SetResponse(req, 500, map[], Some("Invalid direction state")))
  }

  // ---- The legs

  /** What every hop call shares: it carries the visit's chain and log, and
      the response is what `callHop` makes of the callee's answer. */
  predicate RelaysVisit(inv: Invocation, req: Request, v: Visit, parse: Parser, relay: Outcome)
  {
    inv.hop.Some? ==>
      && "x-hop-chain" in inv.hop.value.headers && inv.hop.value.headers["x-hop-chain"] == v.chain
      && "x-hop-log" in inv.hop.value.headers && inv.hop.value.headers["x-hop-log"] == v.log
      && inv.Invocation? && inv.response == RelayResponse(req, v, inv.hop.value.url, parse, relay)
  }

  lemma ForwardRelaysVisit(env: Env, req: Request, v: Visit, body: string, call: Attempt<Worker.GenCall>, parse: Parser,
                           gen: Outcome, relay: Outcome)
    ensures RelaysVisit(Forward(env, req, v, body, call, parse, gen, relay), req, v, parse, relay)
  {
    if env.nextHop != "" {
      assert Forward(env, req, v, body, call, parse, gen, relay)
          == Relayed(None, req, v, env.nextHop, "forward", body, HeaderOr(req.headers, "content-type", "text/plain"), parse, relay);
    } else if env.apiKey != "" && call.Returned? && gen.Resp? && env.prevHop != "" {
      assert Forward(env, req, v, body, call, parse, gen, relay)
          == Relayed(Some(call.value), req, v, env.prevHop, "return", gen.body, "application/json", parse, relay);
    }
  }

  lemma ReturnRelaysVisit(env: Env, req: Request, v: Visit, body: string, parse: Parser, relay: Outcome)
    ensures RelaysVisit(Return(env, req, v, body, parse, relay), req, v, parse, relay)
  {
  }

  /** Which calls the forward leg makes: with no next hop and a key set,
      building the generation call either throws, ending the invocation
      with no call, or gives the call that is made; a hop call goes toward
      the next hop, or back toward the previous one after a generation
      response. */
  lemma ForwardCalls(env: Env, req: Request, v: Visit, body: string, call: Attempt<Worker.GenCall>, parse: Parser,
                     gen: Outcome, relay: Outcome)
    ensures var inv := Forward(env, req, v, body, call, parse, gen, relay);
      && (inv.Uncaught? <==> env.nextHop == "" && env.apiKey != "" && call.Threw?)
      && (inv.Uncaught? ==> inv.error == call.error)
      && (inv.gen.Some? <==> env.nextHop == "" && env.apiKey != "" && call.Returned?)
      && (inv.gen.Some? ==> inv.gen.value == call.value)
      && (inv.hop.Some? <==> env.nextHop != "" || (env.apiKey != "" && call.Returned? && gen.Resp? && env.prevHop != ""))
      && (inv.hop.Some? ==> inv.hop.value.url == if env.nextHop != "" then env.nextHop else env.prevHop)
  {
  }

  /** The return leg makes no generation call, and a hop call exactly when
      there is a previous hop. */
  lemma ReturnCalls(env: Env, req: Request, v: Visit, body: string, parse: Parser, relay: Outcome)
    ensures var inv := Return(env, req, v, body, parse, relay);
      inv.gen.None? && (inv.hop.Some? <==> env.prevHop != "")
  {
  }

  /** The 502 for a rejected call: the log it carries reads back as the
      visit's lines and one more, which parses as `{error: err}`. */
  lemma UnreachedLog(req: Request, v: Visit, err: string, message: string, parse: Parser)
    requires ParseInvertsStringify(parse)
    ensures var r := Unreached(req, v, err, message);
      && r.status == 502 && r.body == Some(message)
      && "x-hop-log" in r.headers
      && ParseHopLogHeader(r.headers["x-hop-log"], parse) == v.lines + [Stringify(ErrorRecord(err))]
      && parse(Stringify(ErrorRecord(err))) == Some(ErrorRecord(err))
  {
    var log := EncodeLog(v.lines + [Stringify(ErrorRecord(err))]);
    assert Unreached(req, v, err, message).headers["x-hop-log"] == log;
    DecodeEncode(v.lines + [Stringify(ErrorRecord(err))], parse);
    NotIndexLike("error");
    assert Plain(ErrorRecord(err));
  }

  // ---- One invocation

  /** Past the preflight check the invocation is the leg its direction
      names, or the 500 for an unknown direction. */
  lemma HandleLegs(env: Env, req: Request, now: string, parse: Parser, parseUrl: Referer.UrlParser, gen: Outcome, relay: Outcome)
    requires req.verb != "OPTIONS"
    ensures var inv := Handle(env, req, now, parse, parseUrl, gen, relay);
      var v := Arrive(env, req, now, parse);
      var body := BodyText(req);
      && (v.direction == "forward" ==> inv == Forward(env, req, v, body, GenRequest(env, req, body, parse, parseUrl), parse, gen, relay))
      && (v.direction == "return" ==> inv == Return(env, req, v, body, parse, relay))
      && (v.direction != "forward" && v.direction != "return" ==>
            inv == Invocation(None, None, SetResponse(req, 500, map[], Some("Invalid direction state"))))
  {
  }

  /** A preflight gets 204 with a null body and the CORS headers, and makes
      no call. */
  lemma Preflight(env: Env, req: Request, now: string, parse: Parser, parseUrl: Referer.UrlParser, gen: Outcome, relay: Outcome)
    requires req.verb == "OPTIONS"
    ensures var inv := Handle(env, req, now, parse, parseUrl, gen, relay);
      inv.gen.None? && inv.hop.None? && inv.Invocation? && inv.response.status == 204 && inv.response.body.None?
      && inv.response.headers == Cors(req.headers)
  {
    assert Cors(req.headers) + map[] == Cors(req.headers);
  }

  /** An unknown direction is a 500 with no call. */
  lemma InvalidDirection(env: Env, req: Request, now: string, parse: Parser, parseUrl: Referer.UrlParser, gen: Outcome, relay: Outcome)
    requires req.verb != "OPTIONS"
    requires var d := HeaderOr(req.headers, "x-direction", "forward"); d != "forward" && d != "return"
    ensures var inv := Handle(env, req, now, parse, parseUrl, gen, relay);
      inv.gen.None? && inv.hop.None? && inv.Invocation? && inv.response.status == 500
      && inv.response.body == Some("Invalid direction state")
  {
    HandleLegs(env, req, now, parse, parseUrl, gen, relay);
  }

  /** The generation service is called exactly by the last forward hop
      when a key is configured and building the conversation does not
      throw. */
  lemma CallsMade(env: Env, req: Request, now: string, parse: Parser, parseUrl: Referer.UrlParser, gen: Outcome, relay: Outcome)
    ensures var inv := Handle(env, req, now, parse, parseUrl, gen, relay);
      var d := Arrive(env, req, now, parse).direction;
      var throws := RequestMessages(Payload(BodyText(req), parse), BodyText(req)).Threw?;
      inv.gen.Some? <==> req.verb != "OPTIONS" && d == "forward" && env.nextHop == "" && env.apiKey != "" && !throws
  {
    if req.verb != "OPTIONS" {
      var v := Arrive(env, req, now, parse);
      var body := BodyText(req);
      HandleLegs(env, req, now, parse, parseUrl, gen, relay);
      if v.direction == "forward" {
        ForwardCalls(env, req, v, body, GenRequest(env, req, body, parse, parseUrl), parse, gen, relay);
      } else if v.direction == "return" {
        ReturnCalls(env, req, v, body, parse, relay);
      }
    }
  }

  /** A hop call is made exactly when a next hop exists on the forward leg,
      when a previous hop exists after a generation response, or when a
      previous hop exists on the return leg. */
  lemma HopCallsMade(env: Env, req: Request, now: string, parse: Parser, parseUrl: Referer.UrlParser, gen: Outcome, relay: Outcome)
    ensures var inv := Handle(env, req, now, parse, parseUrl, gen, relay);
      var d := Arrive(env, req, now, parse).direction;
      var throws := RequestMessages(Payload(BodyText(req), parse), BodyText(req)).Threw?;
      inv.hop.Some? <==> (req.verb != "OPTIONS" &&
        ((d == "forward" && (env.nextHop != "" || (env.apiKey != "" && !throws && gen.Resp? && env.prevHop != "")))
         || (d == "return" && env.prevHop != "")))
  {
    if req.verb != "OPTIONS" {
      var v := Arrive(env, req, now, parse);
      var body := BodyText(req);
      HandleLegs(env, req, now, parse, parseUrl, gen, relay);
      if v.direction == "forward" {
        ForwardCalls(env, req, v, body, GenRequest(env, req, body, parse, parseUrl), parse, gen, relay);
      } else if v.direction == "return" {
        ReturnCalls(env, req, v, body, parse, relay);
      }
    }
  }

  /** An invocation fails with an uncaught error exactly when it is the
      last forward hop's, a key is configured and building the
      conversation throws; the error is the failed conversion's. */
  lemma UncaughtExactly(env: Env, req: Request, now: string, parse: Parser, parseUrl: Referer.UrlParser, gen: Outcome, relay: Outcome)
    ensures var inv := Handle(env, req, now, parse, parseUrl, gen, relay);
      var d := Arrive(env, req, now, parse).direction;
      var throws := RequestMessages(Payload(BodyText(req), parse), BodyText(req)).Threw?;
      && (inv.Uncaught? <==> req.verb != "OPTIONS" && d == "forward" && env.nextHop == "" && env.apiKey != "" && throws)
      && (inv.Uncaught? ==> inv == Uncaught(None, None, ConvertError))
  {
    if req.verb != "OPTIONS" {
      var v := Arrive(env, req, now, parse);
      var body := BodyText(req);
      HandleLegs(env, req, now, parse, parseUrl, gen, relay);
      if v.direction == "forward" {
        ForwardCalls(env, req, v, body, GenRequest(env, req, body, parse, parseUrl), parse, gen, relay);
      }
    }
  }

  /** On the last forward hop with a key, a `messages` entry with a role
      whose content is an object with its own `toString` key makes the
      invocation fail before any call. */
  lemma ConversionThrowUncaught(env: Env, req: Request, now: string, parse: Parser, parseUrl: Referer.UrlParser,
                                gen: Outcome, relay: Outcome, p: Json, k: nat)
    requires req.verb != "OPTIONS" && HeaderOr(req.headers, "x-direction", "forward") == "forward"
    requires env.nextHop == "" && env.apiKey != ""
    requires Payload(BodyText(req), parse) == Some(p)
    requires IsObject(p) && ArrProp(p, "messages").Some?
    requires k < |ArrProp(p, "messages").value|
    requires var m := ArrProp(p, "messages").value[k];
      && IsObject(m) && RoleOf(m) != ""
      && Prop(m, "content").Some? && Prop(m, "content").value.JObj? && ConvertThrows(Prop(m, "content").value)
    ensures Handle(env, req, now, parse, parseUrl, gen, relay) == Uncaught(None, None, ConvertError)
  {
    RequestMessagesThrow(p, BodyText(req), k);
    HandleLegs(env, req, now, parse, parseUrl, gen, relay);
  }

  /** The invocation's hop call, when it makes one, is a relay of the visit. */
  lemma HandleRelaysVisit(env: Env, req: Request, now: string, parse: Parser, parseUrl: Referer.UrlParser, gen: Outcome, relay: Outcome)
    ensures RelaysVisit(Handle(env, req, now, parse, parseUrl, gen, relay), req, Arrive(env, req, now, parse), parse, relay)
  {
    if req.verb != "OPTIONS" {
      var v := Arrive(env, req, now, parse);
      var body := BodyText(req);
      HandleLegs(env, req, now, parse, parseUrl, gen, relay);
      ForwardRelaysVisit(env, req, v, body, GenRequest(env, req, body, parse, parseUrl), parse, gen, relay);
      ReturnRelaysVisit(env, req, v, body, parse, relay);
    }
  }

  /** Every hop call carries this hop's chain and its extended log, which
      decodes to the received log plus this hop's line. */
  lemma HopCallCarriesVisit(env: Env, req: Request, now: string, parse: Parser, parseUrl: Referer.UrlParser, gen: Outcome, relay: Outcome)
    requires ParseInvertsStringify(parse)
    ensures var inv := Handle(env, req, now, parse, parseUrl, gen, relay);
      var v := Arrive(env, req, now, parse);
      inv.hop.Some? ==>
        && "x-hop-chain" in inv.hop.value.headers && inv.hop.value.headers["x-hop-chain"] == v.chain
        && "x-hop-log" in inv.hop.value.headers
        && ParseHopLogHeader(inv.hop.value.headers["x-hop-log"], parse)
             == ParseHopLogHeader(HeaderOr(req.headers, "x-hop-log", ""), parse) + [OwnLine(env, req, now, parse)]
  {
    HandleRelaysVisit(env, req, now, parse, parseUrl, gen, relay);
    ArrivalLog(env, req, now, parse);
  }

  /** A relay passes the callee's status and text on unchanged. */
  lemma RelayPassesThrough(env: Env, req: Request, now: string, parse: Parser, parseUrl: Referer.UrlParser,
                           gen: Outcome, status: nat, h: Headers, text: string)
    ensures var inv := Handle(env, req, now, parse, parseUrl, gen, Resp(status, h, text));
      inv.hop.Some? ==>
        && inv.Invocation? && inv.response.status == status && inv.response.body == Some(text)
        && "content-type" in inv.response.headers
        && inv.response.headers["content-type"] == HeaderOr(h, "content-type", "text/plain")
        && "x-hop-chain" in inv.response.headers
        && inv.response.headers["x-hop-chain"] == HeaderOr(h, "x-hop-chain", Arrive(env, req, now, parse).chain)
  {
    HandleRelaysVisit(env, req, now, parse, parseUrl, gen, Resp(status, h, text));
  }

  /** The last forward hop without a key answers 500 and calls nothing. */
  lemma MissingKey(env: Env, req: Request, now: string, parse: Parser, parseUrl: Referer.UrlParser, gen: Outcome, relay: Outcome)
    requires req.verb != "OPTIONS" && HeaderOr(req.headers, "x-direction", "forward") == "forward"
    requires env.nextHop == "" && env.apiKey == ""
    ensures var inv := Handle(env, req, now, parse, parseUrl, gen, relay);
      inv.gen.None? && inv.hop.None? && inv.Invocation? && inv.response.status == 500 && inv.response.body == Some(MissingKeyMessage)
  {
    HandleLegs(env, req, now, parse, parseUrl, gen, relay);
  }

  /** A hop with no neighbours answers 200 with the service's text, as
      JSON, whatever status the service answered with; a call whose
      building threw ends the invocation with that error and no call. */
  lemma LoneForward(env: Env, req: Request, v: Visit, body: string, call: Attempt<Worker.GenCall>, parse: Parser,
                    status: nat, h: Headers, text: string, relay: Outcome)
    requires env.nextHop == "" && env.prevHop == "" && env.apiKey != ""
    ensures var inv := Forward(env, req, v, body, call, parse, Resp(status, h, text), relay);
      && (call.Threw? ==> inv == Uncaught(None, None, call.error))
      && (call.Returned? ==>
            && inv.gen == Some(call.value) && inv.hop.None? && inv.Invocation?
            && inv.response.status == 200 && inv.response.body == Some(text)
            && "content-type" in inv.response.headers && inv.response.headers["content-type"] == "application/json")
  {
    if call.Returned? {
      var hs := map["content-type" := "application/json", "x-hop-chain" := v.chain, "x-hop-log" := v.log];
      assert Forward(env, req, v, body, call, parse, Resp(status, h, text), relay)
          == Invocation(Some(call.value), None, SetResponse(req, 200, hs, Some(text)));
      SetResponseHeaders(req, 200, hs, Some(text));
    }
  }

  /** The lone hop answers 200 with the service's text unless building the
      conversation throws, when the invocation fails with no call. */
  lemma LoneHopAnswers200(env: Env, req: Request, now: string, parse: Parser, parseUrl: Referer.UrlParser,
                          status: nat, h: Headers, text: string, relay: Outcome)
    requires req.verb != "OPTIONS" && HeaderOr(req.headers, "x-direction", "forward") == "forward"
    requires env.nextHop == "" && env.prevHop == "" && env.apiKey != ""
    ensures var inv := Handle(env, req, now, parse, parseUrl, Resp(status, h, text), relay);
      var throws := RequestMessages(Payload(BodyText(req), parse), BodyText(req)).Threw?;
      && (throws ==> inv == Uncaught(None, None, ConvertError))
      && (!throws ==>
            && inv.gen.Some? && inv.hop.None? && inv.Invocation?
            && inv.response.status == 200 && inv.response.body == Some(text)
            && "content-type" in inv.response.headers && inv.response.headers["content-type"] == "application/json")
  {
    var v := Arrive(env, req, now, parse);
    var body := BodyText(req);
    HandleLegs(env, req, now, parse, parseUrl, Resp(status, h, text), relay);
    LoneForward(env, req, v, body, GenRequest(env, req, body, parse, parseUrl), parse, status, h, text, relay);
  }

  /** When the generation call is rejected the hop answers 502 and its log
      gains one line, which reads back as `{error: err}`; when building the
      conversation throws, no call is made and the invocation fails. */
  lemma GenerationErrorLogged(env: Env, req: Request, now: string, parse: Parser, parseUrl: Referer.UrlParser,
                              err: string, relay: Outcome)
    requires ParseInvertsStringify(parse)
    requires req.verb != "OPTIONS" && HeaderOr(req.headers, "x-direction", "forward") == "forward"
    requires env.nextHop == "" && env.apiKey != ""
    ensures var inv := Handle(env, req, now, parse, parseUrl, TransportError(err), relay);
      var v := Arrive(env, req, now, parse);
      var throws := RequestMessages(Payload(BodyText(req), parse), BodyText(req)).Threw?;
      && (throws ==> inv == Uncaught(None, None, ConvertError))
      && (!throws ==>
            && inv.gen.Some? && inv.hop.None? && inv.Invocation?
            && inv.response.status == 502 && inv.response.body == Some("Failed to reach OpenRouter")
            && "x-hop-log" in inv.response.headers
            && ParseHopLogHeader(inv.response.headers["x-hop-log"], parse) == v.lines + [Stringify(ErrorRecord(err))])
      && parse(Stringify(ErrorRecord(err))) == Some(ErrorRecord(err))
  {
    var v := Arrive(env, req, now, parse);
    HandleLegs(env, req, now, parse, parseUrl, TransportError(err), relay);
    UnreachedLog(req, v, err, "Failed to reach OpenRouter", parse);
  }

  /** The return leg of the originating hop answers 200 with the summary. */
  lemma ReturnSummarises(env: Env, req: Request, v: Visit, body: string, parse: Parser, relay: Outcome)
    requires env.prevHop == ""
    ensures var inv := Return(env, req, v, body, parse, relay);
      && inv.gen.None? && inv.hop.None? && inv.Invocation? && inv.response.status == 200
      && inv.response.body == Some(StringifyPretty(SummaryDocument(v, body, parse)))
      && "x-hop-chain" in inv.response.headers && inv.response.headers["x-hop-chain"] == v.chain
      && "x-hop-log" in inv.response.headers && inv.response.headers["x-hop-log"] == v.log
  {
    var hs := map["content-type" := "application/json", "x-hop-chain" := v.chain, "x-hop-log" := v.log];
    var r := SetResponse(req, 200, hs, Some(StringifyPretty(SummaryDocument(v, body, parse))));
    assert r.headers == Cors(req.headers) + hs;
    assert "x-hop-chain" in hs && "x-hop-log" in hs;
  }

  /** The originating hop on the return leg answers 200 with the summary
      and makes no call. */
  lemma OriginSummarises(env: Env, req: Request, now: string, parse: Parser, parseUrl: Referer.UrlParser, gen: Outcome, relay: Outcome)
    requires req.verb != "OPTIONS" && HeaderOr(req.headers, "x-direction", "forward") == "return"
    requires env.prevHop == ""
    ensures var inv := Handle(env, req, now, parse, parseUrl, gen, relay);
      var v := Arrive(env, req, now, parse);
      && inv.gen.None? && inv.hop.None? && inv.Invocation? && inv.response.status == 200
      && inv.response.body == Some(StringifyPretty(SummaryDocument(v, BodyText(req), parse)))
      && "x-hop-chain" in inv.response.headers && inv.response.headers["x-hop-chain"] == v.chain
      && "x-hop-log" in inv.response.headers && inv.response.headers["x-hop-log"] == v.log
  {
    HandleLegs(env, req, now, parse, parseUrl, gen, relay);
    ReturnSummarises(env, req, Arrive(env, req, now, parse), BodyText(req), parse, relay);
  }
}
