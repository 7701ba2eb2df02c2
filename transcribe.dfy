/** The transcription endpoint (TranscribeAudio/index.js): one invocation
    checks the request step by step, answering the first failed check with
    a JSON error; a request that passes becomes one call to the generation
    service with the prompt and the audio, whose answer decides the reply. */
module Transcribe {
  import opened Wrappers
  import opened Text
  import opened Json
  import opened Http
  import Referer
  import Worker

  const Endpoint := "https://openrouter.ai/api/v1/chat/completions"
  const AppTitle := "muttr-audio-transcribe"
  const JsonUtf8 := "application/json; charset=utf-8"
  const DefaultPrompt := "Transcribe this audio exactly as spoken and return just the text."
  const DefaultTarget := "seed"
  const DefaultModel := "google/gemini-2.0-flash-lite-001"
  const DefaultFormat := "wav"

  /** The app settings the function reads; an unset one is "". */
  datatype Env = Env(transcribeKey: string, audioKey: string, openrouterKey: string,
                     transcribeModel: string, audioModel: string, site: Referer.Site)

  /** An incoming request: method, lower-cased headers, the raw body text,
      and `req.body` as the runtime parsed it (a string body is a JSON
      string). */
  datatype Request = Request(verb: string, headers: Headers, rawBody: string, body: Option<Json>)

  /** What the checks extract from an acceptable request. */
  datatype Job = Job(key: string, data: string, format: string, prompt: string, target: string, model: string)

  /** The outcome of the checks: a job, or the status and error message of
      the first check that failed. */
  datatype Checked = Accepted(job: Job) | Rejected(status: nat, error: string)

  /** What one invocation does: the generation call it makes, if any, and
      the response it leaves in `context.res`. */
  datatype Invocation = Invocation(gen: Option<Worker.GenCall>, response: Response)

  // ---- Responses

  function Cors(headers: Headers): Headers
  {
    map["access-control-allow-origin" := HeaderOr(headers, "origin", "*"),
        "access-control-allow-methods" := "POST, OPTIONS",
        "access-control-allow-headers" := "Content-Type"]
  }

  /** A reply with the CORS headers, the JSON content type and a body. */
  predicate JsonReply(req: Request, r: Response)
  {
    r.headers.Keys == Cors(req.headers).Keys + {"content-type"} && r.headers["content-type"] == JsonUtf8
    && (forall name :: name in Cors(req.headers) ==> r.headers[name] == Cors(req.headers)[name])
    && r.body.Some?
  }

  /** `respond`: the CORS headers and the JSON content type, and the body as
      text. */
  function Respond(req: Request, status: nat, body: string): (r: Response)
    ensures r.status == status && r.body == Some(body)
    ensures JsonReply(req, r)
  {
    Response(status, Cors(req.headers)["content-type" := JsonUtf8], Some(body))
  }

  /** `{error: message}`. */
  function ErrorDocument(message: string): Json
  {
    JObj([("error", JStr(message))])
  }

  // ---- The checks

  /** The first configured key, in the order the settings are read. */
  function ApiKey(env: Env): (r: string)
    ensures r == "" <==> env.transcribeKey == "" && env.audioKey == "" && env.openrouterKey == ""
    ensures r != "" ==> r == env.transcribeKey || r == env.audioKey || r == env.openrouterKey
    ensures env.transcribeKey != "" ==> r == env.transcribeKey
  {
    if env.transcribeKey != "" then env.transcribeKey
    else if env.audioKey != "" then env.audioKey
    else env.openrouterKey
  }

  /** `parseBody`: an object body as it is; a non-blank string body, or else
      a non-empty raw body, parsed (nothing where the parse throws). */
  function ParseBody(req: Request, parse: Parser): (r: Option<Json>)
    ensures req.body.Some? && IsObject(req.body.value) ==> r == req.body
    ensures !(req.body.Some? && IsObject(req.body.value)) && req.body.Some? && req.body.value.JStr? && Trim(req.body.value.s) != "" ==>
      r == parse(req.body.value.s)
    ensures !(req.body.Some? && IsObject(req.body.value)) && !(req.body.Some? && req.body.value.JStr? && Trim(req.body.value.s) != "") ==>
      r == (if req.rawBody != "" then parse(req.rawBody) else None)
  {
    match req.body
    case Some(j) =>
      if IsObject(j) then Some(j)
      else if j.JStr? && Trim(j.s) != "" then parse(j.s)
      else if req.rawBody != "" then parse(req.rawBody)
      else None
    case None => if req.rawBody != "" then parse(req.rawBody) else None
  }

  /** The characters `.` does not match. */
  predicate IsLineTerminator(c: char)
  {
    c == '\n' || c == '\r' || c == '\U{2028}' || c == '\U{2029}'
  }

  /** No line terminator in `s[a..b]`. */
  predicate Clear(s: string, a: nat, b: nat)
    requires a <= b <= |s|
  {
    forall i :: a <= i < b ==> !IsLineTerminator(s[i])
  }

  /** `s` starts with "data:", in any case. */
  predicate HasDataScheme(s: string)
  {
    |s| >= 5 && Lower(s[..5]) == "data:"
  }

  /** ";base64," (in any case) at position `k`. */
  predicate MarkerAt(s: string, k: nat)
  {
    k + 8 <= |s| && Lower(s[k..k + 8]) == ";base64,"
  }

  /** The pattern `^data:.*?;base64,` matches `s[..k + 8]`. */
  predicate PrefixMatch(s: string, k: nat)
  {
    HasDataScheme(s) && 5 <= k && MarkerAt(s, k) && Clear(s, 5, k)
  }

  /** The first marker at or after `k` reached before a line terminator. */
  function FindMarker(s: string, k: nat): (r: Option<nat>)
    requires k <= |s|
    ensures r.Some? ==> (k <= r.value && MarkerAt(s, r.value) && Clear(s, k, r.value)
      && forall m :: k <= m < r.value ==> !MarkerAt(s, m))
    ensures r.None? ==> forall m :: k <= m <= |s| && MarkerAt(s, m) ==> !Clear(s, k, m)
    decreases |s| - k
  {
    if k + 8 > |s| then None
    else if MarkerAt(s, k) then Some(k)
    else if IsLineTerminator(s[k]) then
      assert forall m :: k < m <= |s| ==> !Clear(s, k, m);
      None
    else
      var r := FindMarker(s, k + 1);
      assert forall m :: k + 1 <= m <= |s| && Clear(s, k, m) ==> Clear(s, k + 1, m);
      assert forall m :: k + 1 <= m <= |s| && Clear(s, k + 1, m) ==> Clear(s, k, m);
      r
  }

  /** `.replace(/^data:.*?;base64,/i, "")`. */
  function StripDataUrl(s: string): string
  {
    if !HasDataScheme(s) then s
    else
      match FindMarker(s, 5)
      case Some(k) => s[k + 8..]
      case None => s
  }

  /** Where the pattern matches, the shortest matching prefix is removed. */
  lemma StripDataUrlShortest(s: string, k: nat)
    requires PrefixMatch(s, k)
    requires forall m: nat :: m < k ==> !PrefixMatch(s, m)
    ensures StripDataUrl(s) == s[k + 8..]
  {
    var f := FindMarker(s, 5);
    assert f.Some?;
    assert PrefixMatch(s, f.value);
    assert f.value == k;
  }

  /** Where the pattern does not match, the string is left as it is. */
  lemma StripDataUrlNoMatch(s: string)
    requires forall k :: !PrefixMatch(s, k)
    ensures StripDataUrl(s) == s
  {
    if |s| >= 5 {
      var f := FindMarker(s, 5);
      assert HasDataScheme(s) && f.Some? ==> PrefixMatch(s, f.value);
    }
  }

  /** What is removed is always a matching prefix. */
  lemma StripDataUrlRemovesMatch(s: string)
    requires StripDataUrl(s) != s
    ensures exists k :: PrefixMatch(s, k) && StripDataUrl(s) == s[k + 8..]
  {
    assert HasDataScheme(s);
    assert PrefixMatch(s, FindMarker(s, 5).value);
  }

  /** A data URL with a simple media type is stripped down to its payload. */
  lemma StripDataUrlOf(mediaType: string, payload: string)
    requires forall i :: 0 <= i < |mediaType| ==> mediaType[i] != ';' && !IsLineTerminator(mediaType[i])
    ensures StripDataUrl("data:" + mediaType + ";base64," + payload) == payload
  {
    var s := "data:" + mediaType + ";base64," + payload;
    var k := 5 + |mediaType|;
    assert s[..5] == "data:";
    assert s[k..k + 8] == ";base64,";
    assert s[5..k] == mediaType;
    DataUrlMatches(s, mediaType, k);
    NoEarlierMarker(s, mediaType, k);
    assert s[k + 8..] == payload;
    StripDataUrlShortest(s, k);
  }

  /** "data:", a media type free of line terminators, then ";base64,"
      match the pattern. */
  lemma DataUrlMatches(s: string, mediaType: string, k: nat)
    requires k == 5 + |mediaType| && k + 8 <= |s|
    requires s[..5] == "data:" && s[5..k] == mediaType && s[k..k + 8] == ";base64,"
    requires forall i :: 0 <= i < |mediaType| ==> !IsLineTerminator(mediaType[i])
    ensures PrefixMatch(s, k)
  {
    Text.LowerUnchanged("data:");
    Text.LowerUnchanged(";base64,");
    ClearSlice(s, 5, k);
  }

  /** A stretch is clear when its slice holds no line terminator. */
  lemma ClearSlice(s: string, a: nat, b: nat)
    requires a <= b <= |s|
    requires forall i :: 0 <= i < b - a ==> !IsLineTerminator(s[a..b][i])
    ensures Clear(s, a, b)
  {
    forall i | a <= i < b
      ensures !IsLineTerminator(s[i])
    {
      assert s[i] == s[a..b][i - a];
    }
  }

  /** No marker starts inside a media type free of ';'. */
  lemma NoEarlierMarker(s: string, mediaType: string, k: nat)
    requires k == 5 + |mediaType| <= |s| && s[5..k] == mediaType
    requires forall i :: 0 <= i < |mediaType| ==> mediaType[i] != ';'
    ensures forall m: nat :: m < k ==> !PrefixMatch(s, m)
  {
    forall m: nat | 5 <= m < k && m + 8 <= |s|
      ensures !MarkerAt(s, m)
    {
      assert s[m] == mediaType[m - 5];
      assert Lower(s[m..m + 8])[0] == LowerChar(s[m]);
    }
  }

  /** The audio format: the requested one, trimmed and lower-cased, when it
      is "wav" or "mp3"; "wav" when none is requested; None (unsupported)
      otherwise. */
  function Format(audio: Json): (r: Option<string>)
    ensures r.Some? ==> r.value == "wav" || r.value == "mp3"
    ensures var q := if StrProp(audio, "format").Some? then Lower(Trim(StrProp(audio, "format").value)) else "";
      && (q == "" ==> r == Some(DefaultFormat))
      && (q != "" ==> (r.Some? <==> q == "wav" || q == "mp3") && (r.Some? ==> r.value == q))
  {
    var requested := match StrProp(audio, "format") case Some(f) => Lower(Trim(f)) case None => "";
    if requested != "" && (requested == "wav" || requested == "mp3") then Some(requested)
    else if requested != "" then None
    else Some(DefaultFormat)
  }

  /** A string property trimmed when it is non-blank, else `dflt`. */
  function TrimmedOr(payload: Json, key: string, dflt: string): (r: string)
    ensures StrProp(payload, key).Some? && Trim(StrProp(payload, key).value) != "" ==> r == Trim(StrProp(payload, key).value)
    ensures !(StrProp(payload, key).Some? && Trim(StrProp(payload, key).value) != "") ==> r == dflt
  {
    match StrProp(payload, key)
    case Some(v) => if Trim(v) != "" then Trim(v) else dflt
    case None => dflt
  }

  function ConfiguredModel(env: Env): string
  {
    if env.transcribeModel != "" then env.transcribeModel
    else if env.audioModel != "" then env.audioModel
    else DefaultModel
  }

  /** The outcome of the audio checks: the stripped data and the format,
      or the message of the 400 reply. */
  datatype AudioChecked = AudioAccepted(data: string, format: string) | AudioRejected(error: string)

  /** The checks on `payload.audio`. */
  function CheckAudio(audio: Option<Json>): (r: AudioChecked)
    ensures r.AudioAccepted? ==> r.data != "" && (r.format == "wav" || r.format == "mp3")
    ensures (!Present(audio) || StrProp(audio.value, "data").None?) <==> r == AudioRejected("audio.data (base64) is required")
    ensures r.AudioAccepted? <==> (Present(audio) && StrProp(audio.value, "data").Some?
      && StripDataUrl(Trim(StrProp(audio.value, "data").value)) != "" && Format(audio.value).Some?)
    ensures r.AudioAccepted? ==> r == AudioAccepted(StripDataUrl(Trim(StrProp(audio.value, "data").value)), Format(audio.value).value)
    ensures (Present(audio) && StrProp(audio.value, "data").Some?
             && StripDataUrl(Trim(StrProp(audio.value, "data").value)) == "")
      <==> r == AudioRejected("audio.data must be a base64 string")
    ensures (Present(audio) && StrProp(audio.value, "data").Some?
             && StripDataUrl(Trim(StrProp(audio.value, "data").value)) != "" && Format(audio.value).None?)
      <==> r == AudioRejected("Unsupported audio format. Use wav or mp3.")
  {
    if !Present(audio) || StrProp(audio.value, "data").None? then AudioRejected("audio.data (base64) is required")
    else
      var data := StripDataUrl(Trim(StrProp(audio.value, "data").value));
      if data == "" then AudioRejected("audio.data must be a base64 string")
      else
        match Format(audio.value)
        case None => AudioRejected("Unsupported audio format. Use wav or mp3.")
        case Some(format) => AudioAccepted(data, format)
  }

  /** The checks after the body is parsed: every refusal is a 400, a body
      that is not an object comes first, then the audio checks. */
  function CheckPayload(env: Env, payload: Option<Json>): (r: Checked)
    ensures r.Rejected? ==> r.status == 400
    ensures payload.None? || !IsObject(payload.value) ==> r == Rejected(400, "JSON body required")
    ensures payload.Some? && IsObject(payload.value) ==>
      && (r.Rejected? <==> CheckAudio(Prop(payload.value, "audio")).AudioRejected?)
      && (r.Rejected? ==> r.error == CheckAudio(Prop(payload.value, "audio")).error)
      && (r.Accepted? ==> r.job.data == CheckAudio(Prop(payload.value, "audio")).data
                          && r.job.format == CheckAudio(Prop(payload.value, "audio")).format)
  {
    if payload.None? || !IsObject(payload.value) then Rejected(400, "JSON body required")
    else
      match CheckAudio(Prop(payload.value, "audio"))
      case AudioRejected(error) => Rejected(400, error)
      case AudioAccepted(data, format) =>
        Accepted(Job(ApiKey(env), data, format,
                     TrimmedOr(payload.value, "prompt", DefaultPrompt),
                     TrimmedOr(payload.value, "target", DefaultTarget),
                     TrimmedOr(payload.value, "model", ConfiguredModel(env))))
  }

  /** The checks, in the order the function makes them: the method, the
      key, then the body. */
  function Check(env: Env, req: Request, parse: Parser): (r: Checked)
    ensures req.verb != "POST" ==> r == Rejected(405, "Method not allowed")
    ensures req.verb == "POST" && ApiKey(env) == "" ==> r == Rejected(500, "OPENROUTER_API_KEY not configured")
    ensures req.verb == "POST" && ApiKey(env) != "" ==> r == CheckPayload(env, ParseBody(req, parse))
  {
    if req.verb != "POST" then Rejected(405, "Method not allowed")
    else if ApiKey(env) == "" then Rejected(500, "OPENROUTER_API_KEY not configured")
    else CheckPayload(env, ParseBody(req, parse))
  }

  /** What an accepted request carries: a key, non-empty audio data, a
      supported format, and non-blank, trimmed prompt, target and model. */
  lemma AcceptedJob(env: Env, req: Request, parse: Parser)
    requires Check(env, req, parse).Accepted?
    ensures var job := Check(env, req, parse).job;
      && req.verb == "POST" && job.key == ApiKey(env) && job.key != ""
      && job.data != "" && (job.format == "wav" || job.format == "mp3")
      && ParseBody(req, parse).Some? && IsObject(ParseBody(req, parse).value)
      && job.prompt == TrimmedOr(ParseBody(req, parse).value, "prompt", DefaultPrompt)
      && job.target == TrimmedOr(ParseBody(req, parse).value, "target", DefaultTarget)
      && job.model == TrimmedOr(ParseBody(req, parse).value, "model", ConfiguredModel(env))
  {
  }

  /** The checks fail with 405 before anything else for a method other
      than POST, and with 500 next when no key is configured. */
  lemma CheckOrder(env: Env, req: Request, parse: Parser)
    ensures req.verb != "POST" ==> Check(env, req, parse) == Rejected(405, "Method not allowed")
    ensures req.verb == "POST" && ApiKey(env) == "" ==> Check(env, req, parse) == Rejected(500, "OPENROUTER_API_KEY not configured")
    ensures Check(env, req, parse).Rejected? ==> Check(env, req, parse).status in {400, 405, 500}
    ensures req.verb == "POST" && ApiKey(env) != "" ==>
      var payload := ParseBody(req, parse);
      && (payload.None? || !IsObject(payload.value) ==> Check(env, req, parse) == Rejected(400, "JSON body required"))
      && (payload.Some? && IsObject(payload.value) && CheckAudio(Prop(payload.value, "audio")).AudioRejected? ==>
            Check(env, req, parse) == Rejected(400, CheckAudio(Prop(payload.value, "audio")).error))
  {
  }

  /** The audio refusals, in the order the function makes them: missing
      data, then data that strips to nothing, then an unsupported format. */
  lemma AudioRefusals(env: Env, req: Request, parse: Parser, p: Json)
    requires req.verb == "POST" && ApiKey(env) != ""
    requires ParseBody(req, parse) == Some(p) && IsObject(p)
    ensures var audio := Prop(p, "audio");
      && (!Present(audio) || StrProp(audio.value, "data").None? ==>
            Check(env, req, parse) == Rejected(400, "audio.data (base64) is required"))
      && (Present(audio) && StrProp(audio.value, "data").Some?
          && StripDataUrl(Trim(StrProp(audio.value, "data").value)) == "" ==>
            Check(env, req, parse) == Rejected(400, "audio.data must be a base64 string"))
      && (Present(audio) && StrProp(audio.value, "data").Some?
          && StripDataUrl(Trim(StrProp(audio.value, "data").value)) != "" && Format(audio.value).None? ==>
            Check(env, req, parse) == Rejected(400, "Unsupported audio format. Use wav or mp3."))
  {
  }

  /** Audio data given as a data URL is accepted as the bare base64 text,
      in the default format when none is named. */
  lemma DataUrlAccepted(audio: Json, mediaType: string, b64: string)
    requires Truthy(audio) && StrProp(audio, "data") == Some("data:" + mediaType + ";base64," + b64)
    requires StrProp(audio, "format").None?
    requires forall i :: 0 <= i < |mediaType| ==> mediaType[i] != ';' && !IsLineTerminator(mediaType[i])
    requires b64 != "" && !IsSpace(b64[|b64| - 1])
    ensures CheckAudio(Some(audio)) == AudioAccepted(b64, DefaultFormat)
  {
    var s := "data:" + mediaType + ";base64," + b64;
    assert s[0] == 'd' && s[|s| - 1] == b64[|b64| - 1];
    TrimOfTrimmed(s);
    StripDataUrlOf(mediaType, b64);
  }

  // ---- The generation call

  function TextPart(prompt: string): Json
  {
    JObj([("type", JStr("text")), ("text", JStr(prompt))])
  }

  function AudioPart(data: string, format: string): Json
  {
    JObj([("type", JStr("input_audio")), ("input_audio", JObj([("data", JStr(data)), ("format", JStr(format))]))])
  }

  /** `openRouterPayload`: the model and one user message holding the
      prompt and the audio. */
  function GenDocument(job: Job): (j: Json)
    ensures Prop(j, "model") == Some(JStr(job.model))
    ensures Prop(j, "messages") == Some(JArr([JObj([("role", JStr("user")),
                                                   ("content", JArr([TextPart(job.prompt), AudioPart(job.data, job.format)]))])]))
  {
    var fields := [("model", JStr(job.model)),
                   ("messages", JArr([JObj([("role", JStr("user")),
                                            ("content", JArr([TextPart(job.prompt), AudioPart(job.data, job.format)]))])]))];
    LookupAt(fields, 0);
    LookupAt(fields, 1);
    JObj(fields)
  }

  function GenHeaders(req: Request, env: Env, job: Job, parseUrl: Referer.UrlParser): Headers
  {
    map["authorization" := "Bearer " + job.key,
        "content-type" := "application/json",
        "http-referer" := Referer.Referer(env.site, req.headers, parseUrl),
        "x-title" := AppTitle]
  }

  function GenRequest(req: Request, env: Env, job: Job, parseUrl: Referer.UrlParser): Worker.GenCall
  {
    Worker.GenCall(Endpoint, GenHeaders(req, env, job, parseUrl), Stringify(GenDocument(job)))
  }

  /** The audio part carries the checked data and format. */
  lemma AudioPartFields(data: string, format: string)
    ensures var a := Prop(AudioPart(data, format), "input_audio");
      a.Some? && Prop(a.value, "data") == Some(JStr(data)) && Prop(a.value, "format") == Some(JStr(format))
  {
    LookupAt(AudioPart(data, format).fields, 1);
    var inner := [("data", JStr(data)), ("format", JStr(format))];
    LookupAt(inner, 0);
    LookupAt(inner, 1);
  }

  // ---- The answer

  /** The text one part of an array `content` contributes. */
  function TranscriptPart(part: Json): string
  {
    if part.JStr? then part.s
    else if IsObject(part) && StrProp(part, "text").Some? then StrProp(part, "text").value
    else ""
  }

  function JoinTranscriptParts(parts: seq<Json>): (r: string)
    ensures r == Join(seq(|parts|, k requires 0 <= k < |parts| => TranscriptPart(parts[k])), "")
  {
    if parts == [] then ""
    else
      var texts := seq(|parts|, k requires 0 <= k < |parts| => TranscriptPart(parts[k]));
      var rest := seq(|parts| - 1, k requires 0 <= k < |parts| - 1 => TranscriptPart(parts[1..][k]));
      assert texts[1..] == rest;
      TranscriptPart(parts[0]) + JoinTranscriptParts(parts[1..])
  }

  /** `response.choices[0].message`, short-circuiting on a falsy step. */
  function FirstMessage(response: Json): Option<Json>
  {
    PropOpt(AtOpt0(Prop(response, "choices")), "message")
  }

  /** The transcript a message's `content` holds, trimmed. */
  function ContentTranscript(content: Option<Json>): (r: string)
    ensures Trim(r) == r
  {
    match content
    case Some(JStr(s)) => TrimIdempotent(s); Trim(s)
    case Some(JArr(parts)) => TrimIdempotent(JoinTranscriptParts(parts)); Trim(JoinTranscriptParts(parts))
    case Some(c) =>
      if StrProp(c, "text").Some? then TrimIdempotent(StrProp(c, "text").value); Trim(StrProp(c, "text").value) else ""
    case None => ""
  }

  /** `extractTranscript`: a string content, the joined parts of an array
      content, or the `text` of an object content, trimmed; "" when the
      response has none of these. */
  function ExtractTranscript(response: Json): (r: string)
    ensures Trim(r) == r
    ensures !Present(FirstMessage(response)) ==> r == ""
    ensures Present(FirstMessage(response)) ==> r == ContentTranscript(Prop(FirstMessage(response).value, "content"))
  {
    var message := FirstMessage(response);
    if !Present(message) then "" else ContentTranscript(Prop(message.value, "content"))
  }

  /** A standard completion's transcript is its content, trimmed. */
  lemma TranscriptOfCompletion(s: string)
    ensures ExtractTranscript(Worker.CompletionShape(JStr(s))) == Trim(s)
  {
  }

  /** A completion whose content is an array of strings and `{text}`
      objects has the parts' texts, joined and trimmed, as its transcript. */
  lemma TranscriptOfParts(parts: seq<Json>, texts: seq<string>)
    requires |parts| == |texts|
    requires forall k :: 0 <= k < |parts| ==>
      parts[k] == JStr(texts[k]) || (IsObject(parts[k]) && StrProp(parts[k], "text") == Some(texts[k]))
    ensures ExtractTranscript(Worker.CompletionShape(JArr(parts))) == Trim(Join(texts, ""))
  {
    var mapped := seq(|parts|, k requires 0 <= k < |parts| => TranscriptPart(parts[k]));
    assert mapped == texts;
  }

  /** A completion whose content is an object with a string `text` has that
      text, trimmed, as its transcript. */
  lemma TranscriptOfTextObject(t: string)
    ensures ExtractTranscript(Worker.CompletionShape(JObj([("text", JStr(t))]))) == Trim(t)
  {
    var c := JObj([("text", JStr(t))]);
    LookupAt([("text", JStr(t))], 0);
    assert StrProp(c, "text") == Some(t);
    assert ContentTranscript(Some(c)) == Trim(t);
    TranscriptOfContent(c);
  }

  /** The transcript of a completion is that of its content. */
  lemma TranscriptOfContent(c: Json)
    ensures ExtractTranscript(Worker.CompletionShape(c)) == ContentTranscript(Some(c))
  {
  }

  /** Any other content (a number, a boolean, null, an object without a
      string `text`) has no transcript. */
  lemma TranscriptOfOtherContent(c: Json)
    requires !c.JStr? && !c.JArr? && StrProp(c, "text").None?
    ensures ExtractTranscript(Worker.CompletionShape(c)) == ""
  {
  }

  /** The success document. */
  function SuccessDocument(transcript: string, job: Job, parsed: Json): Json
  {
    JObj([("text", JStr(transcript)), ("target", JStr(job.target)), ("model", JStr(job.model)),
          ("prompt", JStr(job.prompt)), ("openrouter", parsed)])
  }

  /** `{error, openrouter}`. */
  function UpstreamErrorDocument(message: string, parsed: Json): Json
  {
    JObj([("error", JStr(message)), ("openrouter", parsed)])
  }

  /** The reply after the generation call. */
  function Answer(req: Request, job: Job, parse: Parser, gen: Outcome): (r: Response)
    ensures JsonReply(req, r)
    ensures r.status == 200 <==>
      gen.Resp? && parse(gen.body).Some? && IsOk(gen.status) && ExtractTranscript(parse(gen.body).value) != ""
  {
    match gen
    case TransportError(_) => Respond(req, 502, Stringify(ErrorDocument("Failed to reach OpenRouter")))
    case Resp(status, _, raw) =>
      match parse(raw)
      case None => Respond(req, 502, Stringify(JObj([("error", JStr("Invalid JSON from OpenRouter")), ("raw", JStr(raw))])))
      case Some(parsed) =>
        if !IsOk(status) then Respond(req, status, Stringify(UpstreamErrorDocument("OpenRouter error", parsed)))
        else
          var transcript := ExtractTranscript(parsed);
          if transcript == "" then Respond(req, 502, Stringify(UpstreamErrorDocument("Transcription response did not include text", parsed)))
          else Respond(req, 200, Stringify(SuccessDocument(transcript, job, parsed)))
  }

  /** The failures after the call: an unreachable service and an
      unreadable answer are 502; an upstream error status is passed on. */
  lemma AnswerFailures(req: Request, job: Job, parse: Parser, gen: Outcome)
    ensures gen.TransportError? ==>
      Answer(req, job, parse, gen) == Respond(req, 502, Stringify(ErrorDocument("Failed to reach OpenRouter")))
    ensures gen.Resp? && parse(gen.body).None? ==>
      Answer(req, job, parse, gen) == Respond(req, 502, Stringify(JObj([("error", JStr("Invalid JSON from OpenRouter")), ("raw", JStr(gen.body))])))
    ensures gen.Resp? && parse(gen.body).Some? && !IsOk(gen.status) ==>
      Answer(req, job, parse, gen) == Respond(req, gen.status, Stringify(UpstreamErrorDocument("OpenRouter error", parse(gen.body).value)))
    ensures gen.Resp? && parse(gen.body).Some? && IsOk(gen.status) && ExtractTranscript(parse(gen.body).value) == "" ==>
      Answer(req, job, parse, gen).status == 502
  {
  }

  /** One invocation of the function. */
  function Handle(env: Env, req: Request, parse: Parser, parseUrl: Referer.UrlParser, gen: Outcome): (inv: Invocation)
  {
    if req.verb == "OPTIONS" then Invocation(None, Respond(req, 204, ""))
    else
      match Check(env, req, parse)
      case Rejected(status, error) => Invocation(None, Respond(req, status, Stringify(ErrorDocument(error))))
      case Accepted(job) => Invocation(Some(GenRequest(req, env, job, parseUrl)), Answer(req, job, parse, gen))
  }

  /** Every response is JSON with the CORS headers. */
  lemma JsonReplies(env: Env, req: Request, parse: Parser, parseUrl: Referer.UrlParser, gen: Outcome)
    ensures JsonReply(req, Handle(env, req, parse, parseUrl, gen).response)
  {
  }

  /** The generation service is called exactly for a request that passes
      the checks, and then with the checked audio. */
  lemma CalledWhenAccepted(env: Env, req: Request, parse: Parser, parseUrl: Referer.UrlParser, gen: Outcome)
    ensures var inv := Handle(env, req, parse, parseUrl, gen);
      inv.gen.Some? <==> req.verb != "OPTIONS" && Check(env, req, parse).Accepted?
    ensures var inv := Handle(env, req, parse, parseUrl, gen);
      inv.gen.Some? ==> inv.gen.value.body == Stringify(GenDocument(Check(env, req, parse).job))
  {
  }

  /** A preflight is answered 204 with an empty body and no call. */
  lemma Preflight(env: Env, req: Request, parse: Parser, parseUrl: Referer.UrlParser, gen: Outcome)
    requires req.verb == "OPTIONS"
    ensures var inv := Handle(env, req, parse, parseUrl, gen);
      inv.gen.None? && inv.response.status == 204 && inv.response.body == Some("")
  {
  }

  /** A rejected request is answered with the check's status and
      `{error}` document. */
  lemma RejectedReply(env: Env, req: Request, parse: Parser, parseUrl: Referer.UrlParser, gen: Outcome)
    requires req.verb != "OPTIONS" && Check(env, req, parse).Rejected?
    ensures var inv := Handle(env, req, parse, parseUrl, gen);
      inv.gen.None? && inv.response.status == Check(env, req, parse).status
      && inv.response.body == Some(Stringify(ErrorDocument(Check(env, req, parse).error)))
  {
  }

  /** The success document carries the transcript and the job's target
      and model. */
  lemma SuccessFields(transcript: string, job: Job, parsed: Json)
    ensures var d := SuccessDocument(transcript, job, parsed);
      && Prop(d, "text") == Some(JStr(transcript)) && Prop(d, "target") == Some(JStr(job.target))
      && Prop(d, "model") == Some(JStr(job.model))
  {
    var fs := SuccessDocument(transcript, job, parsed).fields;
    LookupAt(fs, 1);
    LookupAt(fs, 2);
  }

  /** The success document echoes the prompt and the upstream document. */
  lemma SuccessEchoes(transcript: string, job: Job, parsed: Json)
    ensures var d := SuccessDocument(transcript, job, parsed);
      Prop(d, "prompt") == Some(JStr(job.prompt)) && Prop(d, "openrouter") == Some(parsed)
  {
    var fs := SuccessDocument(transcript, job, parsed).fields;
    LookupAt(fs, 3);
    LookupAt(fs, 4);
  }

  /** A successful call whose completion has non-blank string content is
      answered 200 with that content, trimmed, as the text. */
  lemma SucceedsWithContent(env: Env, req: Request, parse: Parser, parseUrl: Referer.UrlParser,
                            status: nat, h: Headers, raw: string, s: string)
    requires req.verb == "POST" && Check(env, req, parse).Accepted?
    requires IsOk(status) && parse(raw) == Some(Worker.CompletionShape(JStr(s))) && Trim(s) != ""
    ensures var r := Handle(env, req, parse, parseUrl, Resp(status, h, raw)).response;
      r.status == 200
      && r.body == Some(Stringify(SuccessDocument(Trim(s), Check(env, req, parse).job, Worker.CompletionShape(JStr(s)))))
  {
    TranscriptOfCompletion(s);
  }
}
