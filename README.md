# muttr hops in Dafny

muttr is a "daisy chain" of HTTP relays. A client posts a todo list to the
first hop. Each hop appends its name to a chain header and one record to a
log header, then forwards the body to the next hop. The last hop asks a
chat-completion service (OpenRouter) to mutate the list and starts the
return leg. Every hop on the way back relays toward the first one, which
answers with a summary of the whole journey. There are two hop
implementations and one side endpoint:

- the Cloudflare Worker (`src/worker.mjs`): direction in `X-Muttr-Direction`,
  chain entries joined by `" -> "`, log records joined by line feeds;
- the Azure Function (`MuttrHop/index.js`): direction in `X-Direction`, chain
  entries joined by `","`, the log a JSON array of lines;
- the Azure transcription endpoint (`TranscribeAudio/index.js`), which
  checks an audio upload and asks the same service for a transcript.

Each handler is modelled as a pure decision function. It takes the
configuration, the request and the outcomes of its outbound calls, and
gives back the calls it makes and the response it leaves. The outcomes are
`TransportError` (the `fetch` promise rejects) or `Resp(status, headers,
body)`. Modules:

| module | file | what it holds |
|---|---|---|
| `Wrappers` | wrappers.dfy | `Option`, and `Attempt`: the value a computation returns or the error it throws |
| `Text` | text.dfy | `trim`, ASCII `toLowerCase`, `split`/`join`, `includes`, `String(n)` |
| `Json` | json.dfy | a JSON value type, `JSON.stringify` (compact and indented), property access as JavaScript does it, and `JSON.parse` as a parameter |
| `Http` | http.dfy | header maps, responses, call outcomes |
| `Referer` | referer.dfy | the `HTTP-Referer` derivation both Azure functions share |
| `Worker` | worker.dfy | one invocation of the Cloudflare hop |
| `WorkerChain` | worker_chain.dfy | a whole journey through a line of Cloudflare hops |
| `HopCodec` | hop_codec.dfy | the Azure chain and log codec |
| `HopPayload` | hop_payload.dfy | the Azure conversation and request body |
| `MuttrHop` | hop.dfy | one invocation of the Azure hop |
| `Transcribe` | transcribe.dfy | the transcription endpoint |

`JSON.parse` is a parameter `parse: string -> Option<Json>`, where `None`
means it throws. Where a property needs the parser to read back what
`JSON.stringify` wrote, the lemma requires `Json.ParseInvertsStringify(parse)`.
That assumption covers "plain" values: numbers written as safe integers,
and object keys that are distinct and not array-index-like. `new URL` is a
parameter of the same kind. Environment variables are fields of a
configuration record, with "" for an unset one. An Azure invocation that throws is
`MuttrHop.Uncaught`, holding the error and the calls made before it. The clock and the
Cloudflare `cf` properties are inputs.

## Model

| member | source | states |
|---|---|---|
| Text.TrimShape | MuttrHop/index.js:60 | `trim` gives a result no longer than its input, with no white space at either end, and empty exactly when the input is all white space |
| Text.TrimIdempotent | TranscribeAudio/index.js:94 | trimming twice is the same as trimming once |
| Text.Lower | MuttrHop/index.js:228 | each character is lowered on its own, and the length is kept |
| Text.Split | src/worker.mjs:516 | `split` on one character gives at least one part, no part holds the separator, and joining the parts gives the input back |
| Text.SplitJoin | MuttrHop/index.js:76-77 | splitting a join on its separator gives back the parts when no part holds the separator |
| Text.JoinSnoc | src/worker.mjs:320-328 | adding one part to a join adds the separator and the part at the end |
| Text.DropEmpty | src/worker.mjs:517 | `filter(Boolean)` keeps only non-empty members of the list, and keeps everything when nothing is empty |
| Text.DropEmptyAppend | src/worker.mjs:517 | filtering two lists one after the other is filtering their concatenation |
| Text.DropEmptyOne | src/worker.mjs:517 | a single string is kept exactly when it is not empty |
| Text.NatToString | src/worker.mjs:425 | `String(n)` gives decimal digits with no leading zero, whose decimal value is `n` |
| Json.StringifyNoLineFeed | src/worker.mjs:330-343 | compact `JSON.stringify` output never contains a line feed |
| Json.StringifyBracketed | src/worker.mjs:330-343 | stringifying an object gives text that starts with `{` and ends with `}` |
| Json.LookupAt | src/worker.mjs:511-527 | a property is read from its first field with that key |
| Json.ToJsString | MuttrHop/index.js:252-254 | `String(v)` throws exactly when `v` is an object with its own `toString` key or an array holding such a value at any depth; otherwise `null`, booleans, numbers and strings give their text, an object "[object Object]", and an array its elements' texts joined by commas, with `null` elements empty |
| Json.ParseOrRaw | src/worker.mjs:503-508 | a body that parses becomes its value; one that fails becomes `{raw: body}` |
| Http.HeaderOr | src/worker.mjs:558-562 | `headers.get(name) \|\| dflt`: the header when present and non-empty, otherwise the default |
| Referer.FirstNonBlank | MuttrHop/index.js:112-130 | the first candidate that is not blank, trimmed; none exactly when every candidate is blank |
| Referer.Hostname | TranscribeAudio/index.js:145-162 | the first non-blank of the two settings, the two host headers and the origin's host, trimmed; otherwise the machine hostname |
| Referer.ForwardedProto | TranscribeAudio/index.js:165-171 | the first comma-separated entry of `x-forwarded-proto`, trimmed, and "" when the header is absent |
| Referer.Protocol | TranscribeAudio/index.js:164-180 | the forwarded protocol, else the origin's scheme, else "https", with a trailing colon removed |
| Referer.RefererValue | TranscribeAudio/index.js:182-186 | a host that contains `://` is used as it is; otherwise the value is `protocol://host` |
| Referer.RefererFallback | MuttrHop/index.js:112-149 | with nothing configured and no usable header, the referer is `https://` plus the machine hostname |
| Worker.AppendChain | src/worker.mjs:320-324 | the old chain is kept as a prefix and the label ends the result; an empty chain gives the label alone, else the separator is `" -> "` |
| Worker.AppendLog | src/worker.mjs:326-328 | the old log is kept as a prefix and the entry ends the result; an empty log gives the entry alone, else a line feed separates them |
| Worker.ChainGrowsByOne | src/worker.mjs:320-324 | extending the chain text of some entries gives the chain text of those entries plus one more |
| Worker.LogGrowsByOne | src/worker.mjs:326-328 | extending the log text of some entries gives the log text of those entries plus one more |
| Worker.LogEntryShape | src/worker.mjs:330-343 | a log entry is one non-empty line between braces |
| Worker.Arrive | src/worker.mjs:556-566 | the direction defaults to "forward", and chain and log each get exactly this hop's entry before dispatch |
| Worker.ParseBody | src/worker.mjs:298-318 | an empty body gives ""; a non-JSON body is kept as it is; a JSON string gives that string; an object gives its string `message`, else its `messages` array pretty-printed, else itself pretty-printed |
| Worker.GenDocument | src/worker.mjs:382-411 | the request names the configured model or `openai/gpt-4o-mini`, and exactly two messages: the fixed system prompt, then the user's prompt |
| Worker.GenHeaders | src/worker.mjs:384-399 | JSON content type and accept always; authorization, referer and title exactly when configured |
| Worker.TwoMessagesSent | src/worker.mjs:382-417 | what the service reads back from the request body is the two-message conversation |
| Worker.PromptOfStringifiedString | src/worker.mjs:298-318 | a body sent as a stringified string gives that string as the prompt |
| Worker.PromptOfMessageObject | src/worker.mjs:298-318 | a body sent as `{message: m}` gives `m` as the prompt |
| Worker.HopHeaders | src/worker.mjs:345-351 | `callHop` sets the direction always, and the chain, log and content type exactly when non-empty, and nothing else |
| Worker.GenerationStatus | src/worker.mjs:421-455 | after the generation call a hop answers 200 for a 2xx status and 502 for any other |
| Worker.AfterGeneration | src/worker.mjs:413-461 | a rejected generation call is an uncaught exception; a response is relayed back exactly when a previous hop exists, else answered |
| Worker.ExtractAssistantText | src/worker.mjs:464-490 | a missing message or missing content gives the fixed notes; string content is kept; array content is its parts joined; object content is stringified; anything else is "(unknown assistant format)" |
| Worker.ConcatParts | src/worker.mjs:472-483 | the result is the join, with the empty separator, of the per-part texts: a falsy part gives "", a string part itself, an object part its string `text`, failing that the string `value` of a part whose `type` is "text" (`{type: "text", value: "x"}` gives "x"), anything else "" |
| Worker.ConcatPartsAppend | src/worker.mjs:472-483 | the text of two lists of parts one after the other is the text of the first followed by the text of the second |
| Worker.ConcatPartsOne | src/worker.mjs:472-483 | a single part gives its own text |
| Worker.AssistantTextOfCompletion | src/worker.mjs:464-490 | a standard completion with non-empty string content gives that content |
| Worker.LogLines | src/worker.mjs:515-517 | the log's lines, none of them empty or holding a line feed |
| Worker.LogRecords | src/worker.mjs:515-524 | one record per non-empty log line, in order, each the parsed line or `{raw: line}` |
| Worker.SummaryDocument | src/worker.mjs:503-530 | the summary has phase "completed-there-and-back", the chain, the log records, the assistant text and the upstream document, read back as `{raw}` when it is not JSON |
| Worker.SummaryHeaders | src/worker.mjs:532-534 | the summary is JSON, with the chain and the log attached exactly when non-empty |
| Worker.Decide | src/worker.mjs:542-579 | a generation call is made only from a POST to `/api/hop` by the last hop on the forward leg |
| Worker.InvalidDirection | src/worker.mjs:576 | a hop-endpoint POST naming a direction other than "forward" or "return" gets 400 "Invalid direction" and makes no call |
| Worker.NotFound | src/worker.mjs:577-579 | a request that is neither `GET /` nor a POST to `/api/hop` gets 404 "Not found" and makes no call |
| Worker.ServesPage | src/worker.mjs:546-554 | `GET /` serves the page and makes no call |
| Worker.DecideOnHop | src/worker.mjs:556-574 | on the hop endpoint, "forward" runs `handleForward` and "return" runs `handleReturn`, each with the extended chain and log |
| Worker.Finish | src/worker.mjs:372-379 | a relayed response is passed back as received; a rejected relay or generation call is an uncaught exception |
| Worker.CallHopCarries | src/worker.mjs:345-360 | the relay goes to the given URL with the given body, and carries the log and the chain exactly when they are non-empty |
| Worker.SummaryCarries | src/worker.mjs:511-539 | the summary is a 200 with the pretty-printed summary document, and carries the log exactly when it is non-empty |
| Worker.CallHopAsWritten | src/worker.mjs:345-360 | as written, `callHop` throws when a header value is refused (a code point above U+00FF, or a line feed, carriage return or NUL left after trimming), which includes any log with a line feed inside |
| Worker.RelayAfterFirstHopThrows | src/worker.mjs:345-360 | every hop that receives a log header builds a two-line log, and as written its relay throws |
| Worker.SummaryAsWritten | src/worker.mjs:532-534 | as written, the summary throws when its log holds a line feed inside |
| Worker.SummaryAfterRoundTripThrows | src/worker.mjs:532-534 | the summary at the end of a round trip throws as written |
| WorkerChain.OnwardVisit | src/worker.mjs:372-379 | a forward call to a hop with a next hop is relayed there with the same body, direction and content type, and the hop's extended chain and log |
| WorkerChain.TurnVisit | src/worker.mjs:413-461 | a forward call to the last hop makes the generation call and turns back toward the previous hop, or answers itself when there is none |
| WorkerChain.ReturnVisit | src/worker.mjs:492-501 | a return call is relayed toward the previous hop with the same body |
| WorkerChain.JourneyOutcome | src/worker.mjs:542-581 | with one hop the client gets that hop's own answer to the generation response; with more, hop 0's summary of what the last hop sends back |
| WorkerChain.JourneyOfRejectedGeneration | src/worker.mjs:413-417 | a rejected generation call ends one hop's journey in an exception, and a longer one in the error page the platform sends for the last hop, passed back unchanged to the client |
| WorkerChain.FinalChainEntries | src/worker.mjs:564 | the final chain has 2n-1 entries: hops 0..n-1 forward, then n-2..0 on the way back |
| WorkerChain.FinalLogRecords | src/worker.mjs:515-524 | the summary's log records are the entries of every visit, in visit order, each parsed |
| WorkerChain.ChainAtText | src/worker.mjs:564 | after m visits the chain is their labels joined by `" -> "` |
| WorkerChain.LogAtText | src/worker.mjs:565-566 | after m visits the log is their entries, one per line |
| WorkerChain.OutRoute | src/worker.mjs:372-379 | along the outward leg every visit answers with the answer of the journey |
| WorkerChain.BackRoute | src/worker.mjs:495-501 | along the return leg every visit answers with hop 0's answer |
| HopCodec.HopLabel | MuttrHop/index.js:47 | a label is non-empty, ends in `)`, and holds no comma when the name and direction hold none |
| HopCodec.NewChain | MuttrHop/index.js:48 | the prior chain and a comma are kept as a prefix and the label follows; no prior chain gives the label alone |
| HopCodec.ChainOfLabels | MuttrHop/index.js:48 | when no label holds a comma, a chain written from labels lists exactly those labels |
| HopCodec.ChainGrowsByOne | MuttrHop/index.js:46-48 | when no label holds a comma, extending a chain of labels lists one label more, at the end |
| HopCodec.ParseHopLogHeader | MuttrHop/index.js:50-80 | never fails: blank gives no lines; a JSON array keeps its length and order, with strings kept and other values stringified; anything else is split on line feeds, trimmed, and empty lines dropped |
| HopCodec.DecodeEncode | MuttrHop/index.js:66-70 | decoding an encoded list of lines gives the lines back, whatever they contain |
| HopCodec.DecodeNewlineLog | MuttrHop/index.js:76-79 | a newline-separated log of clean lines that is not a JSON array decodes to those lines |
| HopCodec.NewLogLines | MuttrHop/index.js:82-91 | the new lines are the decoded prior lines plus this hop's line, last |
| HopCodec.LogGrowsByOne | MuttrHop/index.js:82-92 | the header a hop passes on decodes to the decoded prior log plus exactly one line |
| HopCodec.LogLine | MuttrHop/index.js:83-90 | this hop's record is one clean line starting with `{` |
| HopCodec.DelayJson | MuttrHop/index.js:7 | `delay_ms` is `null` when `DELAY_MS` does not parse, and the integer otherwise |
| HopPayload.ContentText | MuttrHop/index.js:233-254 | a message's content as text: absent or null is none; an array is its `.text` parts joined; a string is kept; a number gives its numeral, a boolean "true" or "false", an object "[object Object]"; converting an object with its own `toString` key throws, and nothing else throws |
| HopPayload.JoinParts | MuttrHop/index.js:234-245 | an array content is the join, with the empty separator, of its parts' texts: a string part itself, an object part its string `text`, anything else "" |
| HopPayload.NormalizeMessage | MuttrHop/index.js:223-262 | normalising throws exactly when the entry is an object with a non-blank role whose content conversion throws; otherwise a message is kept exactly when its role is a non-blank string and its content is non-blank after flattening; the role is trimmed and lower-cased and the content trimmed |
| HopPayload.NormalizeAll | MuttrHop/index.js:269-275 | the `map` throws exactly when normalising some entry throws; otherwise the result is the kept messages (`Kept`): all usable, and none left exactly when no entry normalises |
| HopPayload.NormalizeAllOne | MuttrHop/index.js:269-275 | one entry gives its normalised message, nothing, or the throw, as normalising it does |
| HopPayload.NormalizeAllAppend | MuttrHop/index.js:269-275 | two runs of entries throw exactly when one of them does, and otherwise keep the first run's messages followed by the second's |
| HopPayload.Kept | MuttrHop/index.js:269-275 | the kept messages are all usable, at most one per entry |
| HopPayload.KeptEmpty | MuttrHop/index.js:269-275 | none is kept exactly when no entry normalises to a message |
| HopPayload.KeptOne | MuttrHop/index.js:269-275 | a single entry is kept exactly when it normalises to a message, and then as that message |
| HopPayload.KeptAppend | MuttrHop/index.js:269-275 | keeping the entries of two runs one after the other keeps the first run's messages followed by the second's, so every usable entry is kept, in order |
| HopPayload.MessagesOf | MuttrHop/index.js:269-272 | the normalised `messages` array, or no messages when `messages` is not an array |
| HopPayload.SystemPromptOf | MuttrHop/index.js:278-283 | `system_prompt` when it is a string, else `systemPrompt` when it is one |
| HopPayload.UserMessagesRaw | MuttrHop/index.js:285-289 | `user_messages` when it is an array, else `userMessages` when it is one, else no entries |
| HopPayload.NormalizedUsers | MuttrHop/index.js:291-301 | at most one kept entry per user entry, none of them blank |
| HopPayload.NormalizedUsersOne | MuttrHop/index.js:291-301 | a single user entry, a string or an object's string `content`, is kept untrimmed exactly when it is not blank |
| HopPayload.NormalizedUsersAppend | MuttrHop/index.js:291-301 | the kept entries of two runs one after the other are the first run's followed by the second's, so every non-blank entry is kept, in order |
| HopPayload.AssembleMessages | MuttrHop/index.js:307-313 | the `push` loop builds exactly the system message (when not blank) followed by one trimmed user message per entry |
| HopPayload.Assembled | MuttrHop/index.js:307-313 | the assembled list has one message for a non-blank system prompt plus one per user entry |
| HopPayload.AssembledWellFormed | MuttrHop/index.js:301-313 | every assembled message is usable when the user entries are not blank |
| HopPayload.ExtractMessages | MuttrHop/index.js:264-316 | it throws exactly when the payload is an object whose `messages` normalising throws; what it finds is a non-empty list of usable messages from an object payload; a `messages` array with a usable entry wins |
| HopPayload.Fallback | MuttrHop/index.js:318-325 | the fallback is the default system prompt, then the trimmed body, or the default prompt again for a blank body |
| HopPayload.RequestMessages | MuttrHop/index.js:318-325 | it throws exactly when extracting throws; otherwise the payload's messages when it has some, else the fallback |
| HopPayload.RequestMessagesWellFormed | MuttrHop/index.js:264-325 | the conversation sent is never empty and every message in it is usable |
| HopPayload.RequestMessagesFromPrompts | MuttrHop/index.js:278-313 | with no usable `messages` entry, the system prompt and user messages are assembled in that order |
| HopPayload.RequestMessagesFallsBack | MuttrHop/index.js:264-325 | a JSON object with no usable `messages` entry, no non-blank system prompt and no non-blank user entry leads to the fallback |
| HopPayload.RequestMessagesThrow | MuttrHop/index.js:223-275 | one `messages` entry with a role whose content is an object with its own `toString` key makes building the conversation throw the conversion TypeError, whatever the other entries hold |
| HopPayload.RequestMessagesOfText | MuttrHop/index.js:318-325 | a body that is not JSON always leads to the fallback |
| HopPayload.RequestModel | MuttrHop/index.js:353-356 | the trimmed payload model when it is a non-blank string, else the configured default |
| HopPayload.ForwardedFields | MuttrHop/index.js:363-369 | every copied field has a key from the allow-list and the payload's own value for it |
| HopPayload.ForwardedLookup | MuttrHop/index.js:327-369 | a listed key reads the payload's value; an unlisted key is never copied |
| HopPayload.BuildRequestBody | MuttrHop/index.js:358-369 | the loop over the allow-list builds exactly the request document |
| HopPayload.CopyForwarded | MuttrHop/index.js:363-369 | the loop copies exactly the listed keys the payload has, in list order, with the payload's values |
| HopPayload.RequestDocumentFields | MuttrHop/index.js:358-369 | the document's model and messages are the computed ones and no copied parameter overrides them; every other key reads as the copied parameter |
| HopPayload.AllowListDistinct | MuttrHop/index.js:327-351 | the allow-list names each parameter once |
| HopPayload.AllowListOmitsDocumentKeys | MuttrHop/index.js:327-351 | the allow-list names neither `model` nor `messages` |
| HopPayload.ForwardedDistinct | MuttrHop/index.js:363-369 | copying from a list of distinct keys writes each key at most once |
| HopPayload.RequestDocumentKeysDistinct | MuttrHop/index.js:358-369 | every key of the request document appears once, so appending the copied fields is the same as assigning them |
| MuttrHop.SetResponseHeaders | MuttrHop/index.js:25-31 | a response carries every header the handler sets, and every CORS header it does not |
| MuttrHop.Arrive | MuttrHop/index.js:46-92 | the log header the hop holds is the encoding of its log lines |
| MuttrHop.ArrivalLog | MuttrHop/index.js:82-92 | the log header decodes to the received lines plus this hop's own line, and contains no line feed |
| MuttrHop.ArrivalChain | MuttrHop/index.js:46-48 | when neither the hop name, the direction nor any received label holds a comma, a chain listing some labels comes out listing exactly one label more |
| MuttrHop.HopHeaders | MuttrHop/index.js:152-157 | a hop call sends exactly the content type, chain, log and direction headers |
| MuttrHop.RelayResponse | MuttrHop/index.js:166-201 | a rejected hop call is a 502 naming the URL, typed `text/plain`, carrying this hop's chain and its log plus one `{error}` line; otherwise the callee's status and text are passed on, with its content type (plain text when it sent none), its chain (this hop's when it sent none) and the returned log |
| MuttrHop.GenDocument | MuttrHop/index.js:318-369 | building the request document throws exactly when building the conversation throws, with the conversion TypeError; otherwise it names the request model and the conversation |
| MuttrHop.GenRequest | MuttrHop/index.js:379-388 | the generation call goes to the completions endpoint with the hop's headers, and building it throws exactly when building the conversation does |
| MuttrHop.RelayedLog | MuttrHop/index.js:185-201 | the relayed log is the callee's decoded log when non-empty, else the hop's own |
| MuttrHop.UnreachedLog | MuttrHop/index.js:166-183 | a rejected call is a 502 whose log reads back as the hop's lines plus one `{error}` line |
| MuttrHop.PartValue | MuttrHop/index.js:448-449 | the mapped value of a part is missing (the read throws) exactly for a `null` part, and is never `null` |
| MuttrHop.JoinValues | MuttrHop/index.js:449-450 | `join("")` throws the conversion TypeError exactly when some value's conversion throws; otherwise it is the first value's text followed by the join of the rest |
| MuttrHop.JoinValuesOfStrings | MuttrHop/index.js:449-450 | joining string values concatenates them |
| MuttrHop.JoinPartTexts | MuttrHop/index.js:447-450 | a `null` part makes the `map` throw, before any conversion; with no `null` part the `join` throws the conversion TypeError exactly when some part's mapped value converts with a throw, and otherwise joins the mapped values |
| MuttrHop.JoinPartTextsOfStrings | MuttrHop/index.js:447-450 | parts that are strings or carry a truthy string `text` join to the concatenation of those strings |
| MuttrHop.AssistantText | MuttrHop/index.js:440-455 | a `null` document gives the TypeError text; a missing content gives "(no assistant text)"; string content is kept; array content is its parts joined, a `null` part gives the extraction error for reading `text` of null, and otherwise a part whose value cannot be converted gives the extraction error for the conversion |
| MuttrHop.AssistantTextOfCompletion | MuttrHop/index.js:440-455 | a standard completion with non-empty string content gives that content |
| MuttrHop.LogRecords | MuttrHop/index.js:461-469 | one record per log line, in order, each the parsed line or `{raw: line}` |
| MuttrHop.SummaryDocument | MuttrHop/index.js:457-483 | the summary names the phase, the chain, the log records, the assistant text and the upstream document |
| MuttrHop.HandleLegs | MuttrHop/index.js:38-487 | past the preflight, `Handle` is the leg its direction names (`Forward`, given the body text `BodyText` and the generation call it builds, or `Return`), or 500 "Invalid direction state" |
| MuttrHop.Preflight | MuttrHop/index.js:33-36 | OPTIONS gets 204 with a null body and the CORS headers, and makes no call |
| MuttrHop.InvalidDirection | MuttrHop/index.js:487 | an unknown direction gets a 500 and makes no call |
| MuttrHop.CallsMade | MuttrHop/index.js:204-426 | the generation call is made exactly by the last forward hop with a key when building the conversation does not throw |
| MuttrHop.HopCallsMade | MuttrHop/index.js:204-430 | a hop call is made exactly toward the next hop, or toward the previous one after a generation response or on the return leg |
| MuttrHop.UncaughtExactly | MuttrHop/index.js:209-325 | an invocation fails uncaught exactly when it is the last forward hop's, a key is set and building the conversation throws; it then makes no call and fails with the conversion TypeError |
| MuttrHop.ConversionThrowUncaught | MuttrHop/index.js:223-325 | on the last forward hop with a key, a `messages` entry with a role and an object content with its own `toString` key makes the invocation fail before any call |
| MuttrHop.HopCallCarriesVisit | MuttrHop/index.js:151-165 | every hop call carries the hop's chain and a log that decodes to the received log plus the hop's own line |
| MuttrHop.RelayPassesThrough | MuttrHop/index.js:185-201 | a relay passes the callee's status and text on unchanged, whatever the status, with the callee's content type and chain when it sent them, and plain text and this hop's chain otherwise |
| MuttrHop.MissingKey | MuttrHop/index.js:206-212 | the last forward hop with no key answers 500 and calls nothing |
| MuttrHop.LoneHopAnswers200 | MuttrHop/index.js:223-423 | a hop with no neighbours answers 200 with the service's text, whatever status the service gave, unless building the conversation throws, when the invocation fails uncaught with no call |
| MuttrHop.GenerationErrorLogged | MuttrHop/index.js:223-406 | a rejected generation call gets a 502 whose log holds exactly one more line, `{error}`, unless building the conversation throws first, when no call is made and the invocation fails uncaught |
| MuttrHop.OriginSummarises | MuttrHop/index.js:426-485 | the first hop on the return leg answers 200 with the summary and the chain and log headers, and calls nothing |
| Transcribe.Respond | TranscribeAudio/index.js:11-23 | every reply has the CORS headers, the JSON content type and the given status and body |
| Transcribe.ApiKey | TranscribeAudio/index.js:35-38 | the key is the first non-empty of the three settings, and "" exactly when none is set |
| Transcribe.ParseBody | TranscribeAudio/index.js:45-80 | an object body is used as it is; a non-blank string body is parsed with no fallback to the raw body; otherwise the result is the parse of a non-empty raw body, and none for an empty one |
| Transcribe.FindMarker | TranscribeAudio/index.js:94 | the first `;base64,` (in any case) before a line terminator, with no earlier one; none when every marker is behind a line terminator |
| Transcribe.StripDataUrlShortest | TranscribeAudio/index.js:94 | where `^data:.*?;base64,` matches, the shortest matching prefix is removed |
| Transcribe.StripDataUrlNoMatch | TranscribeAudio/index.js:94 | where the pattern does not match, the data is left as it is |
| Transcribe.StripDataUrlRemovesMatch | TranscribeAudio/index.js:94 | whatever is removed is a prefix the pattern matches |
| Transcribe.StripDataUrlOf | TranscribeAudio/index.js:94 | a data URL with a simple media type is stripped down to its base64 payload |
| Transcribe.Format | TranscribeAudio/index.js:100-112 | no format or a blank one gives "wav"; a trimmed, lower-cased "wav" or "mp3" is accepted; anything else is refused |
| Transcribe.TrimmedOr | TranscribeAudio/index.js:114-132 | a non-blank string property, trimmed, else the default |
| Transcribe.CheckAudio | TranscribeAudio/index.js:88-112 | audio is accepted exactly when it has string data that is non-empty once trimmed and stripped, and a supported format; otherwise, in this order, missing `audio.data` gets "audio.data (base64) is required", data that strips to nothing gets "audio.data must be a base64 string", and an unsupported format gets "Unsupported audio format. Use wav or mp3." |
| Transcribe.CheckPayload | TranscribeAudio/index.js:82-112 | every refusal is a 400; a missing or non-object body gets "JSON body required"; for an object it refuses exactly when the audio checks do, with their message, and an accepted job carries the checked data and format |
| Transcribe.Check | TranscribeAudio/index.js:30-112 | a method other than POST gets 405, then a missing key 500, then the body checks decide |
| Transcribe.AudioRefusals | TranscribeAudio/index.js:82-112 | a POST with a key and an object body gets each audio refusal as a 400 with its message, under its own condition, in the source's order |
| Transcribe.AcceptedJob | TranscribeAudio/index.js:30-132 | an accepted request is a POST with a key, non-empty audio data, a supported format, and the trimmed or default prompt, target and model |
| Transcribe.CheckOrder | TranscribeAudio/index.js:30-112 | a method other than POST gets 405 before anything else, then a missing key gets 500; after those a body that is missing or not an object gets 400 "JSON body required", and an audio refusal gets 400 with its message; every refusal is a 400, 405 or 500 |
| Transcribe.DataUrlAccepted | TranscribeAudio/index.js:88-112 | audio data given as a data URL is accepted as its bare base64 text, in "wav" when no format is named |
| Transcribe.GenDocument | TranscribeAudio/index.js:188-205 | the request names the model and one user message holding the prompt, then the audio |
| Transcribe.AudioPartFields | TranscribeAudio/index.js:194-200 | the audio part carries the checked data and format |
| Transcribe.ContentTranscript | TranscribeAudio/index.js:244-266 | the transcript of a message's content is always its own trim |
| Transcribe.JoinTranscriptParts | TranscribeAudio/index.js:250-260 | the parts' texts joined with nothing between them: a string part itself, an object part its string `text`, anything else "" |
| Transcribe.TranscriptOfContent | TranscribeAudio/index.js:240-267 | the transcript of a completion is the transcript of its first choice's message content |
| Transcribe.TranscriptOfParts | TranscribeAudio/index.js:249-262 | array content of string parts and `{text}` parts gives their texts joined, trimmed |
| Transcribe.TranscriptOfTextObject | TranscribeAudio/index.js:263-265 | object content with a string `text` gives that text, trimmed |
| Transcribe.TranscriptOfOtherContent | TranscribeAudio/index.js:245-267 | content that is neither a string, an array, nor an object with a string `text` gives "" |
| Transcribe.ExtractTranscript | TranscribeAudio/index.js:240-267 | no message gives ""; otherwise it is the content's transcript, which has no white space at either end |
| Transcribe.TranscriptOfCompletion | TranscribeAudio/index.js:240-267 | a standard completion's transcript is its string content, trimmed |
| Transcribe.Answer | TranscribeAudio/index.js:219-282 | the reply is 200 exactly when the service answered 2xx with JSON that holds a non-empty transcript |
| Transcribe.AnswerFailures | TranscribeAudio/index.js:219-274 | a rejected call is 502; non-JSON is 502 with the raw text, even after a 2xx; a JSON error passes the service's status on; an empty transcript is 502 |
| Transcribe.JsonReplies | TranscribeAudio/index.js:11-23 | every reply is JSON with the CORS headers and a body |
| Transcribe.CalledWhenAccepted | TranscribeAudio/index.js:207-218 | the service is called exactly for a request that passes the checks, and with the checked job |
| Transcribe.Preflight | TranscribeAudio/index.js:25-28 | OPTIONS gets 204 with an empty body and makes no call |
| Transcribe.RejectedReply | TranscribeAudio/index.js:30-112 | a refused request gets the check's status and an `{error}` document, and makes no call |
| Transcribe.SuccessFields | TranscribeAudio/index.js:276-282 | the success document carries the transcript, the target and the model |
| Transcribe.SuccessEchoes | TranscribeAudio/index.js:276-282 | the success document echoes the prompt and the service's document |
| Transcribe.SucceedsWithContent | TranscribeAudio/index.js:240-282 | a 2xx completion with non-blank string content gets 200, with that content trimmed as the text |

## Left out

- The embedded HTML page and its browser script in `src/worker.mjs`, and the `GET /` route. The route is only the `ServePage` action.
- The outbound `fetch` calls themselves. Their outcomes are inputs, and what a callee answers is fed back in by `WorkerChain` for the Cloudflare journey.
- `sleep`/`setTimeout` for `DELAY_MS`. The delay changes timing, not results. `parseInt` is taken as already done, giving an optional integer.
- `context.log` and `console` output.
- Buffer bodies and UTF-8 decoding in the transcription `parseBody`. Bodies are strings or parsed JSON.
- Array-valued Azure header values (`Array.isArray` on a header). Headers are single strings.
- `toLowerCase` beyond ASCII. `Text.Lower` lowers only A-Z.
- Header names are lower-cased throughout, because HTTP header names are case-insensitive.
- Duplicate keys in a JSON object. Property access reads the first field with a key.
- Floating-point numbers. A `JNum` carries the text `JSON.stringify` writes for it.
- The wording of V8 error messages. The TypeError texts the Azure code can produce are constants.
- What the Azure Functions runtime answers for an invocation that throws. `MuttrHop.Uncaught` records the error and the calls made before it.
- The Azure end-to-end journey over several hops. `MuttrHop` proves single-invocation facts: chain and log growth, and that a relay passes on the callee's status, text, content type and chain (headers `MuttrHop.RelayResponse` names). It does not compose them into a journey.
- Unicode in the `;base64,` match. `Transcribe.StripDataUrl` lowers only ASCII letters, which is all the pattern's letters need.
- Worker.Decide, Worker.Finish, Worker.Fetch and the `WorkerChain` journey lemmas (`OnwardVisit`, `TurnVisit`, `ReturnVisit`, `JourneyOutcome`, `JourneyOfRejectedGeneration`, `FinalChainEntries`, `FinalLogRecords`, `ChainAtText`, `LogAtText`, `OutRoute`, `BackRoute`): these use the corrected `Worker.CallHop` and `Worker.Summary` of "## Findings", so they describe the program as intended. As written, every relay after the first hop and every summary after a round trip throws (`Worker.RelayAfterFirstHopThrows`, `Worker.SummaryAfterRoundTripThrows`).
- WorkerChain.JourneyOfRejectedGeneration: for three hops or more it gives the outcome of the corrected relay, the last hop's error page. As written, the second hop receives a log header, builds a two-line log and its relay throws (`Worker.RelayAfterFirstHopThrows`), so the client gets the second hop's error page and no generation call is made. With one or two hops only the first hop relays, and its log has one line, so `Worker.RelayAfterFirstHopThrows` does not apply.
- WorkerChain.AsOutcome: the contents of the platform's error page for an invocation that throws are not modelled; each visit's error page is an input of its stamp.
- Json.ParseInvertsStringify: `JSON.parse` is not implemented. Lemmas that need it to read back `JSON.stringify` output take this as a precondition.

## Findings

| source | as written | input that shows it | evidently intended | confidence | as-written member | corrected member |
|---|---|---|---|---|---|---|
| src/worker.mjs:345-360 | `callHop` puts the log into `X-Hop-Log` with `Headers.set`. The log is the entries joined by line feeds, and the Fetch standard refuses a header value that holds a line feed. | A second hop that receives `X-Hop-Log: {"hop":"a",...}` builds the log `{"hop":"a",...}\n{"hop":"b",...}`, so `set` throws before the call is sent. | the relay is sent carrying every entry, so the summary lists every visit | not executed; medium | Worker.CallHopAsWritten, Worker.RelayAfterFirstHopThrows | Worker.CallHop, Worker.CallHopCarries, Worker.Decide, WorkerChain.FinalLogRecords, WorkerChain.JourneyOutcome, WorkerChain.JourneyOfRejectedGeneration |
| src/worker.mjs:532-534 | The origin's summary sets `X-Hop-Log` to the same multi-line log. | Any log of two entries reaching hop 0 on the return leg. | the summary is answered with the log header | not executed; medium | Worker.SummaryAsWritten, Worker.SummaryAfterRoundTripThrows | Worker.Summary, Worker.SummaryCarries, WorkerChain.JourneyOutcome |
