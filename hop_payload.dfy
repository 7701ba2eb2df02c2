/** How the Azure hop at the end of the outward leg turns the body it
    received into the request for the generation service
    (MuttrHop/index.js:214-369): the messages, taken from a `messages`
    array, or from a system prompt and user messages, or else a fixed
    two-message fallback; the model; and the allow-listed parameters. */
module HopPayload {
  import opened Wrappers
  import opened Text
  import opened Json

  /** The default system prompt. It is written as two literals because the
      verifier reads the characters of a long literal only near its end, and
      the proofs need its first character. */
  const DefaultSystemPrompt := "You are a chaotic " + "todo-list game of telephone. Repeat and mutate this list as you see fit."

  /** The request parameters a client may pass through to the service. */
  const AllowedForwardKeys: seq<string> :=
    ["response_format", "stop", "stream", "max_tokens", "temperature", "tools", "tool_choice", "seed",
     "top_p", "top_k", "frequency_penalty", "presence_penalty", "repetition_penalty", "logit_bias",
     "top_logprobs", "min_p", "top_a", "prediction", "transforms", "models", "route", "provider", "user"]

  /** One message of the conversation sent to the service. */
  datatype Message = Message(role: string, content: string)

  /** A message the service can use: a role, and content with no white
      space at either end. */
  predicate WellFormed(m: Message)
  {
    m.role != "" && m.content != "" && Trim(m.content) == m.content
  }

  function MessageJson(m: Message): Json
  {
    JObj([("role", JStr(m.role)), ("content", JStr(m.content))])
  }

  /** The text one part of an array `content` contributes: a string, or the
      string `text` of an object; "" for anything else. */
  function ContentPartText(part: Json): string
  {
    if part.JStr? then part.s
    else if IsObject(part) && StrProp(part, "text").Some? then StrProp(part, "text").value
    else ""
  }

  /** `parts.map(ContentPartText).join("")`. */
  function JoinParts(parts: seq<Json>): (r: string)
    ensures r == Join(seq(|parts|, k requires 0 <= k < |parts| => ContentPartText(parts[k])), "")
  {
    if parts == [] then ""
    else
      var texts := seq(|parts|, k requires 0 <= k < |parts| => ContentPartText(parts[k]));
      var rest := seq(|parts| - 1, k requires 0 <= k < |parts| - 1 => ContentPartText(parts[1..][k]));
      assert texts[1..] == rest;
      ContentPartText(parts[0]) + JoinParts(parts[1..])
  }

  /** A message's content as text: an array flattened, `undefined` and
      `null` absent (None), anything else converted with `String`, which
      throws for an object with its own `toString` key. */
  function ContentText(content: Option<Json>): (r: Attempt<Option<string>>)
    ensures r == Returned(None) <==> content.None? || content.value.JNull?
    ensures r.Threw? <==> content.Some? && content.value.JObj? && ConvertThrows(content.value)
    ensures r.Threw? ==> r.error == ConvertError
    ensures content.Some? && content.value.JArr? ==> r == Returned(Some(JoinParts(content.value.items)))
    ensures content.Some? && content.value.JStr? ==> r == Returned(Some(content.value.s))
    ensures content.Some? && content.value.JNum? ==> r == Returned(Some(content.value.text))
    ensures content.Some? && content.value.JBool? ==> r == Returned(Some(if content.value.b then "true" else "false"))
    ensures content.Some? && content.value.JObj? && !ConvertThrows(content.value) ==> r == Returned(Some("[object Object]"))
  {
    match content
    case None => Returned(None)
    case Some(JNull) => Returned(None)
    case Some(JArr(parts)) => Returned(Some(JoinParts(parts)))
    case Some(j) =>
      match ToJsString(j)
      case Returned(s) => Returned(Some(s))
      case Threw(e) => Threw(e)
  }

  /** The role `normalizeMessage` reads: a string `role`, trimmed and
      lower-cased; "" when there is none. */
  function RoleOf(msg: Json): string
  {
    match StrProp(msg, "role")
    case Some(role) => Lower(Trim(role))
    case None => ""
  }

  /** `normalizeMessage`: the role trimmed and lower-cased, the content
      flattened and trimmed; nothing (`null`) when the entry is not an
      object, the role is not a non-blank string, or the content is missing
      or blank. Converting the content of an entry with a role can throw. */
  function NormalizeMessage(msg: Json): (r: Attempt<Option<Message>>)
    ensures r.Threw? <==> IsObject(msg) && RoleOf(msg) != "" && ContentText(Prop(msg, "content")).Threw?
    ensures r.Threw? ==> r.error == ConvertError
    ensures (r.Returned? && r.value.Some?) <==>
      && IsObject(msg) && RoleOf(msg) != ""
      && ContentText(Prop(msg, "content")).Returned? && ContentText(Prop(msg, "content")).value.Some?
      && Trim(ContentText(Prop(msg, "content")).value.value) != ""
    ensures r.Returned? && r.value.Some? ==>
      && r.value.value.role == RoleOf(msg)
      && r.value.value.content == Trim(ContentText(Prop(msg, "content")).value.value)
      && WellFormed(r.value.value)
  {
    if !IsObject(msg) then Returned(None)
    else
      var role := RoleOf(msg);
      if role == "" then Returned(None)
      else
        match ContentText(Prop(msg, "content"))
        case Threw(e) => Threw(e)
        case Returned(None) => Returned(None)
        case Returned(Some(content)) =>
          var trimmed := Trim(content);
          if trimmed == "" then Returned(None)
          else
            TrimIdempotent(content);
            Returned(Some(Message(role, trimmed)))
  }

  /** Normalising the entry gives a message, which `filter` keeps. */
  predicate Keeps(m: Json)
  {
    NormalizeMessage(m).Returned? && NormalizeMessage(m).value.Some?
  }

  /** The messages `filter` keeps: each entry's normalised message, in
      order, leaving out the entries that normalise to nothing. */
  function Kept(ms: seq<Json>): (r: seq<Message>)
    ensures |r| <= |ms|
    ensures forall k :: 0 <= k < |r| ==> WellFormed(r[k])
  {
    if ms == [] then []
    else
      var rest := Kept(ms[1..]);
      assert forall i :: 1 <= i < |ms| ==> ms[i] == ms[1..][i - 1];
      if Keeps(ms[0]) then
        var m := NormalizeMessage(ms[0]).value.value;
        assert WellFormed(m);
        [m] + rest
      else rest
  }

  /** Nothing is kept exactly when no entry normalises to a message. */
  lemma {:induction false} KeptEmpty(ms: seq<Json>)
    ensures Kept(ms) == [] <==> forall i :: 0 <= i < |ms| ==> !Keeps(ms[i])
  {
    if ms != [] {
      KeptEmpty(ms[1..]);
      assert forall i :: 1 <= i < |ms| ==> ms[i] == ms[1..][i - 1];
    }
  }

  /** A single entry is kept exactly when it normalises to a message. */
  lemma KeptOne(m: Json)
    ensures Kept([m]) == if Keeps(m) then [NormalizeMessage(m).value.value] else []
  {
    assert [m][1..] == [];
  }

  /** Keeping distributes over two runs of entries one after the other. */
  lemma {:induction false} KeptAppend(a: seq<Json>, b: seq<Json>)
    ensures Kept(a + b) == Kept(a) + Kept(b)
  {
    if a == [] {
      assert a + b == b;
    } else {
      var ab := a + b;
      assert ab[0] == a[0];
      assert ab[1..] == a[1..] + b;
      KeptAppend(a[1..], b);
    }
  }

  /** `messages.map(normalizeMessage).filter(m => m !== null)`: the `map`
      throws when normalising any entry throws; otherwise the normalised
      messages are kept. */
  function NormalizeAll(ms: seq<Json>): (r: Attempt<seq<Message>>)
    ensures r.Threw? <==> exists i :: 0 <= i < |ms| && NormalizeMessage(ms[i]).Threw?
    ensures r.Threw? ==> r.error == ConvertError
    ensures r.Returned? ==> r.value == Kept(ms)
    ensures r.Returned? ==> |r.value| <= |ms| && forall k :: 0 <= k < |r.value| ==> WellFormed(r.value[k])
    ensures r.Returned? ==> (r.value == [] <==> forall i :: 0 <= i < |ms| ==> NormalizeMessage(ms[i]) == Returned(None))
  {
    KeptEmpty(ms);
    if exists i :: 0 <= i < |ms| && NormalizeMessage(ms[i]).Threw? then Threw(ConvertError)
    else Returned(Kept(ms))
  }

  /** A single entry gives its normalised message, nothing when it
      normalises to nothing, and throws when normalising it throws. */
  lemma NormalizeAllOne(m: Json)
    ensures NormalizeMessage(m).Threw? ==> NormalizeAll([m]) == Threw(ConvertError)
    ensures NormalizeMessage(m) == Returned(None) ==> NormalizeAll([m]) == Returned([])
    ensures NormalizeMessage(m).Returned? && NormalizeMessage(m).value.Some? ==>
      NormalizeAll([m]) == Returned([NormalizeMessage(m).value.value])
  {
    KeptOne(m);
  }

  /** Two runs of entries one after the other throw exactly when one of
      them does; otherwise the kept messages are the first run's followed
      by the second's. */
  lemma NormalizeAllAppend(a: seq<Json>, b: seq<Json>)
    ensures NormalizeAll(a + b).Threw? <==> NormalizeAll(a).Threw? || NormalizeAll(b).Threw?
    ensures NormalizeAll(a).Returned? && NormalizeAll(b).Returned? ==>
      NormalizeAll(a + b) == Returned(NormalizeAll(a).value + NormalizeAll(b).value)
  {
    var ab := a + b;
    assert forall i :: 0 <= i < |a| ==> ab[i] == a[i];
    assert forall i :: 0 <= i < |b| ==> ab[|a| + i] == b[i];
    KeptAppend(a, b);
  }

  /** The text of one user entry: a string, or an object's string content. */
  function UserEntryText(entry: Json): Option<string>
  {
    if entry.JStr? then Some(entry.s)
    else if IsObject(entry) then StrProp(entry, "content")
    else None
  }

  /** The user messages that are strings, or objects with string content,
      and not blank; kept untrimmed. */
  function NormalizedUsers(raw: seq<Json>): (r: seq<string>)
    ensures |r| <= |raw|
    ensures forall k :: 0 <= k < |r| ==> Trim(r[k]) != ""
  {
    if raw == [] then []
    else
      var rest := NormalizedUsers(raw[1..]);
      match UserEntryText(raw[0])
      case Some(u) => if Trim(u) != "" then [u] + rest else rest
      case None => rest
  }

  /** A single user entry is kept, untrimmed, exactly when its text is not
      blank. */
  lemma NormalizedUsersOne(entry: Json)
    ensures NormalizedUsers([entry])
      == if UserEntryText(entry).Some? && Trim(UserEntryText(entry).value) != "" then [UserEntryText(entry).value] else []
  {
    assert [entry][1..] == [];
  }

  /** The user entries of two runs one after the other are the first run's
      followed by the second's. */
  lemma {:induction false} NormalizedUsersAppend(a: seq<Json>, b: seq<Json>)
    ensures NormalizedUsers(a + b) == NormalizedUsers(a) + NormalizedUsers(b)
  {
    if a == [] {
      assert a + b == b;
    } else {
      var ab := a + b;
      assert ab[0] == a[0];
      assert ab[1..] == a[1..] + b;
      NormalizedUsersAppend(a[1..], b);
    }
  }

  /** `system_prompt`, else `systemPrompt`, when a string. */
  function SystemPromptOf(payload: Json): (r: Option<string>)
    ensures StrProp(payload, "system_prompt").Some? ==> r == StrProp(payload, "system_prompt")
    ensures StrProp(payload, "system_prompt").None? ==> r == StrProp(payload, "systemPrompt")
  {
    if StrProp(payload, "system_prompt").Some? then StrProp(payload, "system_prompt") else StrProp(payload, "systemPrompt")
  }

  /** `user_messages`, else `userMessages`, when an array; else none. */
  function UserMessagesRaw(payload: Json): (r: seq<Json>)
    ensures ArrProp(payload, "user_messages").Some? ==> r == ArrProp(payload, "user_messages").value
    ensures ArrProp(payload, "user_messages").None? && ArrProp(payload, "userMessages").Some? ==>
      r == ArrProp(payload, "userMessages").value
    ensures ArrProp(payload, "user_messages").None? && ArrProp(payload, "userMessages").None? ==> r == []
  {
    match ArrProp(payload, "user_messages")
    case Some(xs) => xs
    case None => ArrProp(payload, "userMessages").GetOr([])
  }

  predicate NonBlank(s: Option<string>)
  {
    s.Some? && Trim(s.value) != ""
  }

  /** The system message, when the prompt is not blank. */
  function SystemMessages(system: Option<string>): (r: seq<Message>)
    ensures |r| == (if NonBlank(system) then 1 else 0)
    ensures NonBlank(system) ==> r[0] == Message("system", Trim(system.value))
  {
    if NonBlank(system) then [Message("system", Trim(system.value))] else []
  }

  /** One user message per entry, trimmed, in order. */
  function UserMessages(users: seq<string>): (r: seq<Message>)
    ensures |r| == |users|
    ensures forall k :: 0 <= k < |users| ==> r[k] == Message("user", Trim(users[k]))
  {
    seq(|users|, k requires 0 <= k < |users| => Message("user", Trim(users[k])))
  }

  /** The system message first, when the prompt is not blank, then the
      user messages. */
  function Assembled(system: Option<string>, users: seq<string>): (r: seq<Message>)
    ensures |r| == (if NonBlank(system) then 1 else 0) + |users|
  {
    SystemMessages(system) + UserMessages(users)
  }

  /** One more entry is one more user message, last. */
  lemma UserMessagesSnoc(users: seq<string>, i: nat)
    requires i < |users|
    ensures UserMessages(users[..i + 1]) == UserMessages(users[..i]) + [Message("user", Trim(users[i]))]
  {
    assert users[..i + 1][i] == users[i];
  }

  /** The message list built with `push` (MuttrHop/index.js:307-313). */
  method AssembleMessages(system: Option<string>, users: seq<string>) returns (messages: seq<Message>)
    ensures messages == Assembled(system, users)
  {
    messages := [];
    if system.Some? && Trim(system.value) != "" {
      messages := messages + [Message("system", Trim(system.value))];
    }
    assert messages == SystemMessages(system);
    var i := 0;
    while i < |users|
      invariant 0 <= i <= |users|
      invariant messages == SystemMessages(system) + UserMessages(users[..i])
    {
      UserMessagesSnoc(users, i);
      messages := messages + [Message("user", Trim(users[i]))];
      i := i + 1;
    }
    assert users[..i] == users;
  }

  /** Assembled messages are usable when the user entries are not blank. */
  lemma AssembledWellFormed(system: Option<string>, users: seq<string>)
    requires forall k :: 0 <= k < |users| ==> Trim(users[k]) != ""
    ensures forall k :: 0 <= k < |Assembled(system, users)| ==> WellFormed(Assembled(system, users)[k])
  {
    var head := SystemMessages(system);
    var tail := UserMessages(users);
    if NonBlank(system) {
      TrimIdempotent(system.value);
    }
    forall k | 0 <= k < |tail| ensures WellFormed(tail[k]) {
      TrimIdempotent(users[k]);
    }
    assert Assembled(system, users) == head + tail;
  }

  /** The usable entries of a `messages` array; none when there is no such
      array. */
  function MessagesOf(p: Json): (r: Attempt<seq<Message>>)
    ensures ArrProp(p, "messages").None? ==> r == Returned([])
    ensures ArrProp(p, "messages").Some? ==> r == NormalizeAll(ArrProp(p, "messages").value)
  {
    match ArrProp(p, "messages")
    case Some(ms) => NormalizeAll(ms)
    case None => Returned([])
  }

  /** `extractMessagesFromPayload`: the valid entries of `messages` when
      there is at least one; else the system prompt and user messages when
      that gives at least one message; else nothing. It throws exactly when
      normalising an entry of `messages` throws. */
  function ExtractMessages(payload: Option<Json>): (r: Attempt<Option<seq<Message>>>)
    ensures !(payload.Some? && IsObject(payload.value)) ==> r == Returned(None)
    ensures payload.Some? && IsObject(payload.value) ==> (r.Threw? <==> MessagesOf(payload.value).Threw?)
    ensures r.Threw? ==> r.error == ConvertError
    ensures r.Returned? && r.value.Some? ==>
      r.value.value != [] && forall k :: 0 <= k < |r.value.value| ==> WellFormed(r.value.value[k])
    ensures payload.Some? && IsObject(payload.value) && MessagesOf(payload.value).Returned?
            && MessagesOf(payload.value).value != [] ==>
      r == Returned(Some(MessagesOf(payload.value).value))
  {
    if payload.None? || !IsObject(payload.value) then Returned(None)
    else
      var p := payload.value;
      match MessagesOf(p)
      case Threw(e) => Threw(e)
      case Returned(normalized) =>
        if normalized != [] then Returned(Some(normalized))
        else
          var system := SystemPromptOf(p);
          var users := NormalizedUsers(UserMessagesRaw(p));
          if (system.None? || system.value == "") && users == [] then Returned(None)
          else
            var messages := Assembled(system, users);
            AssembledWellFormed(system, users);
            if messages != [] then Returned(Some(messages)) else Returned(None)
  }

  /** The two messages used when the payload gives none: the default
      system prompt, then the trimmed body, or the prompt again when the
      body is blank. */
  function Fallback(body: string): (r: seq<Message>)
    ensures |r| == 2 && r[0] == Message("system", DefaultSystemPrompt)
    ensures Trim(body) != "" ==> r[1] == Message("user", Trim(body))
    ensures Trim(body) == "" ==> r[1] == Message("user", DefaultSystemPrompt)
  {
    [Message("system", DefaultSystemPrompt), Message("user", if Trim(body) != "" then Trim(body) else DefaultSystemPrompt)]
  }

  /** `requestMessages`: the extracted messages, else the fallback; it
      throws where the extraction does. */
  function RequestMessages(payload: Option<Json>, body: string): (r: Attempt<seq<Message>>)
    ensures r.Threw? <==> ExtractMessages(payload).Threw?
    ensures r.Threw? ==> r.error == ConvertError
    ensures ExtractMessages(payload).Returned? && ExtractMessages(payload).value.Some? ==>
      r == Returned(ExtractMessages(payload).value.value)
    ensures ExtractMessages(payload) == Returned(None) ==> r == Returned(Fallback(body))
  {
    match ExtractMessages(payload)
    case Threw(e) => Threw(e)
    case Returned(Some(ms)) => Returned(ms)
    case Returned(None) => Returned(Fallback(body))
  }

  /** The conversation sent is never empty and every message in it is
      usable. */
  lemma RequestMessagesWellFormed(payload: Option<Json>, body: string)
    ensures var r := RequestMessages(payload, body);
      r.Returned? ==> r.value != [] && forall k :: 0 <= k < |r.value| ==> WellFormed(r.value[k])
  {
    if ExtractMessages(payload) == Returned(None) {
      assert !IsSpace(DefaultSystemPrompt[0]) && !IsSpace(DefaultSystemPrompt[|DefaultSystemPrompt| - 1]);
      TrimOfTrimmed(DefaultSystemPrompt);
      TrimIdempotent(body);
    }
  }

  /** With no usable `messages` entry, a non-blank system prompt comes first,
      followed by the non-blank user messages, each trimmed. */
  lemma RequestMessagesFromPrompts(p: Json, body: string)
    requires IsObject(p)
    requires MessagesOf(p) == Returned([])
    requires NonBlank(SystemPromptOf(p)) || NormalizedUsers(UserMessagesRaw(p)) != []
    ensures RequestMessages(Some(p), body) == Returned(Assembled(SystemPromptOf(p), NormalizedUsers(UserMessagesRaw(p))))
  {
  }

  /** With no usable `messages` entry, no non-blank system prompt and no
      non-blank user entry, a JSON payload leads to the fallback too. */
  lemma RequestMessagesFallsBack(p: Json, body: string)
    requires IsObject(p)
    requires MessagesOf(p) == Returned([])
    requires !NonBlank(SystemPromptOf(p)) && NormalizedUsers(UserMessagesRaw(p)) == []
    ensures RequestMessages(Some(p), body) == Returned(Fallback(body))
  {
  }

  /** A body that is not JSON always leads to the fallback. */
  lemma RequestMessagesOfText(body: string)
    ensures RequestMessages(None, body) == Returned(Fallback(body))
  {
  }

  /** An entry of `messages` with a role whose content is an object with its
      own `toString` key makes building the conversation throw, whatever
      the other entries hold. */
  lemma RequestMessagesThrow(p: Json, body: string, k: nat)
    requires IsObject(p) && ArrProp(p, "messages").Some?
    requires k < |ArrProp(p, "messages").value|
    requires var m := ArrProp(p, "messages").value[k];
      && IsObject(m) && RoleOf(m) != ""
      && Prop(m, "content").Some? && Prop(m, "content").value.JObj? && ConvertThrows(Prop(m, "content").value)
    ensures RequestMessages(Some(p), body) == Threw(ConvertError)
  {
    var ms := ArrProp(p, "messages").value;
    assert ContentText(Prop(ms[k], "content")).Threw?;
    assert NormalizeMessage(ms[k]).Threw?;
    assert NormalizeAll(ms).Threw?;
    assert MessagesOf(p).Threw?;
  }

  /** `requestModel`: the trimmed `model` when it is a non-blank string, else
      the configured one. */
  function RequestModel(payload: Option<Json>, configured: string): (r: string)
    ensures payload.Some? && StrProp(payload.value, "model").Some? && Trim(StrProp(payload.value, "model").value) != "" ==>
      r == Trim(StrProp(payload.value, "model").value)
    ensures !(payload.Some? && StrProp(payload.value, "model").Some? && Trim(StrProp(payload.value, "model").value) != "") ==>
      r == configured
  {
    if payload.Some? && StrProp(payload.value, "model").Some? && Trim(StrProp(payload.value, "model").value) != "" then
      Trim(StrProp(payload.value, "model").value)
    else configured
  }

  /** The conversation as a JSON array. */
  function MessagesJson(messages: seq<Message>): (j: Json)
    ensures j.JArr? && |j.items| == |messages|
    ensures forall k :: 0 <= k < |messages| ==> j.items[k] == MessageJson(messages[k])
  {
    JArr(seq(|messages|, k requires 0 <= k < |messages| => MessageJson(messages[k])))
  }

  /** The payload's own properties among `keys`, in the order of `keys`. */
  function ForwardedFields(p: Json, keys: seq<string>): (r: seq<(string, Json)>)
    ensures forall i :: 0 <= i < |r| ==> r[i].0 in keys && Prop(p, r[i].0) == Some(r[i].1)
    decreases |keys|
  {
    if keys == [] then []
    else
      var k := keys[|keys| - 1];
      var init := ForwardedFields(p, keys[..|keys| - 1]);
      match Prop(p, k)
      case Some(v) => init + [(k, v)]
      case None => init
  }

  /** The request document: model and messages, then the copied parameters. */
  function RequestDocument(model: string, messages: seq<Message>, payload: Option<Json>): Json
  {
    var base := [("model", JStr(model)),
                 ("messages", MessagesJson(messages))];
    if payload.Some? && IsObject(payload.value) then JObj(base + ForwardedFields(payload.value, AllowedForwardKeys))
    else JObj(base)
  }

  /** `openRouterReqBody`: the model and messages, then the allowed
      properties the payload has (MuttrHop/index.js:358-369). */
  method BuildRequestBody(model: string, messages: seq<Message>, payload: Option<Json>) returns (doc: Json)
    ensures doc == RequestDocument(model, messages, payload)
  {
    var fields := [("model", JStr(model)),
                   ("messages", MessagesJson(messages))];
    if payload.Some? && IsObject(payload.value) {
      var copied := CopyForwarded(payload.value, AllowedForwardKeys);
      fields := fields + copied;
    }
    doc := JObj(fields);
  }

  /** The loop over the allow-list: each key the payload has is copied, in
      the order of the list. */
  method CopyForwarded(p: Json, keys: seq<string>) returns (copied: seq<(string, Json)>)
    ensures copied == ForwardedFields(p, keys)
  {
    copied := [];
    var i := 0;
    while i < |keys|
      invariant 0 <= i <= |keys|
      invariant copied == ForwardedFields(p, keys[..i])
    {
      var key := keys[i];
      ForwardedSnoc(p, keys, i);
      if Prop(p, key).Some? {
        copied := copied + [(key, Prop(p, key).value)];
      }
      i := i + 1;
    }
    assert keys[..i] == keys;
  }

  /** One more key copies one more property, when the payload has it. */
  lemma ForwardedSnoc(p: Json, keys: seq<string>, i: nat)
    requires i < |keys|
    ensures ForwardedFields(p, keys[..i + 1])
         == ForwardedFields(p, keys[..i]) + (if Prop(p, keys[i]).Some? then [(keys[i], Prop(p, keys[i]).value)] else [])
  {
    assert keys[..i + 1][..i] == keys[..i];
  }

  /** The first field named `key` in two field lists one after the other. */
  lemma {:induction false} LookupConcat(xs: seq<(string, Json)>, ys: seq<(string, Json)>, key: string)
    ensures Lookup(xs + ys, key) == if Lookup(xs, key).Some? then Lookup(xs, key) else Lookup(ys, key)
  {
    if xs != [] && xs[0].0 != key {
      assert (xs + ys)[0] == xs[0];
      assert (xs + ys)[1..] == xs[1..] + ys;
      LookupConcat(xs[1..], ys, key);
    } else if xs != [] {
      assert (xs + ys)[0] == xs[0];
    } else {
      assert xs + ys == ys;
    }
  }

  /** A copied parameter has the payload's value, and only listed ones are
      copied. */
  lemma {:induction false} ForwardedLookup(p: Json, keys: seq<string>, key: string)
    ensures Lookup(ForwardedFields(p, keys), key) == if key in keys then Prop(p, key) else None
    decreases |keys|
  {
    if keys != [] {
      var init := keys[..|keys| - 1];
      ForwardedLookup(p, init, key);
      assert keys == init + [keys[|keys| - 1]];
      var k := keys[|keys| - 1];
      match Prop(p, k)
      case Some(v) => LookupConcat(ForwardedFields(p, init), [(k, v)], key);
      case None =>
    }
  }

  /** The allow-list names each parameter once. */
  lemma AllowListDistinct()
    ensures Distinct(AllowedForwardKeys)
  {
    var keys := AllowedForwardKeys;
    assert |keys| == 23;
    forall i, k | 0 <= i < k < |keys|
      ensures keys[i] != keys[k]
    {
      // Most pairs differ in length; the others differ in some character.
      assert |keys[i]| != |keys[k]| || keys[i] != keys[k];
    }
  }

  /** The allow-list names neither `model` nor `messages`. */
  lemma AllowListOmitsDocumentKeys()
    ensures "model" !in AllowedForwardKeys && "messages" !in AllowedForwardKeys
  {
  }

  /** Copying from a list that names each key once gives each key once. */
  lemma {:induction false} ForwardedDistinct(p: Json, keys: seq<string>)
    requires Distinct(keys)
    ensures DistinctKeys(ForwardedFields(p, keys))
    decreases |keys|
  {
    if keys != [] {
      var init := keys[..|keys| - 1];
      var k := keys[|keys| - 1];
      assert Distinct(init);
      ForwardedDistinct(p, init);
      assert k !in init;
    }
  }

  /** Every key of the request document appears once: each allow-listed
      property is written once and never onto `model` or `messages`, so
      appending the copied fields is the same as the assignments
      `openRouterReqBody[key] = ...`. */
  lemma RequestDocumentKeysDistinct(model: string, messages: seq<Message>, payload: Option<Json>)
    ensures RequestDocument(model, messages, payload).JObj?
    ensures DistinctKeys(RequestDocument(model, messages, payload).fields)
  {
    if payload.Some? && IsObject(payload.value) {
      var base := [("model", JStr(model)), ("messages", MessagesJson(messages))];
      var extra := ForwardedFields(payload.value, AllowedForwardKeys);
      AllowListDistinct();
      AllowListOmitsDocumentKeys();
      ForwardedDistinct(payload.value, AllowedForwardKeys);
      var all := base + extra;
      forall i, k | 0 <= i < k < |all|
        ensures all[i].0 != all[k].0
      {
        if k >= 2 {
          assert all[k] == extra[k - 2];
          if i >= 2 {
            assert all[i] == extra[i - 2];
          }
        }
      }
    }
  }

  /** The request document names the model and the messages, which no
      parameter overrides, and otherwise holds exactly the payload's
      allow-listed properties, with their values. */
  lemma RequestDocumentFields(model: string, messages: seq<Message>, payload: Option<Json>, key: string)
    ensures var doc := RequestDocument(model, messages, payload);
      && Prop(doc, "model") == Some(JStr(model))
      && Prop(doc, "messages") == Some(MessagesJson(messages))
      && (key != "model" && key != "messages" ==>
            Prop(doc, key) == if key in AllowedForwardKeys && payload.Some? && IsObject(payload.value) then Prop(payload.value, key) else None)
  {
    var base := [("model", JStr(model)),
                 ("messages", MessagesJson(messages))];
    assert "model" != "messages";
    assert base[1..] == [("messages", MessagesJson(messages))];
    assert Lookup(base, "messages") == Some(MessagesJson(messages));
    if payload.Some? && IsObject(payload.value) {
      var extra := ForwardedFields(payload.value, AllowedForwardKeys);
      LookupConcat(base, extra, "model");
      LookupConcat(base, extra, "messages");
      LookupConcat(base, extra, key);
      ForwardedLookup(payload.value, AllowedForwardKeys, key);
    }
  }
}
