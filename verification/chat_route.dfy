/** The chat endpoint (app/api/chat/route.ts): it cleans the submitted
    conversation, checks the request in a fixed order, and asks the shared
    language-model client for the assistant's next message with the lecture
    transcript as context. */
module ChatRoute {
  import opened Wrappers
  import opened Text
  import Llm

  /** A message's `content`: a string, or some other JSON value. */
  datatype RawContent = StringContent(text: string) | OtherContent

  /** An entry of the submitted `messages` array. */
  datatype RawEntry = NotAnObject | RawMessage(role: Option<string>, content: RawContent)

  /** The submitted `messages`: an array, or anything else. */
  datatype RawMessages = NotAnArray | Entries(entries: seq<RawEntry>)

  /** The entry as a chat message: an object whose lower-cased role is
      `user` or `assistant` and whose content is a string with text in it,
      kept trimmed. */
  function SanitizeEntry(entry: RawEntry): (r: Option<Llm.ChatMessage>)
    ensures r.Some? ==> entry.RawMessage? && entry.role.Some? && entry.content.StringContent?
    ensures r.Some? ==> r.value.content == Trim(entry.content.text) && r.value.content != ""
    ensures r.Some? ==> (r.value.role == Llm.User <==> ToLower(entry.role.value) == "user")
    ensures r.Some? ==> (r.value.role == Llm.Assistant <==> ToLower(entry.role.value) == "assistant")
    ensures r.None? <==> (entry.NotAnObject? || entry.role.None?
                          || ToLower(entry.role.value) !in {"user", "assistant"}
                          || entry.content.OtherContent? || IsBlank(entry.content.text))
  {
    match entry
    case NotAnObject => None
    case RawMessage(role, content) =>
      if role.None? then None
      else
        var lowered := ToLower(role.value);
        if lowered != "user" && lowered != "assistant" then None
        else
          var text := if content.StringContent? then Trim(content.text) else "";
          if text == "" then None
          else Some(Llm.ChatMessage(if lowered == "user" then Llm.User else Llm.Assistant, text))
  }

  /** The sanitised entries, in order. */
  function SanitizeAll(entries: seq<RawEntry>): (r: seq<Llm.ChatMessage>)
    ensures |r| <= |entries|
    decreases |entries|
  {
    if |entries| == 0 then []
    else
      var last := SanitizeEntry(entries[|entries| - 1]);
      SanitizeAll(entries[..|entries| - 1]) + (if last.Some? then [last.value] else [])
  }

  /** `sanitizeMessages`: no messages unless an array was sent. */
  function SanitizeMessages(raw: RawMessages): (r: seq<Llm.ChatMessage>)
    ensures raw.NotAnArray? ==> r == []
    ensures raw.Entries? ==> |r| <= |raw.entries|
  {
    match raw
    case NotAnArray => []
    case Entries(entries) => SanitizeAll(entries)
  }

  /** `idx` picks, in increasing order, exactly the entries that sanitise
      to a message, and the output holds those messages. */
  predicate Picks(output: seq<Llm.ChatMessage>, entries: seq<RawEntry>, idx: seq<nat>) {
    && |idx| == |output|
    && (forall k :: 0 <= k < |idx| ==> idx[k] < |entries| && SanitizeEntry(entries[idx[k]]) == Some(output[k]))
    && (forall k, l :: 0 <= k < l < |idx| ==> idx[k] < idx[l])
    && (forall i :: 0 <= i < |entries| && SanitizeEntry(entries[i]).Some? ==> i in idx)
  }

  /** The output is the order-preserving subsequence of the entries that
      are valid messages. */
  lemma {:induction false} SanitizeIsSubsequence(entries: seq<RawEntry>) returns (idx: seq<nat>)
    ensures Picks(SanitizeAll(entries), entries, idx)
    decreases |entries|
  {
    if |entries| == 0 {
      idx := [];
    } else {
      var init := entries[..|entries| - 1];
      var before := SanitizeIsSubsequence(init);
      assert entries == init + [entries[|entries| - 1]];
      idx := PicksExtend(SanitizeAll(init), init, before, entries[|entries| - 1]);
    }
  }

  /** One more entry: it is picked exactly when it is a valid message. */
  lemma PicksExtend(output: seq<Llm.ChatMessage>, entries: seq<RawEntry>, idx: seq<nat>, entry: RawEntry)
      returns (idx': seq<nat>)
    requires Picks(output, entries, idx)
    ensures Picks(output + (if SanitizeEntry(entry).Some? then [SanitizeEntry(entry).value] else []), entries + [entry], idx')
  {
    if SanitizeEntry(entry).Some? {
      idx' := idx + [|entries|];
      PicksKeep(output, entries, idx, entry);
    } else {
      idx' := idx;
      PicksSkip(output, entries, idx, entry);
    }
  }

  lemma PicksSkip(output: seq<Llm.ChatMessage>, entries: seq<RawEntry>, idx: seq<nat>, entry: RawEntry)
    requires Picks(output, entries, idx) && SanitizeEntry(entry).None?
    ensures Picks(output, entries + [entry], idx)
  {
    var entries' := entries + [entry];
    assert forall i :: 0 <= i < |entries| ==> entries'[i] == entries[i];
  }

  lemma PicksKeep(output: seq<Llm.ChatMessage>, entries: seq<RawEntry>, idx: seq<nat>, entry: RawEntry)
    requires Picks(output, entries, idx) && SanitizeEntry(entry).Some?
    ensures Picks(output + [SanitizeEntry(entry).value], entries + [entry], idx + [|entries|])
  {
    var entries' := entries + [entry];
    var idx' := idx + [|entries|];
    var output' := output + [SanitizeEntry(entry).value];
    forall k | 0 <= k < |idx'|
      ensures idx'[k] < |entries'| && SanitizeEntry(entries'[idx'[k]]) == Some(output'[k])
    {
      if k < |idx| {
        assert idx'[k] == idx[k] && output'[k] == output[k];
        assert entries'[idx[k]] == entries[idx[k]];
      }
    }
    forall k, l | 0 <= k < l < |idx'|
      ensures idx'[k] < idx'[l]
    {
      assert idx'[k] == idx[k];
    }
    forall i | 0 <= i < |entries'| && SanitizeEntry(entries'[i]).Some?
      ensures i in idx'
    {
      if i < |entries| {
        assert entries'[i] == entries[i];
        assert i in idx;
      } else {
        assert idx'[|idx|] == i;
      }
    }
  }

  /** The request body, as far as it parses. */
  datatype Body = Unparseable | ChatPayload(provider: Option<string>, transcript: Option<string>, messages: RawMessages)

  datatype Reply = Reply(status: nat, body: ReplyBody)
  datatype ReplyBody = ErrorBody(error: string) | MessageBody(message: Llm.ChatMessage)

  /** The call made, if any, and the answer. */
  datatype Outcome = Outcome(call: Option<Llm.CallOptions>, reply: Reply)

  const InvalidJson := "Invalid JSON payload."
  const BadProvider := "Unsupported or missing provider."
  const MissingTranscript := "A transcript is required to chat with your notes."
  const NoMessages := "At least one user message is required."
  const NotEndingWithQuestion := "Conversations must end with a user question."

  const SystemPrompt := "You are a thoughtful study companion. Answer every question using only the transcript provided in the context. If the transcript does not contain the answer, reply that you could not find it in the transcript. Keep responses concise, but explain reasoning when helpful."

  const ContextOpening := "Context: Use only the following lecture transcript as your knowledge base. If information is missing, say so. Transcript:\n\"\"\"\n"

  /** The first message the model sees: the transcript, fenced. */
  function ContextMessage(transcript: string): Llm.ChatMessage {
    Llm.ChatMessage(Llm.User, ContextOpening + transcript + "\n\"\"\"")
  }

  function MissingKeyMessage(provider: Llm.Provider): string {
    if provider == Llm.OpenAI then "OPENAI_API_KEY is not configured on the server."
    else "CLAUDE_API_KEY (or ANTHROPIC_API_KEY) is not configured on the server."
  }

  /** The options `callLLM` is given: the context message, then the
      conversation; temperature 0.2; 1200 tokens for Anthropic only. */
  function ChatCall(provider: Llm.Provider, apiKey: string, transcript: string, conversation: seq<Llm.ChatMessage>): (c: Llm.CallOptions)
    ensures c.messages == [ContextMessage(transcript)] + conversation
    ensures c.maxOutputTokens.Some? <==> provider == Llm.Anthropic
    ensures provider == Llm.Anthropic ==> c.maxOutputTokens == Some(1200)
    ensures c.provider == provider && c.apiKey == apiKey
    ensures c.system == SystemPrompt && c.temperature == Some(0.2)
  {
    Llm.CallOptions(provider, apiKey, SystemPrompt, [ContextMessage(transcript)] + conversation, Some(0.2),
      if provider == Llm.Anthropic then Some(1200) else None)
  }

  /** A parsed body with a known provider and a non-blank transcript. */
  predicate HasTranscript(body: Body) {
    body.ChatPayload? && Llm.ProviderFromString(body.provider).Some? &&
    body.transcript.Some? && Trim(body.transcript.value) != ""
  }

  /** The conversation is non-empty and its last message is the user's. */
  predicate EndsWithQuestion(conversation: seq<Llm.ChatMessage>) {
    conversation != [] && conversation[|conversation| - 1].role == Llm.User
  }

  /** The answer comes back as the assistant's message, an error's message
      as `error`. */
  function Answer(output: Result<string, string>): ReplyBody {
    match output
    case Ok(answer) => MessageBody(Llm.ChatMessage(Llm.Assistant, answer))
    case Err(message) => ErrorBody(message)
  }

  /** `POST`: bad JSON, provider, transcript, empty conversation, last
      message not from the user (all 400), key (500); then the call, whose
      text comes back as the assistant's message and whose error as 502. */
  function Post(body: Body, env: Llm.Env, endpoints: Llm.Endpoints): (r: Outcome)
    ensures body.Unparseable? ==> r == Outcome(None, Reply(400, ErrorBody(InvalidJson)))
    ensures body.ChatPayload? && Llm.ProviderFromString(body.provider).None? ==>
      r == Outcome(None, Reply(400, ErrorBody(BadProvider)))
    ensures body.ChatPayload? && Llm.ProviderFromString(body.provider).Some? &&
            (body.transcript.None? || Trim(body.transcript.value) == "") ==>
      r == Outcome(None, Reply(400, ErrorBody(MissingTranscript)))
    ensures HasTranscript(body) && SanitizeMessages(body.messages) == [] ==>
      r == Outcome(None, Reply(400, ErrorBody(NoMessages)))
    ensures HasTranscript(body) && SanitizeMessages(body.messages) != [] && !EndsWithQuestion(SanitizeMessages(body.messages)) ==>
      r == Outcome(None, Reply(400, ErrorBody(NotEndingWithQuestion)))
    ensures HasTranscript(body) && EndsWithQuestion(SanitizeMessages(body.messages)) &&
            Llm.ResolveApiKey(Llm.ProviderFromString(body.provider).value, env).None? ==>
      r == Outcome(None, Reply(500, ErrorBody(MissingKeyMessage(Llm.ProviderFromString(body.provider).value))))
    ensures r.call.Some? <==> r.reply.status == 200 || r.reply.status == 502
    ensures r.call.Some? ==> r.reply.body == Answer(Llm.CallLLM(r.call.value, endpoints))
    ensures HasTranscript(body) && EndsWithQuestion(SanitizeMessages(body.messages)) &&
            Llm.ResolveApiKey(Llm.ProviderFromString(body.provider).value, env).Some? ==>
      var provider := Llm.ProviderFromString(body.provider).value;
      var call := ChatCall(provider, Llm.ResolveApiKey(provider, env).value, Trim(body.transcript.value), SanitizeMessages(body.messages));
      var output := Llm.CallLLM(call, endpoints);
      && r.call == Some(call)
      && r.reply == Reply(if output.Ok? then 200 else 502, Answer(output))
    ensures r.call.None? ==> (r.reply.status == 400 || r.reply.status == 500) && r.reply.body.ErrorBody?
    ensures r.call.Some? ==> (body.ChatPayload?
                              && Llm.ProviderFromString(body.provider) == Some(r.call.value.provider)
                              && Llm.ResolveApiKey(r.call.value.provider, env) == Some(r.call.value.apiKey)
                              && body.transcript.Some? && Trim(body.transcript.value) != ""
                              && var conversation := SanitizeMessages(body.messages);
                                 EndsWithQuestion(conversation)
                                 && r.call.value == ChatCall(r.call.value.provider, r.call.value.apiKey, Trim(body.transcript.value), conversation))
    ensures r.reply.status == 200 ==> (r.reply.body.MessageBody? && r.reply.body.message.role == Llm.Assistant
                                       && r.reply.body.message.content != "")
  {
    if body.Unparseable? then Outcome(None, Reply(400, ErrorBody(InvalidJson)))
    else
      var provider := Llm.ProviderFromString(body.provider);
      var transcript := if body.transcript.Some? then Some(Trim(body.transcript.value)) else None;
      var conversation := SanitizeMessages(body.messages);
      if provider.None? then Outcome(None, Reply(400, ErrorBody(BadProvider)))
      else if transcript.None? || transcript.value == "" then Outcome(None, Reply(400, ErrorBody(MissingTranscript)))
      else if |conversation| == 0 then Outcome(None, Reply(400, ErrorBody(NoMessages)))
      else if !EndsWithQuestion(conversation) then Outcome(None, Reply(400, ErrorBody(NotEndingWithQuestion)))
      else
        var apiKey := Llm.ResolveApiKey(provider.value, env);
        if apiKey.None? then Outcome(None, Reply(500, ErrorBody(MissingKeyMessage(provider.value))))
        else
          var call := ChatCall(provider.value, apiKey.value, transcript.value, conversation);
          var output := Llm.CallLLM(call, endpoints);
          Outcome(Some(call), Reply(if output.Ok? then 200 else 502, Answer(output)))
  }

  /** Here the transcript is checked before the key, the reverse of the
      generate route: a missing transcript is a 400 whatever the key. */
  lemma TranscriptCheckedBeforeKey(provider: string, messages: RawMessages, env: Llm.Env, endpoints: Llm.Endpoints)
    requires Llm.ProviderFromString(Some(provider)).Some?
    ensures Post(ChatPayload(Some(provider), None, messages), env, endpoints).reply == Reply(400, ErrorBody(MissingTranscript))
  {
  }

  /** A conversation whose last valid message is the assistant's is refused
      before any key is looked at. */
  lemma MustEndWithQuestion(provider: string, transcript: string, entries: seq<RawEntry>, env: Llm.Env, endpoints: Llm.Endpoints)
    requires Llm.ProviderFromString(Some(provider)).Some? && Trim(transcript) != ""
    requires SanitizeAll(entries) != [] && SanitizeAll(entries)[|SanitizeAll(entries)| - 1].role == Llm.Assistant
    ensures Post(ChatPayload(Some(provider), Some(transcript), Entries(entries)), env, endpoints).reply
      == Reply(400, ErrorBody(NotEndingWithQuestion))
  {
    var conversation := SanitizeMessages(Entries(entries));
    assert conversation == SanitizeAll(entries);
    assert !EndsWithQuestion(conversation);
  }
}
