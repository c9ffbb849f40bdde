/** The study-material endpoint (app/api/generate/route.ts): it checks the
    request in a fixed order, then asks the chosen language model to turn
    the transcript into notes, flashcards or a mind map. Its provider
    aliases and key resolution are the shared ones of module Llm; its
    Anthropic extraction differs from the shared client. */
module GenerateRoute {
  import opened Wrappers
  import opened Text
  import Llm

  datatype Mode = Notes | Flashcards | Mindmap

  /** `modeFromString`: a missing or empty name has no mode; else the name
      is lower-cased and matched against the aliases. */
  function ModeFromString(input: Option<string>): (r: Option<Mode>)
    ensures r == Some(Notes) <==> input.Some? && ToLower(input.value) == "notes"
    ensures r == Some(Flashcards) <==> input.Some? && ToLower(input.value) in {"flashcards", "flashcard"}
    ensures r == Some(Mindmap) <==> input.Some? && ToLower(input.value) in {"mindmap", "mind-map"}
  {
    if input.None? || input.value == "" then None
    else
      var normalized := ToLower(input.value);
      if normalized == "notes" then Some(Notes)
      else if normalized == "flashcards" || normalized == "flashcard" then Some(Flashcards)
      else if normalized == "mindmap" || normalized == "mind-map" then Some(Mindmap)
      else None
  }

  /** The mode name ignores case. */
  lemma ModeIgnoresCase(s: string)
    ensures ModeFromString(Some(s)) == ModeFromString(Some(ToLower(s)))
  {
    Llm.ToLowerIdempotent(s);
  }

  /** This route's `callAnthropic` reads only the first content block:
      `payload.content?.[0]?.text?.trim()`. */
  function FirstBlockContent(payload: Llm.AnthropicPayload): (r: Option<string>)
    ensures r.Some? ==> IsTrimmed(r.value)
    ensures r.Some? <==> payload.content.Some? && |payload.content.value| > 0 && payload.content.value[0].text.Some?
    ensures r.Some? ==> r.value == Trim(payload.content.value[0].text.value)
  {
    match payload.content
    case None => None
    case Some(blocks) =>
      if |blocks| == 0 || blocks[0].text.None? then None else Some(Trim(blocks[0].text.value))
  }

  /** This route's `callAnthropic` after its request. */
  function CallAnthropic(exchange: Llm.Exchange<Llm.AnthropicPayload>): (r: Result<string, string>)
    ensures r.Ok? ==> r.value != "" && IsTrimmed(r.value)
    ensures r.Ok? <==> (exchange.Answered? && exchange.ok && exchange.json.Ok? &&
                        FirstBlockContent(exchange.json.value).Some? && FirstBlockContent(exchange.json.value).value != "")
    ensures r.Ok? ==> r.value == FirstBlockContent(exchange.json.value).value
    ensures exchange.NetworkError? ==> r == Err(exchange.message)
    ensures exchange.Answered? && !exchange.ok ==> r == Err("Anthropic request failed: " + exchange.text)
    ensures exchange.Answered? && exchange.ok && exchange.json.Err? ==> r == Err(exchange.json.error)
    ensures exchange.Answered? && exchange.ok && exchange.json.Ok? && r.Err? ==> r == Err(Llm.AnthropicEmpty)
  {
    match exchange
    case NetworkError(m) => Err(m)
    case Answered(ok, text, json) =>
      if !ok then Err("Anthropic request failed: " + text)
      else if json.Err? then Err(json.error)
      else
        var content := FirstBlockContent(json.value);
        if content.None? || content.value == "" then Err(Llm.AnthropicEmpty) else Ok(content.value)
  }

  /** A reply whose first block has no text fails here, while the shared
      client takes the next block's text. */
  lemma FirstBlockOnly(text: string)
    requires text != "" && IsTrimmed(text)
    ensures var payload := Llm.AnthropicPayload(Some([Llm.AnthropicBlock(None), Llm.AnthropicBlock(Some(text))]));
            var exchange := Llm.Answered(true, "", Ok(payload));
            CallAnthropic(exchange) == Err(Llm.AnthropicEmpty) && Llm.CallAnthropic(exchange) == Ok(text)
  {
    var blocks := [Llm.AnthropicBlock(None), Llm.AnthropicBlock(Some(text))];
    var texts := Llm.BlockTexts(blocks);
    assert texts == ["", text];
    assert texts[1..] == [text];
    assert Join(texts, "\n") == "\n" + text;
    TrimAroundWhitespace(text, '\n');
    TrimTrimmed(text);
  }

  /** The request body, as far as it parses. */
  datatype Body = Unparseable | GeneratePayload(provider: Option<string>, transcript: Option<string>, mode: Option<string>)

  /** The call made to a language model. */
  datatype Call = Call(provider: Llm.Provider, apiKey: string, transcript: string, mode: Mode)

  datatype Reply = Reply(status: nat, body: ReplyBody)
  datatype ReplyBody = ErrorBody(error: string) | OutputBody(output: string)

  /** The call made, if any, and the answer. */
  datatype Outcome = Outcome(call: Option<Call>, reply: Reply)

  const InvalidJson := "Invalid JSON payload."
  const BadProvider := "Unsupported or missing provider."
  const BadMode := "Unsupported or missing generation mode."
  const MissingTranscript := "A transcript is required to generate study materials."

  function MissingKeyMessage(provider: Llm.Provider): string {
    if provider == Llm.OpenAI then "OPENAI_API_KEY is not configured on the server."
    else "CLAUDE_API_KEY (or ANTHROPIC_API_KEY) is not configured on the server."
  }

  /** The model's text, or the message of the error it threw. */
  function Output(provider: Llm.Provider, endpoints: Llm.Endpoints): (r: Result<string, string>)
    ensures provider == Llm.OpenAI ==> r == Llm.CallOpenAI(endpoints.openai)
    ensures provider == Llm.Anthropic ==> r == CallAnthropic(endpoints.anthropic)
  {
    if provider == Llm.OpenAI then Llm.CallOpenAI(endpoints.openai) else CallAnthropic(endpoints.anthropic)
  }

  /** The text goes out as `output`, an error's message as `error`. */
  function Answer(output: Result<string, string>): ReplyBody {
    match output
    case Ok(text) => OutputBody(text)
    case Err(message) => ErrorBody(message)
  }

  /** Every check before the call passes: the body parses, the provider and
      the mode are known, a key is configured and the transcript is not blank. */
  predicate ChecksPass(body: Body, env: Llm.Env) {
    && body.GeneratePayload?
    && Llm.ProviderFromString(body.provider).Some?
    && ModeFromString(body.mode).Some?
    && Llm.ResolveApiKey(Llm.ProviderFromString(body.provider).value, env).Some?
    && body.transcript.Some? && Trim(body.transcript.value) != ""
  }

  /** `POST`: bad JSON, provider, mode, key, transcript, in that order; then
      the call, whose text is answered with 200 and whose error with 502. */
  function Post(body: Body, env: Llm.Env, endpoints: Llm.Endpoints): (r: Outcome)
    ensures body.Unparseable? ==> r == Outcome(None, Reply(400, ErrorBody(InvalidJson)))
    ensures body.GeneratePayload? && Llm.ProviderFromString(body.provider).None? ==>
      r == Outcome(None, Reply(400, ErrorBody(BadProvider)))
    ensures body.GeneratePayload? && Llm.ProviderFromString(body.provider).Some? && ModeFromString(body.mode).None? ==>
      r == Outcome(None, Reply(400, ErrorBody(BadMode)))
    ensures body.GeneratePayload? && Llm.ProviderFromString(body.provider).Some? && ModeFromString(body.mode).Some? &&
            Llm.ResolveApiKey(Llm.ProviderFromString(body.provider).value, env).None? ==>
      r == Outcome(None, Reply(500, ErrorBody(MissingKeyMessage(Llm.ProviderFromString(body.provider).value))))
    ensures body.GeneratePayload? && Llm.ProviderFromString(body.provider).Some? && ModeFromString(body.mode).Some? &&
            Llm.ResolveApiKey(Llm.ProviderFromString(body.provider).value, env).Some? &&
            (body.transcript.None? || Trim(body.transcript.value) == "") ==>
      r == Outcome(None, Reply(400, ErrorBody(MissingTranscript)))
    ensures r.call.Some? <==> r.reply.status == 200 || r.reply.status == 502
    ensures r.call.Some? ==> r.reply.body == Answer(Output(r.call.value.provider, endpoints))
    ensures ChecksPass(body, env) ==>
      var provider := Llm.ProviderFromString(body.provider).value;
      var output := Output(provider, endpoints);
      && r.call == Some(Call(provider, Llm.ResolveApiKey(provider, env).value, Trim(body.transcript.value), ModeFromString(body.mode).value))
      && r.reply == Reply(if output.Ok? then 200 else 502, Answer(output))
    ensures r.call.Some? ==> (body.GeneratePayload?
                              && Llm.ProviderFromString(body.provider) == Some(r.call.value.provider)
                              && ModeFromString(body.mode) == Some(r.call.value.mode)
                              && Llm.ResolveApiKey(r.call.value.provider, env) == Some(r.call.value.apiKey)
                              && body.transcript.Some? && r.call.value.transcript == Trim(body.transcript.value)
                              && r.call.value.transcript != "")
    ensures r.reply.status == 200 ==> r.reply.body.OutputBody? && r.reply.body.output != "" && IsTrimmed(r.reply.body.output)
    ensures r.reply.status == 400 || r.reply.status == 500 || r.reply.status == 502 ==> r.reply.body.ErrorBody?
  {
    if body.Unparseable? then Outcome(None, Reply(400, ErrorBody(InvalidJson)))
    else
      var provider := Llm.ProviderFromString(body.provider);
      var mode := ModeFromString(body.mode);
      var transcript := if body.transcript.Some? then Some(Trim(body.transcript.value)) else None;
      if provider.None? then Outcome(None, Reply(400, ErrorBody(BadProvider)))
      else if mode.None? then Outcome(None, Reply(400, ErrorBody(BadMode)))
      else
        var apiKey := Llm.ResolveApiKey(provider.value, env);
        if apiKey.None? then Outcome(None, Reply(500, ErrorBody(MissingKeyMessage(provider.value))))
        else if transcript.None? || transcript.value == "" then Outcome(None, Reply(400, ErrorBody(MissingTranscript)))
        else
          var call := Call(provider.value, apiKey.value, transcript.value, mode.value);
          var output := Output(provider.value, endpoints);
          Outcome(Some(call), Reply(if output.Ok? then 200 else 502, Answer(output)))
  }

  /** The key is checked before the transcript: without a key the answer is
      500 even when the transcript is missing too. */
  lemma KeyCheckedBeforeTranscript(provider: string, mode: string, env: Llm.Env, endpoints: Llm.Endpoints)
    requires Llm.ProviderFromString(Some(provider)).Some? && ModeFromString(Some(mode)).Some?
    requires Llm.ResolveApiKey(Llm.ProviderFromString(Some(provider)).value, env).None?
    ensures Post(GeneratePayload(Some(provider), None, Some(mode)), env, endpoints).reply.status == 500
  {
  }

  /** A bad provider is reported before a bad mode. */
  lemma ProviderCheckedBeforeMode(provider: Option<string>, mode: Option<string>, transcript: Option<string>, env: Llm.Env, endpoints: Llm.Endpoints)
    requires Llm.ProviderFromString(provider).None?
    ensures Post(GeneratePayload(provider, transcript, mode), env, endpoints).reply == Reply(400, ErrorBody(BadProvider))
  {
  }
}
