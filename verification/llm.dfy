/** The shared language-model client (lib/providers/llm.ts): provider
    aliases, API-key resolution from the environment, the dispatch to the
    OpenAI or the Anthropic endpoint, and the extraction of the reply text. */
module Llm {
  import opened Wrappers
  import opened Text

  datatype Provider = OpenAI | Anthropic

  datatype Role = User | Assistant

  datatype ChatMessage = ChatMessage(role: Role, content: string)

  /** The aliases accepted for each provider, lower-case. */
  predicate IsOpenAIAlias(s: string) {
    s == "openai" || s == "chatgpt"
  }

  predicate IsAnthropicAlias(s: string) {
    s == "anthropic" || s == "claude"
  }

  /** `providerFromString`: a missing or empty name has no provider; else
      the name is lower-cased and matched against the aliases. */
  function ProviderFromString(input: Option<string>): (r: Option<Provider>)
    ensures r == Some(OpenAI) <==> input.Some? && IsOpenAIAlias(ToLower(input.value))
    ensures r == Some(Anthropic) <==> input.Some? && IsAnthropicAlias(ToLower(input.value))
  {
    if input.None? || input.value == "" then None
    else
      var normalized := ToLower(input.value);
      if IsOpenAIAlias(normalized) then Some(OpenAI)
      else if IsAnthropicAlias(normalized) then Some(Anthropic)
      else None
  }

  /** Lower-casing twice changes nothing more. */
  lemma ToLowerIdempotent(s: string)
    ensures ToLower(ToLower(s)) == ToLower(s)
  {
  }

  /** The match ignores case: a name and its lower-case form give the same provider. */
  lemma ProviderIgnoresCase(s: string)
    ensures ProviderFromString(Some(s)) == ProviderFromString(Some(ToLower(s)))
  {
    ToLowerIdempotent(s);
  }

  /** The process environment. */
  type Env = map<string, string>

  function Lookup(env: Env, name: string): Option<string> {
    if name in env then Some(env[name]) else None
  }

  /** `value?.trim()` followed by `value?.length ? value : null`. */
  function NonBlank(value: Option<string>): (r: Option<string>)
    ensures r.Some? ==> value.Some? && r.value == Trim(value.value) && r.value != ""
    ensures r.None? <==> value.None? || IsBlank(value.value)
  {
    if value.None? then None
    else
      var trimmed := Trim(value.value);
      if trimmed == "" then None else Some(trimmed)
  }

  /** `resolveApiKey`: `OPENAI_API_KEY` for OpenAI; for Anthropic
      `CLAUDE_API_KEY ?? ANTHROPIC_API_KEY`; trimmed, and missing when blank. */
  function ResolveApiKey(provider: Provider, env: Env): (r: Option<string>)
    ensures r.Some? ==> r.value != "" && IsTrimmed(r.value)
    ensures provider == OpenAI ==> r == NonBlank(Lookup(env, "OPENAI_API_KEY"))
    ensures provider == Anthropic && "CLAUDE_API_KEY" in env ==> r == NonBlank(Some(env["CLAUDE_API_KEY"]))
    ensures provider == Anthropic && "CLAUDE_API_KEY" !in env ==> r == NonBlank(Lookup(env, "ANTHROPIC_API_KEY"))
  {
    if provider == OpenAI then NonBlank(Lookup(env, "OPENAI_API_KEY"))
    else NonBlank(Lookup(env, "CLAUDE_API_KEY").OrElse(Lookup(env, "ANTHROPIC_API_KEY")))
  }

  /** A defined but blank `CLAUDE_API_KEY` hides `ANTHROPIC_API_KEY`: `??`
      only skips a missing value, so no key results. */
  lemma BlankClaudeKeyHidesAnthropicKey(env: Env)
    requires "CLAUDE_API_KEY" in env && IsBlank(env["CLAUDE_API_KEY"])
    ensures ResolveApiKey(Anthropic, env).None?
  {
  }

  // ----- Replies -----

  datatype OpenAIMessage = OpenAIMessage(content: Option<string>)
  datatype OpenAIChoice = OpenAIChoice(message: Option<OpenAIMessage>)
  datatype OpenAIPayload = OpenAIPayload(choices: Option<seq<OpenAIChoice>>)

  datatype AnthropicBlock = AnthropicBlock(text: Option<string>)
  datatype AnthropicPayload = AnthropicPayload(content: Option<seq<AnthropicBlock>>)

  /** What one endpoint does with a request: the fetch rejects, or it
      answers with a status flag, a body text and a body that parses as
      JSON or fails to parse (with the parser's message). */
  datatype Exchange<P> = NetworkError(message: string) | Answered(ok: bool, text: string, json: Result<P, string>)

  /** `payload.choices?.[0]?.message?.content?.trim()`. */
  function OpenAIContent(payload: OpenAIPayload): (r: Option<string>)
    ensures r.Some? ==> IsTrimmed(r.value)
    ensures r.Some? <==> payload.choices.Some? && |payload.choices.value| > 0 &&
                         payload.choices.value[0].message.Some? && payload.choices.value[0].message.value.content.Some?
    ensures r.Some? ==> r.value == Trim(payload.choices.value[0].message.value.content.value)
  {
    match payload.choices
    case None => None
    case Some(choices) =>
      if |choices| == 0 || choices[0].message.None? || choices[0].message.value.content.None? then None
      else Some(Trim(choices[0].message.value.content.value))
  }

  /** `payload.content?.map(e => e.text ?? '').join('\n').trim()`. */
  function AnthropicContent(payload: AnthropicPayload): (r: Option<string>)
    ensures r.Some? ==> IsTrimmed(r.value)
    ensures r.None? <==> payload.content.None?
    ensures r.Some? ==> r.value == Trim(Join(BlockTexts(payload.content.value), "\n"))
  {
    match payload.content
    case None => None
    case Some(blocks) => Some(Trim(Join(BlockTexts(blocks), "\n")))
  }

  /** Each block's text, the empty string for a block without one. */
  function BlockTexts(blocks: seq<AnthropicBlock>): (r: seq<string>)
    ensures |r| == |blocks|
    ensures forall k :: 0 <= k < |blocks| ==> r[k] == blocks[k].text.GetOr("")
  {
    seq(|blocks|, k requires 0 <= k < |blocks| => blocks[k].text.GetOr(""))
  }

  const OpenAIEmpty := "OpenAI returned an empty response."
  const AnthropicEmpty := "Anthropic returned an empty response."

  /** `callOpenAI` after its request: the thrown message or the reply text. */
  function CallOpenAI(exchange: Exchange<OpenAIPayload>): (r: Result<string, string>)
    ensures r.Ok? ==> r.value != "" && IsTrimmed(r.value)
    ensures r.Ok? <==> (exchange.Answered? && exchange.ok && exchange.json.Ok? &&
                        OpenAIContent(exchange.json.value).Some? && OpenAIContent(exchange.json.value).value != "")
    ensures r.Ok? ==> r.value == OpenAIContent(exchange.json.value).value
    ensures exchange.NetworkError? ==> r == Err(exchange.message)
    ensures exchange.Answered? && !exchange.ok ==> r == Err("OpenAI request failed: " + exchange.text)
    ensures exchange.Answered? && exchange.ok && exchange.json.Err? ==> r == Err(exchange.json.error)
    ensures exchange.Answered? && exchange.ok && exchange.json.Ok? && r.Err? ==> r == Err(OpenAIEmpty)
  {
    match exchange
    case NetworkError(m) => Err(m)
    case Answered(ok, text, json) =>
      if !ok then Err("OpenAI request failed: " + text)
      else if json.Err? then Err(json.error)
      else
        var content := OpenAIContent(json.value);
        if content.None? || content.value == "" then Err(OpenAIEmpty) else Ok(content.value)
  }

  /** `callAnthropic` after its request: the thrown message or the reply text. */
  function CallAnthropic(exchange: Exchange<AnthropicPayload>): (r: Result<string, string>)
    ensures r.Ok? ==> r.value != "" && IsTrimmed(r.value)
    ensures r.Ok? <==> (exchange.Answered? && exchange.ok && exchange.json.Ok? &&
                        AnthropicContent(exchange.json.value).Some? && AnthropicContent(exchange.json.value).value != "")
    ensures r.Ok? ==> r.value == AnthropicContent(exchange.json.value).value
    ensures exchange.NetworkError? ==> r == Err(exchange.message)
    ensures exchange.Answered? && !exchange.ok ==> r == Err("Anthropic request failed: " + exchange.text)
    ensures exchange.Answered? && exchange.ok && exchange.json.Err? ==> r == Err(exchange.json.error)
    ensures exchange.Answered? && exchange.ok && exchange.json.Ok? && r.Err? ==> r == Err(AnthropicEmpty)
  {
    match exchange
    case NetworkError(m) => Err(m)
    case Answered(ok, text, json) =>
      if !ok then Err("Anthropic request failed: " + text)
      else if json.Err? then Err(json.error)
      else
        var content := AnthropicContent(json.value);
        if content.None? || content.value == "" then Err(AnthropicEmpty) else Ok(content.value)
  }

  /** Every block takes part in the Anthropic reply, in order, one per
      line, a block without text as an empty line: once the first text
      starts and the last one ends with a non-space, the final trim
      removes nothing. */
  lemma AnthropicJoinsAllBlocks(blocks: seq<AnthropicBlock>)
    requires |blocks| >= 1
    requires blocks[0].text.Some? && blocks[0].text.value != "" && !IsWhitespace(blocks[0].text.value[0])
    requires var last := blocks[|blocks| - 1].text;
             last.Some? && last.value != "" && !IsWhitespace(last.value[|last.value| - 1])
    ensures AnthropicContent(AnthropicPayload(Some(blocks))) == Some(Join(BlockTexts(blocks), "\n"))
  {
    var texts := BlockTexts(blocks);
    var joined := Join(texts, "\n");
    JoinStartsWithFirst(texts, "\n");
    JoinEndsWithLast(texts, "\n");
    var last := texts[|texts| - 1];
    assert joined[0] == joined[..|texts[0]|][0] == texts[0][0];
    assert joined[|joined| - 1] == joined[|joined| - |last|..][|last| - 1] == last[|last| - 1];
    TrimTrimmed(joined);
  }

  // ----- Dispatch -----

  /** `LLMCallOptions`. */
  datatype CallOptions = CallOptions(
    provider: Provider,
    apiKey: string,
    system: string,
    messages: seq<ChatMessage>,
    temperature: Option<real>,
    maxOutputTokens: Option<nat>)

  function RoleName(role: Role): string {
    match role
    case User => "user"
    case Assistant => "assistant"
  }

  /** The request that goes over the wire: OpenAI gets the system prompt as
      a first `system` message and no token limit; Anthropic gets it as a
      separate field and a token limit. */
  datatype WireRequest =
    | OpenAIRequest(apiKey: string, temperature: real, messages: seq<(string, string)>)
    | AnthropicRequest(apiKey: string, maxTokens: nat, temperature: real, system: string, messages: seq<(string, string)>)

  function WireMessages(messages: seq<ChatMessage>): (r: seq<(string, string)>)
    ensures |r| == |messages|
    ensures forall k :: 0 <= k < |messages| ==> r[k] == (RoleName(messages[k].role), messages[k].content)
  {
    seq(|messages|, k requires 0 <= k < |messages| => (RoleName(messages[k].role), messages[k].content))
  }

  /** The request `callLLM` sends: OpenAI for OpenAI, Anthropic for every
      other provider, with temperature 0.3 and 1500 tokens by default. */
  function Request(options: CallOptions): (r: WireRequest)
    ensures r.OpenAIRequest? <==> options.provider == OpenAI
    ensures r.apiKey == options.apiKey && r.temperature == options.temperature.GetOr(0.3)
    ensures r.OpenAIRequest? ==> |r.messages| == |options.messages| + 1 && r.messages[0] == ("system", options.system)
    ensures r.OpenAIRequest? ==> r.messages[1..] == WireMessages(options.messages)
    ensures r.AnthropicRequest? ==> r.messages == WireMessages(options.messages) && r.system == options.system
    ensures r.AnthropicRequest? ==> r.maxTokens == options.maxOutputTokens.GetOr(1500)
  {
    var temperature := options.temperature.GetOr(0.3);
    if options.provider == OpenAI then
      OpenAIRequest(options.apiKey, temperature, [("system", options.system)] + WireMessages(options.messages))
    else
      AnthropicRequest(options.apiKey, options.maxOutputTokens.GetOr(1500), temperature, options.system, WireMessages(options.messages))
  }

  /** What each endpoint would answer. */
  datatype Endpoints = Endpoints(openai: Exchange<OpenAIPayload>, anthropic: Exchange<AnthropicPayload>)

  /** `callLLM`: the reply text, or the message of the error thrown. */
  function CallLLM(options: CallOptions, endpoints: Endpoints): (r: Result<string, string>)
    ensures r.Ok? ==> r.value != "" && IsTrimmed(r.value)
    ensures options.provider == OpenAI ==> r == CallOpenAI(endpoints.openai)
    ensures options.provider == Anthropic ==> r == CallAnthropic(endpoints.anthropic)
  {
    if options.provider == OpenAI then CallOpenAI(endpoints.openai) else CallAnthropic(endpoints.anthropic)
  }

  /** Only the chosen endpoint matters. */
  lemma OnlyChosenEndpointMatters(options: CallOptions, e1: Endpoints, e2: Endpoints)
    requires options.provider == OpenAI ==> e1.openai == e2.openai
    requires options.provider == Anthropic ==> e1.anthropic == e2.anthropic
    ensures CallLLM(options, e1) == CallLLM(options, e2)
  {
  }
}
