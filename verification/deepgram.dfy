/** The Deepgram transcription client (lib/providers/deepgram.ts): the
    request options built from defaults and typed overrides, the guards
    before the provider call, and the normalisation of the provider's
    nested response into a flat transcript plus metadata. The background
    worker (supabase/functions/transcription-worker/index.ts) carries a
    copy of the three extractors; both use the definitions here. */
module Deepgram {
  import opened Wrappers
  import opened Text

  // ----- Response shape -----

  datatype Sentence = Sentence(text: string)

  datatype Paragraph = Paragraph(sentences: seq<Sentence>)

  datatype SummaryEntry = SummaryEntry(summary: Option<string>)

  /** `paragraphs` is `alternative.paragraphs?.paragraphs`: the outer and the
      inner optional field behave the same, so they are one `Option` here. */
  datatype Alternative = Alternative(
    transcript: Option<string>,
    confidence: Option<real>,
    paragraphs: Option<seq<Paragraph>>,
    summaries: Option<seq<SummaryEntry>>)

  datatype Channel = Channel(alternatives: Option<seq<Alternative>>, detectedLanguage: Option<string>)

  datatype ResultsSummary = ResultsSummary(result: Option<string>, short: Option<string>)

  datatype Results = Results(channels: Option<seq<Channel>>, summary: Option<ResultsSummary>)

  /** One value of `metadata.model_info`, in the order `Object.values` lists them. */
  datatype ModelInfo = ModelInfo(name: Option<string>)

  datatype ResponseMetadata = ResponseMetadata(
    requestId: Option<string>,
    modelInfo: Option<seq<ModelInfo>>,
    models: Option<seq<string>>,
    duration: Option<real>)

  datatype Response = Response(metadata: Option<ResponseMetadata>, results: Results)

  /** JavaScript truthiness of an optional string. */
  predicate Truthy(s: Option<string>) {
    s.Some? && s.value != ""
  }

  // ----- Transcript -----

  function TrimmedSentences(sentences: seq<Sentence>): (r: seq<string>)
    ensures |r| == |sentences|
    ensures forall i :: 0 <= i < |r| ==> r[i] == Trim(sentences[i].text)
  {
    seq(|sentences|, i requires 0 <= i < |sentences| => Trim(sentences[i].text))
  }

  /** One paragraph: its trimmed non-empty sentences joined by one space.
      It is trimmed, and empty exactly when every sentence is blank. */
  function ParagraphText(p: Paragraph): (r: string)
    ensures IsTrimmed(r)
    ensures r == "" <==> forall i :: 0 <= i < |p.sentences| ==> IsBlank(p.sentences[i].text)
    ensures r == Join(NonEmpty(TrimmedSentences(p.sentences)), " ")
  {
    JoinNonEmptyTrimmed(TrimmedSentences(p.sentences), " ");
    Trim(Join(NonEmpty(TrimmedSentences(p.sentences)), " "))
  }

  function ParagraphTexts(ps: seq<Paragraph>): (r: seq<string>)
    ensures |r| == |ps|
    ensures forall i :: 0 <= i < |r| ==> r[i] == ParagraphText(ps[i])
  {
    seq(|ps|, i requires 0 <= i < |ps| => ParagraphText(ps[i]))
  }

  /** Every sentence of every paragraph is blank. */
  predicate AllSentencesBlank(ps: seq<Paragraph>) {
    forall i :: 0 <= i < |ps| ==> ParagraphText(ps[i]) == ""
  }

  /** The paragraphs' texts, non-empty ones only, separated by a blank line. */
  function JoinedParagraphs(ps: seq<Paragraph>): string {
    Trim(Join(NonEmpty(ParagraphTexts(ps)), "\n\n"))
  }

  /** The joined paragraphs are trimmed, need no final trim, and are empty
      exactly when every sentence is blank. */
  lemma JoinedParagraphsShape(ps: seq<Paragraph>)
    ensures IsTrimmed(JoinedParagraphs(ps))
    ensures JoinedParagraphs(ps) == Join(NonEmpty(ParagraphTexts(ps)), "\n\n")
    ensures JoinedParagraphs(ps) == "" <==> AllSentencesBlank(ps)
  {
    var texts := ParagraphTexts(ps);
    JoinNonEmptyTrimmed(texts, "\n\n");
    assert AllSentencesBlank(ps) <==> forall k :: 0 <= k < |texts| ==> texts[k] == "";
  }

  /** `formatParagraphs`: null when there are no paragraphs or when every
      sentence is blank; otherwise a non-empty trimmed text. */
  function FormatParagraphs(group: Option<seq<Paragraph>>): (r: Option<string>)
    ensures r.None? <==> group.None? || AllSentencesBlank(group.value)
    ensures r.Some? ==> r.value != "" && IsTrimmed(r.value)
    ensures r.Some? ==> r.value == Join(NonEmpty(ParagraphTexts(group.value)), "\n\n")
  {
    if group.None? || |group.value| == 0 then None
    else
      var formatted := JoinedParagraphs(group.value);
      JoinedParagraphsShape(group.value);
      if formatted == "" then None else Some(formatted)
  }

  /** `(formatParagraphs(alt.paragraphs) ?? alt.transcript ?? '').trim()`. */
  function ChooseTranscript(alt: Alternative): (r: string)
    ensures IsTrimmed(r)
    ensures FormatParagraphs(alt.paragraphs).Some? ==> r == FormatParagraphs(alt.paragraphs).value
    ensures FormatParagraphs(alt.paragraphs).None? ==> r == Trim(alt.transcript.GetOr(""))
  {
    var fromParagraphs := FormatParagraphs(alt.paragraphs);
    if fromParagraphs.Some? then TrimTrimmed(fromParagraphs.value); fromParagraphs.value
    else Trim(alt.transcript.GetOr(""))
  }

  /** `payload.results.channels?.[0]`. */
  function FirstChannel(results: Results): Option<Channel> {
    if results.channels.Some? && |results.channels.value| > 0 then Some(results.channels.value[0]) else None
  }

  /** `firstChannel?.alternatives?.[0]`. */
  function FirstAlternative(results: Results): Option<Alternative> {
    var ch := FirstChannel(results);
    if ch.Some? && ch.value.alternatives.Some? && |ch.value.alternatives.value| > 0
    then Some(ch.value.alternatives.value[0]) else None
  }

  // ----- Summary and model name -----

  /** `summaries.map(s => s.summary)`, a missing summary read as the
      empty string, which the filter drops alike. */
  function SummaryValues(entries: seq<SummaryEntry>): (r: seq<string>)
    ensures |r| == |entries|
    ensures forall i :: 0 <= i < |entries| ==> r[i] == entries[i].summary.GetOr("")
  {
    seq(|entries|, i requires 0 <= i < |entries| => entries[i].summary.GetOr(""))
  }

  /** `summaries.map(s => s.summary).filter(Boolean)`. */
  function SummaryTexts(entries: seq<SummaryEntry>): (r: seq<string>)
    ensures |r| <= |entries|
    ensures forall k :: 0 <= k < |r| ==> r[k] != ""
    ensures r == [] <==> forall i :: 0 <= i < |entries| ==> !Truthy(entries[i].summary)
    ensures r == NonEmpty(SummaryValues(entries))
    decreases |entries|
  {
    if |entries| == 0 then []
    else
      var rest := SummaryTexts(entries[1..]);
      assert forall i :: 1 <= i < |entries| ==> entries[i] == entries[1..][i - 1];
      assert SummaryValues(entries)[1..] == SummaryValues(entries[1..]);
      if Truthy(entries[0].summary) then [entries[0].summary.value] + rest else rest
  }

  /** The non-empty per-alternative summaries (none when there is no alternative). */
  function AlternativeSummaries(alt: Option<Alternative>): (r: seq<string>) {
    if alt.Some? && alt.value.summaries.Some? then SummaryTexts(alt.value.summaries.value) else []
  }

  /** `results.summary?.result || results.summary?.short || undefined`. */
  function ResponseSummary(results: Results): (r: Option<string>)
    ensures r.Some? ==> r.value != ""
    ensures r.None? <==> results.summary.None? || (!Truthy(results.summary.value.result) && !Truthy(results.summary.value.short))
    ensures results.summary.Some? && Truthy(results.summary.value.result) ==> r == results.summary.value.result
    ensures results.summary.Some? && !Truthy(results.summary.value.result) && Truthy(results.summary.value.short) ==>
      r == results.summary.value.short
  {
    if results.summary.None? then None
    else if Truthy(results.summary.value.result) then results.summary.value.result
    else if Truthy(results.summary.value.short) then results.summary.value.short
    else None
  }

  /** `extractSummary`: the per-alternative summaries joined by a blank line
      when there is at least one, else the response-level summary. Never an
      empty string. */
  function ExtractSummary(alt: Option<Alternative>, results: Results): (r: Option<string>)
    ensures r.Some? ==> r.value != ""
    ensures AlternativeSummaries(alt) != [] ==> r == Some(Join(AlternativeSummaries(alt), "\n\n"))
    ensures AlternativeSummaries(alt) == [] ==> r == ResponseSummary(results)
  {
    var parts := AlternativeSummaries(alt);
    if parts != [] then
      JoinStartsWithFirst(parts, "\n\n");
      Some(Join(parts, "\n\n"))
    else ResponseSummary(results)
  }

  /** The first `model_info` entry has a non-empty name. */
  predicate FirstInfoNamed(meta: ResponseMetadata) {
    meta.modelInfo.Some? && |meta.modelInfo.value| > 0 && Truthy(meta.modelInfo.value[0].name)
  }

  /** `extractModelName`: the name of the first `model_info` entry when it
      is a non-empty string, else `models[0]`, else undefined. */
  function ExtractModelName(meta: Option<ResponseMetadata>): (r: Option<string>)
    ensures meta.None? ==> r.None?
    ensures meta.Some? && FirstInfoNamed(meta.value) ==> r == meta.value.modelInfo.value[0].name
    ensures meta.Some? && !FirstInfoNamed(meta.value) && meta.value.models.Some? && |meta.value.models.value| > 0 ==>
      r == Some(meta.value.models.value[0])
    ensures meta.Some? && !FirstInfoNamed(meta.value) && (meta.value.models.None? || |meta.value.models.value| == 0) ==>
      r.None?
  {
    if meta.None? then None
    else if FirstInfoNamed(meta.value) then meta.value.modelInfo.value[0].name
    else if meta.value.models.Some? && |meta.value.models.value| > 0 then Some(meta.value.models.value[0])
    else None
  }

  /** Only the first `model_info` entry is ever consulted. */
  lemma ModelNameIgnoresLaterEntries(meta: ResponseMetadata, first: ModelInfo, rest1: seq<ModelInfo>, rest2: seq<ModelInfo>)
    ensures ExtractModelName(Some(meta.(modelInfo := Some([first] + rest1))))
         == ExtractModelName(Some(meta.(modelInfo := Some([first] + rest2))))
  {
  }

  /** A first entry with a name wins over the flat model list. */
  lemma ModelNamePrefersModelInfo(meta: ResponseMetadata)
    requires meta.modelInfo.Some? && |meta.modelInfo.value| > 0
    requires Truthy(meta.modelInfo.value[0].name)
    ensures ExtractModelName(Some(meta)) == meta.modelInfo.value[0].name
  {
  }

  // ----- Request options -----

  /** `summarize` accepts a flag or a mode name such as `v2`. */
  datatype SummarizeSetting = SummarizeFlag(on: bool) | SummarizeMode(mode: string)

  /** A field of a JavaScript object: missing, `null`, or a value. */
  datatype Field<T> = Missing | Null | Present(value: T)

  /** `TranscriptionOptions`, the typed overrides a caller may pass. */
  datatype Overrides = Overrides(
    model: Field<string>,
    language: Field<string>,
    summarize: Field<SummarizeSetting>,
    diarize: Field<bool>,
    paragraphs: Field<bool>,
    smartFormat: Field<bool>,
    punctuate: Field<bool>)

  const NoOverrides := Overrides(Missing, Missing, Missing, Missing, Missing, Missing, Missing)

  /** The provider schema; `None` in the last five fields is `null`, which an
      override present as `null` puts there. */
  datatype Options = Options(
    model: string,
    language: string,
    summarize: Option<SummarizeSetting>,
    smartFormat: Option<bool>,
    punctuate: Option<bool>,
    diarize: Option<bool>,
    paragraphs: Option<bool>)

  const DefaultOptions := Options("nova-3", "en", Some(SummarizeMode("v2")), Some(true), Some(true), Some(false), Some(true))

  const DefaultMimeType := "audio/mpeg"

  datatype RequestOptions = RequestOptions(options: Options, mimetype: string)

  datatype TranscriptionRequest = TranscriptionRequest(
    audio: seq<bv8>,
    mimeType: Option<string>,
    apiKey: Option<string>,
    options: Option<Overrides>)

  /** `typeof o === 'string' ? o : default`. */
  function StringOverride(default: string, o: Field<string>): string {
    if o.Present? then o.value else default
  }

  /** `o !== undefined ? o : default`: a `null` override counts as defined. */
  function DefinedOverride<T>(default: Option<T>, o: Field<T>): Option<T> {
    match o
    case Missing => default
    case Null => None
    case Present(v) => Some(v)
  }

  /** `buildOptions`: the defaults, each field replaced by its override
      (model and language only by a string, the rest whenever defined), and
      the request's MIME type or `audio/mpeg`. */
  function BuildOptions(request: TranscriptionRequest): (r: RequestOptions)
    ensures r.mimetype == request.mimeType.GetOr(DefaultMimeType)
    ensures request.options.None? || request.options.value == NoOverrides ==> r.options == DefaultOptions
    ensures var o := request.options.GetOr(NoOverrides);
      && r.options.model == (if o.model.Present? then o.model.value else "nova-3")
      && r.options.language == (if o.language.Present? then o.language.value else "en")
      && (o.summarize.Missing? ==> r.options.summarize == DefaultOptions.summarize)
      && (o.diarize.Missing? ==> r.options.diarize == DefaultOptions.diarize)
      && (o.paragraphs.Missing? ==> r.options.paragraphs == DefaultOptions.paragraphs)
      && (o.smartFormat.Missing? ==> r.options.smartFormat == DefaultOptions.smartFormat)
      && (o.punctuate.Missing? ==> r.options.punctuate == DefaultOptions.punctuate)
      && (o.summarize.Present? ==> r.options.summarize == Some(o.summarize.value))
      && (o.diarize.Present? ==> r.options.diarize == Some(o.diarize.value))
      && (o.paragraphs.Present? ==> r.options.paragraphs == Some(o.paragraphs.value))
      && (o.smartFormat.Present? ==> r.options.smartFormat == Some(o.smartFormat.value))
      && (o.punctuate.Present? ==> r.options.punctuate == Some(o.punctuate.value))
      && (o.summarize.Null? ==> r.options.summarize.None?)
      && (o.diarize.Null? ==> r.options.diarize.None?)
      && (o.paragraphs.Null? ==> r.options.paragraphs.None?)
      && (o.smartFormat.Null? ==> r.options.smartFormat.None?)
      && (o.punctuate.Null? ==> r.options.punctuate.None?)
  {
    var o := request.options.GetOr(NoOverrides);
    var options := Options(
      StringOverride(DefaultOptions.model, o.model),
      StringOverride(DefaultOptions.language, o.language),
      DefinedOverride(DefaultOptions.summarize, o.summarize),
      DefinedOverride(DefaultOptions.smartFormat, o.smartFormat),
      DefinedOverride(DefaultOptions.punctuate, o.punctuate),
      DefinedOverride(DefaultOptions.diarize, o.diarize),
      DefinedOverride(DefaultOptions.paragraphs, o.paragraphs));
    RequestOptions(options, request.mimeType.GetOr(DefaultMimeType))
  }

  /** A `null` model or language keeps the default, while a `null` flag or
      summarize setting is passed on as `null`. */
  lemma NullOverrideDiffersByField(request: TranscriptionRequest)
    requires request.options.Some?
    requires request.options.value.model.Null? && request.options.value.diarize.Null?
    ensures BuildOptions(request).options.model == "nova-3"
    ensures BuildOptions(request).options.diarize.None?
  {
  }

  // ----- The client call -----

  datatype SdkError = SdkError(message: Option<string>)

  /** What the SDK's `transcribeFile` resolves to. */
  datatype SdkReply = SdkReply(error: Option<SdkError>, result: Option<Response>)

  /** The one call made to the provider. */
  datatype SdkCall = SdkCall(apiKey: string, audio: seq<bv8>, options: RequestOptions)

  datatype TranscriptionMetadata = TranscriptionMetadata(
    model: Option<string>,
    duration: Option<real>,
    confidence: Option<real>,
    language: Option<string>,
    summary: Option<string>)

  datatype TranscriptionResult = TranscriptionResult(transcript: string, metadata: TranscriptionMetadata, rawResponse: Response)

  /** What `transcribeWithDeepgram` did: the provider call it made, if any,
      and what it returned or the message it threw. */
  datatype Attempt = Attempt(call: Option<SdkCall>, outcome: Result<TranscriptionResult, string>)

  const MissingKeyMessage := "Deepgram API key is not configured."
  const EmptyAudioMessage := "Audio buffer is empty; cannot transcribe."
  const NoResultMessage := "Deepgram did not return a result."
  const EmptyResultMessage := "Deepgram returned an empty transcription result."

  /** `request.apiKey ?? process.env.DEEPGRAM_API_KEY`. */
  function ResolveKey(request: TranscriptionRequest, env: map<string, string>): Option<string> {
    request.apiKey.OrElse(if "DEEPGRAM_API_KEY" in env then Some(env["DEEPGRAM_API_KEY"]) else None)
  }

  /** The metadata read off the response for its first alternative. */
  function ResultMetadata(payload: Response, channel: Option<Channel>, alt: Alternative): TranscriptionMetadata {
    TranscriptionMetadata(
      ExtractModelName(payload.metadata),
      if payload.metadata.Some? then payload.metadata.value.duration else None,
      alt.confidence,
      if channel.Some? then channel.value.detectedLanguage else None,
      ExtractSummary(Some(alt), payload.results))
  }

  /** `transcribeWithDeepgram`, with the environment and the provider's
      answer as parameters. A missing key or empty audio fails before any
      call; a made call always carries the resolved key and `BuildOptions`;
      an SDK error fails with its message; a missing alternative fails; an
      empty transcript is returned, not rejected. */
  function TranscribeWithDeepgram(request: TranscriptionRequest, env: map<string, string>, reply: SdkReply): (r: Attempt)
    ensures !Truthy(ResolveKey(request, env)) ==> r == Attempt(None, Err(MissingKeyMessage))
    ensures Truthy(ResolveKey(request, env)) && |request.audio| == 0 ==> r == Attempt(None, Err(EmptyAudioMessage))
    ensures r.call.Some? <==> Truthy(ResolveKey(request, env)) && |request.audio| > 0
    ensures r.call.Some? ==> r.call.value == SdkCall(ResolveKey(request, env).value, request.audio, BuildOptions(request))
    ensures r.call.Some? && reply.error.Some? ==> r.outcome == Err(reply.error.value.message.GetOr(NoResultMessage))
    ensures r.outcome.Ok? ==>
      (reply.error.None? && reply.result.Some?
       && FirstAlternative(reply.result.value.results).Some?
       && r.outcome.value.transcript == ChooseTranscript(FirstAlternative(reply.result.value.results).value))
    ensures r.call.Some? && reply.error.None? && reply.result.None? ==> r.outcome == Err(NoResultMessage)
    ensures r.call.Some? && reply.error.None? && reply.result.Some? && FirstAlternative(reply.result.value.results).None? ==>
      r.outcome == Err(EmptyResultMessage)
    ensures r.call.Some? && reply.error.None? && reply.result.Some? && FirstAlternative(reply.result.value.results).Some? ==>
      var payload := reply.result.value;
      var alt := FirstAlternative(payload.results).value;
      var channel := FirstChannel(payload.results);
      && r.outcome.Ok?
      && r.outcome.value.rawResponse == payload
      && r.outcome.value.metadata.model == ExtractModelName(payload.metadata)
      && r.outcome.value.metadata.duration == (if payload.metadata.Some? then payload.metadata.value.duration else None)
      && r.outcome.value.metadata.confidence == alt.confidence
      && r.outcome.value.metadata.language == (if channel.Some? then channel.value.detectedLanguage else None)
      && r.outcome.value.metadata.summary == ExtractSummary(Some(alt), payload.results)
  {
    var key := ResolveKey(request, env);
    if !Truthy(key) then Attempt(None, Err(MissingKeyMessage))
    else if |request.audio| == 0 then Attempt(None, Err(EmptyAudioMessage))
    else
      var call := SdkCall(key.value, request.audio, BuildOptions(request));
      if reply.error.Some? || reply.result.None? then
        Attempt(Some(call), Err(if reply.error.Some? then reply.error.value.message.GetOr(NoResultMessage) else NoResultMessage))
      else
        var payload := reply.result.value;
        var alt := FirstAlternative(payload.results);
        if alt.None? then Attempt(Some(call), Err(EmptyResultMessage))
        else
          var transcript := ChooseTranscript(alt.value);
          Attempt(Some(call), Ok(TranscriptionResult(transcript, ResultMetadata(payload, FirstChannel(payload.results), alt.value), payload)))
  }

  /** A first alternative with no text at all is still a success, with an
      empty transcript: unlike the background worker, the client does not
      reject it. */
  lemma EmptyTranscriptReturned(request: TranscriptionRequest, env: map<string, string>, reply: SdkReply)
    requires Truthy(ResolveKey(request, env)) && |request.audio| > 0
    requires reply.error.None? && reply.result.Some?
    requires var alt := FirstAlternative(reply.result.value.results);
             alt.Some? && alt.value.paragraphs.None? && (alt.value.transcript.None? || IsBlank(alt.value.transcript.value))
    ensures TranscribeWithDeepgram(request, env, reply).outcome.Ok?
    ensures TranscribeWithDeepgram(request, env, reply).outcome.value.transcript == ""
  {
    var alt := FirstAlternative(reply.result.value.results).value;
    assert FormatParagraphs(alt.paragraphs).None?;
    assert Trim(alt.transcript.GetOr("")) == "";
  }

  /** A response with only a flat transcript yields that transcript, trimmed. */
  lemma FlatTranscriptFallback(alt: Alternative, flat: string)
    requires alt.paragraphs.None? && alt.transcript == Some(flat)
    ensures ChooseTranscript(alt) == Trim(flat)
  {
  }
}
