# Lecture notes app — verified model of its core logic

This project models the decision-making core of a lecture-notes web application in Dafny. Users upload or record a lecture. A transcription provider (Deepgram) turns the audio into text, directly or through a background job queue. A language model (OpenAI or Anthropic) then turns the transcript into notes, flashcards or a mind map, or answers questions about it.

The model covers:

- **The transcription job queue.**
  - `TranscriptionJobs` models the enqueue endpoint and the background worker.
  - Its class `Store` holds the `transcription_jobs` and `lectures` tables as maps.
  - The class has one method per database operation:
    - enqueue;
    - claim with a compare-and-set;
    - lecture update and metadata merge;
    - mark completed or failed;
    - the batch loop.
- **Deepgram response handling** (`Deepgram`): the option builder, the paragraph formatter, the summary and model-name fallback chains, and the guards of the client call.
- **The two flashcard text dialects**, each parsed by a loop proved equal to a fold over the lines, plus wrap-around deck navigation.
  - `FlashcardDeck`: multi-line, case-insensitive markers.
  - `FlashcardsView`: single-line, case-sensitive markers.
- **The language-model endpoints.**
  - `Llm`: provider aliases, API-key precedence, dispatch and reply extraction.
  - `GenerateRoute` and `ChatRoute`: the `POST` validation chains.
  - `ChatRoute` also sanitises submitted messages.
  - `TranscriptionProviders`: the registry lookup.
- **Page helpers.**
  - `TranscribePage`: the generations upsert and the chat append and rollback. Its class `Page` holds the React state.
  - `Dashboard`: duration and date labels, the greeting, the count line and delete-by-id.
  - `NotesPage`: the search and type filter and the button counts.
  - `SettingsView`: the title-save guard, the delete ordering and the duration label.

Shared helpers:

- `Text` models JavaScript string semantics: `trim` and its whitespace set, ASCII `toLowerCase`, `split`, `join`, `includes`, `String(n)`, `padStart`, and the truncating `%`.
- `Wrappers` holds `Option`, `Result` and the shape of a caught exception.

Everything outside the program is a parameter: database answers, storage, HTTP replies, environment variables, confirmation dialogs, other workers' claims and clocks.

## Model

| member | source | states |
|---|---|---|
| TranscriptionJobs.OldestPendingExists | supabase/functions/transcription-worker/index.ts:62-68 | a table with a pending job has a pending job that no pending job predates |
| TranscriptionJobs.OldestIn | supabase/functions/transcription-worker/index.ts:66-67 | any non-empty set of jobs has a member with the earliest `created_at` |
| TranscriptionJobs.Claimed | supabase/functions/transcription-worker/index.ts:81-86 | a claimed row is processing, has one more attempt, no error, a start time, and is otherwise unchanged |
| TranscriptionJobs.ClaimCas | supabase/functions/transcription-worker/index.ts:79-95 | the conditional update succeeds iff the row is still pending; a failed claim leaves the table unchanged |
| TranscriptionJobs.LaterClaimsLose | supabase/functions/transcription-worker/index.ts:87-95 | once a row is not pending, any number of further claims win nothing and change nothing |
| TranscriptionJobs.ExactlyOneClaimWins | supabase/functions/transcription-worker/index.ts:79-95 | of any number of claims of one pending row, exactly one succeeds and the row gains exactly one attempt |
| TranscriptionJobs.AttemptsOnlyByClaimsStep | supabase/functions/transcription-worker/index.ts:84 | "attempts change only through claims of pending rows" is preserved by each further claim step |
| TranscriptionJobs.ExistingEntries | supabase/functions/transcription-worker/index.ts:206-207 | spreading the stored metadata gives an object's entries, an array's elements under their indices, and nothing otherwise |
| TranscriptionJobs.IndexKeysDistinct | supabase/functions/transcription-worker/index.ts:209-210 | distinct array indices spread to distinct keys |
| TranscriptionJobs.ResponseMetadata | supabase/functions/transcription-worker/index.ts:211-216 | the response contributes only the six reconciled keys, and always `deepgram_request_id` |
| TranscriptionJobs.MergeMetadata | supabase/functions/transcription-worker/index.ts:209-217 | keys outside the six keep their old values; each of the six is exactly what the response defines |
| TranscriptionJobs.RoundHalfUp | supabase/functions/transcription-worker/index.ts:223 | `Math.round` gives an integer within one half of its argument |
| TranscriptionJobs.LectureDuration | supabase/functions/transcription-worker/index.ts:223 | the duration is null iff the provider duration is absent or 0, else the rounded value |
| TranscriptionJobs.WorkerTranscript | supabase/functions/transcription-worker/index.ts:186-198 | fails iff there is no first alternative or the chosen transcript is empty; else gives the trimmed, non-empty paragraph-or-flat text |
| TranscriptionJobs.WorkerStricterThanClient | supabase/functions/transcription-worker/index.ts:196-198 | an empty transcript that the in-process client returns is rejected by the worker |
| TranscriptionJobs.Transcribed | supabase/functions/transcription-worker/index.ts:219-228 | the updated lecture has the transcript, the completed status, no error, the rounded duration and the merged metadata, and keeps its other fields |
| TranscriptionJobs.CompletedRow | supabase/functions/transcription-worker/index.ts:235-244 | the completed job row has no error, keeps its attempts, and its metadata keys are the claimed row's plus the extra ones |
| TranscriptionJobs.FailedRow | supabase/functions/transcription-worker/index.ts:252-261 | the failed job row carries the message and keeps its attempts |
| TranscriptionJobs.ReportsSurviveClaims | supabase/functions/transcription-worker/index.ts:283-300 | entries already reported stay accurate when later iterations only claim other rows |
| TranscriptionJobs.FetchTranscription | supabase/functions/transcription-worker/index.ts:150-183 | a failed download or a non-2xx reply throws its message; success means a download, a 2xx status and a parsed body |
| TranscriptionJobs.DeleteStale | app/api/transcriptions/route.ts:46-50 | exactly the lecture's pending and failed jobs are deleted; every other row is kept as it was |
| TranscriptionJobs.NewJob | app/api/transcriptions/route.ts:52-63 | the inserted job is pending, with no error, the session user, the audio path and the MIME type |
| TranscriptionJobs.ParseEnqueue | app/api/transcriptions/route.ts:14-22 | an unreadable body gives 500; a blank lecture id or audio path gives 400; otherwise the fields are trimmed |
| TranscriptionJobs.OneOpenJobAfterEnqueue | app/api/transcriptions/route.ts:46-63 | after delete and insert, the new job is the lecture's only pending or failed job |
| TranscriptionJobs.EntryJson | supabase/functions/transcription-worker/index.ts:281-298 | each reported entry has only `jobId` (the job id), `status` (its status name) and, exactly when it failed, `error` (the message) |
| TranscriptionJobs.Render | supabase/functions/transcription-worker/index.ts:273-319 | 405 with "Method not allowed" for other methods, 500 with the selection error's message, else 200; an empty run says "No pending jobs."; a batch reports `processed` equal to its number of entries and `jobs` holding each entry's object in order |
| TranscriptionJobs.ClampLimit | supabase/functions/transcription-worker/index.ts:279-280 | the limit lies in [1,3]; it is 1 when missing or not finite, and a value already in range is kept |
| TranscriptionJobs.Iterations | supabase/functions/transcription-worker/index.ts:283 | the `for` loop runs the least whole number of times not below the limit |
| TranscriptionJobs.BatchBounds | supabase/functions/transcription-worker/index.ts:279-287 | one invocation runs between one and three iterations |
| TranscriptionJobs.Store.constructor | app/api/transcriptions/route.ts:43 | an empty job table beside the given lectures |
| TranscriptionJobs.Store.Enqueue | app/api/transcriptions/route.ts:13-82 | checks run in order (400, 401, 404) and none writes; on a failed insert only stale jobs are deleted; on success the new job is added and the lecture is set pending with no error |
| TranscriptionJobs.Store.ClaimNext | supabase/functions/transcription-worker/index.ts:61-98 | a select error is thrown; no pending job, a lost race or a failed update give null; a win claims the oldest pending row; only claims change the table |
| TranscriptionJobs.Store.UpdateLectureWithTranscript | supabase/functions/transcription-worker/index.ts:185-233 | without a usable transcript it throws and writes nothing; a write error is thrown; otherwise the lecture becomes `Transcribed` |
| TranscriptionJobs.Store.MarkJobCompleted | supabase/functions/transcription-worker/index.ts:235-250 | a write error is thrown and nothing changes; otherwise only the job's row changes, to `CompletedRow` (the claimed metadata with `extra` over it); attempts are untouched |
| TranscriptionJobs.Store.MarkJobFailed | supabase/functions/transcription-worker/index.ts:252-270 | the job row becomes `FailedRow` when its write goes through and the lecture gets the failed status and the message when its write goes through; nothing else changes |
| TranscriptionJobs.Store.TranscribeLecture | supabase/functions/transcription-worker/index.ts:289-291 | succeeds iff the download, the transcription and the lecture write succeed, and then hands on the provider response; each failure carries its own error (download or request, unusable transcript, write); the lecture table becomes exactly `LecturesTranscribed` on success and is unchanged otherwise; jobs are untouched |
| TranscriptionJobs.Store.Reconcile | supabase/functions/transcription-worker/index.ts:289-294 | succeeds iff download, transcription and both writes succeed; the lecture table is `LecturesTranscribed` once the lecture write went through; the job table is `JobsCompleted` (the completed row with the provider's request id, or `null`) on success and unchanged otherwise |
| TranscriptionJobs.LecturesTranscribed | supabase/functions/transcription-worker/index.ts:200-232 | only the given lecture may change and no lecture is added or removed; that lecture, when present, is completed and holds the worker transcript |
| TranscriptionJobs.JobsCompleted | supabase/functions/transcription-worker/index.ts:235-250 | only the job's row changes; it is completed without error; attempts are untouched |
| TranscriptionJobs.Store.ProcessJob | supabase/functions/transcription-worker/index.ts:289-299 | the entry is completed iff everything succeeded, and then both tables are as `Reconcile` leaves them; otherwise the job row is `FailedRow` with the entry's message when that write goes through, and the lecture table is the one after the attempt with the failed status and message over it |
| TranscriptionJobs.Store.RunRound | supabase/functions/transcription-worker/index.ts:284-299 | one iteration: a select error or a null claim leaves the lectures unchanged; a reported job was pending before and now has one more attempt; its entry is completed iff the round's processing succeeds; the lecture table is the transcribed one on success and the failed-marked one (over the transcribed one when that write went through) on failure, so only the job's lecture changes; the job table changes only by claims |
| TranscriptionJobs.Store.Serve | supabase/functions/transcription-worker/index.ts:272-320 | 405 without writes; at most `Iterations` (≤ 3) distinct jobs; the loop stops early only at a null claim; entry k is completed iff round k's processing succeeded, and a failed entry's job is not completed; in a batch only the lectures of reported jobs change, with no claim none change, and after a select error only lectures of claimed jobs changed; attempts change only through claims |
| TranscriptionJobs.LecturesFailed | supabase/functions/transcription-worker/index.ts:252-270 | only the given lecture may change, and no lecture is added or removed |
| TranscriptionJobs.ReportedStep | supabase/functions/transcription-worker/index.ts:283-299 | a processed round extends the batch loop's facts by its entry: well reported, a new job, completed iff the round succeeded, only its lecture changed |
| TranscriptionJobs.ReportedLecturesClaimed | supabase/functions/transcription-worker/index.ts:283-299 | the lectures of reported jobs are lectures of jobs claimed in the run |
| Deepgram.TrimmedSentences | lib/providers/deepgram.ts:29-30 | each sentence text, trimmed, in order |
| Deepgram.ParagraphText | lib/providers/deepgram.ts:28-34 | a paragraph's text is its trimmed non-empty sentences joined by one space, with nothing left for the final trim to remove; empty iff every sentence is blank |
| Deepgram.ParagraphTexts | lib/providers/deepgram.ts:27-34 | one text per paragraph, in order |
| Deepgram.JoinedParagraphsShape | lib/providers/deepgram.ts:27-37 | the joined text is the non-empty paragraph texts joined by a blank line, already trimmed, and empty iff every sentence of every paragraph is blank |
| Deepgram.FormatParagraphs | lib/providers/deepgram.ts:22-40 | null iff there are no paragraphs or all sentences are blank; else the non-empty paragraph texts joined by a blank line, non-empty and trimmed |
| Deepgram.ChooseTranscript | lib/providers/deepgram.ts:123-124 | the paragraph text if there is one, else the trimmed flat transcript or ""; always trimmed |
| Deepgram.SummaryValues | lib/providers/deepgram.ts:46 | one summary per entry, in order, a missing one read as "" |
| Deepgram.SummaryTexts | lib/providers/deepgram.ts:46-48 | the entries' summaries with the missing and empty ones dropped, in order; empty iff none is truthy |
| Deepgram.ResponseSummary | lib/providers/deepgram.ts:55 | a truthy `result` is returned; else a truthy `short`; else undefined; never "" |
| Deepgram.ExtractSummary | lib/providers/deepgram.ts:42-56 | the alternative's summaries joined by a blank line when there are any, else the response-level fallback; never "" |
| Deepgram.ExtractModelName | lib/providers/deepgram.ts:58-73 | no metadata gives undefined; a named first `model_info` entry gives its name; otherwise `models[0]` when there are models, else undefined |
| Deepgram.ModelNameIgnoresLaterEntries | lib/providers/deepgram.ts:59-66 | later `model_info` entries never affect the result |
| Deepgram.ModelNamePrefersModelInfo | lib/providers/deepgram.ts:61-65 | a named first entry wins over `models` |
| Deepgram.BuildOptions | lib/providers/deepgram.ts:75-91 | defaults (`nova-3`, `en`, `v2`, flags) unless overridden; model and language only by strings; other fields by any defined value, including null; MIME type defaults to `audio/mpeg` |
| Deepgram.NullOverrideDiffersByField | lib/providers/deepgram.ts:80-83 | a null model keeps the default, while a null flag is passed on as null |
| Deepgram.TranscribeWithDeepgram | lib/providers/deepgram.ts:93-139 | missing key, then empty audio, fail before any call; a call carries the key and the built options; an SDK error throws its message; no result gives the no-result message and no alternative the empty-result message; otherwise the outcome is Ok with `ChooseTranscript` of the first alternative, the raw response, and the model name, duration, confidence, detected language and summary taken from it |
| Deepgram.EmptyTranscriptReturned | lib/providers/deepgram.ts:116-124 | a first alternative with no paragraphs and a missing or blank transcript is returned as a success with the empty transcript |
| Deepgram.FlatTranscriptFallback | lib/providers/deepgram.ts:124 | without paragraphs, the transcript is the flat one, trimmed |
| FlashcardDeck.TrimLines | components/FlashcardDeck.tsx:16-20 | every kept line is trimmed and non-empty; none is kept iff every line is blank |
| FlashcardDeck.TrimmedLines | components/FlashcardDeck.tsx:18 | one entry per line, each that line trimmed |
| FlashcardDeck.TrimLinesSingle | components/FlashcardDeck.tsx:16-20 | one line gives nothing when blank and itself trimmed otherwise |
| FlashcardDeck.TrimLinesConcat | components/FlashcardDeck.tsx:16-20 | lines are kept independently and in order: the result for two blocks of lines is the two results joined |
| FlashcardDeck.TrimmedLinesConcat | components/FlashcardDeck.tsx:18 | trimming line by line works block by block and keeps the order |
| FlashcardDeck.DropNewlines | components/FlashcardDeck.tsx:25 | dropping newlines never lengthens the text |
| FlashcardDeck.CollapseWithoutRuns | components/FlashcardDeck.tsx:25 | text without three consecutive newlines is left unchanged |
| FlashcardDeck.CollapseLongRun | components/FlashcardDeck.tsx:25 | a maximal run of three or more newlines becomes exactly two |
| FlashcardDeck.DropWholeRun | components/FlashcardDeck.tsx:25 | the greedy match consumes the whole run of newlines |
| FlashcardDeck.CollapseShortRun | components/FlashcardDeck.tsx:25 | a maximal run of one or two newlines is kept as it is |
| FlashcardDeck.CollapseNewlineFree | components/FlashcardDeck.tsx:25 | text between runs passes through unchanged |
| FlashcardDeck.JoinHasNoBlankLine | components/FlashcardDeck.tsx:24 | non-empty single lines joined by `\n` have no blank line |
| FlashcardDeck.FormatBlockOfLines | components/FlashcardDeck.tsx:22-26 | a block is its trimmed non-empty lines joined by `\n`; it is trimmed and empty iff every line is blank |
| FlashcardDeck.MatchMarker | components/FlashcardDeck.tsx:50-58 | a match starts with the marker letter in either case and captures trimmed text |
| FlashcardDeck.MarkerForms | components/FlashcardDeck.tsx:50-58 | `q:`, `Q-`, `a:`, `A-` followed by text all match and capture that text |
| FlashcardDeck.OtherLetterIsNoMarker | components/FlashcardDeck.tsx:50-58 | a line starting with another letter is not a marker |
| FlashcardDeck.PushCurrent | components/FlashcardDeck.tsx:33-42 | closes the working block; appends a card with id n+1 only if both parts are non-empty |
| FlashcardDeck.Step | components/FlashcardDeck.tsx:46-75 | blank lines and unmarked lines before any block change nothing; a `q` line closes the card and opens a new block; ids and non-empty parts are preserved |
| FlashcardDeck.Fold | components/FlashcardDeck.tsx:46-75 | the cards after any prefix of lines have ids 1..n and non-empty parts |
| FlashcardDeck.Parsed | components/FlashcardDeck.tsx:28-79 | the parsed deck has ids 1..n in order and non-empty questions and answers |
| FlashcardDeck.ParseFlashcards | components/FlashcardDeck.tsx:28-79 | the loop returns exactly `Parsed(input)`: consecutive ids from 1, non-empty questions and answers |
| FlashcardDeck.BlankLineIgnored | components/FlashcardDeck.tsx:47-48 | inserting a blank line anywhere does not change the parse |
| FlashcardDeck.CrlfParsesAsLf | components/FlashcardDeck.tsx:44 | CRLF input parses exactly as LF input |
| FlashcardDeck.ParsedLines | components/FlashcardDeck.tsx:44-77 | LF-joined lines parse as the fold over those lines, then the final push |
| FlashcardDeck.OrphanAnswersDiscarded | components/FlashcardDeck.tsx:33-66 | without any `q` line no card is produced, even with answer lines |
| FlashcardDeck.StepWithoutQuestion | components/FlashcardDeck.tsx:58-74 | a non-`q` line keeps a parser that has no question and no cards in that state |
| FlashcardDeck.LeadingTextIgnored | components/FlashcardDeck.tsx:68 | unmarked lines before the first marker leave the parser at its start |
| FlashcardDeck.QuestionClosesCard | components/FlashcardDeck.tsx:50-56 | a `q` line pushes the current card and starts a question block with the captured text |
| FlashcardDeck.AnswerExtendsBlock | components/FlashcardDeck.tsx:58-65 | an `a` line appends its text to the answer block, opening an empty-question block if none is open |
| FlashcardDeck.UnmarkedLineContinues | components/FlashcardDeck.tsx:68-74 | an unmarked line is appended, trimmed, to the block the mode names |
| FlashcardDeck.NextIndex | components/FlashcardDeck.tsx:111 | the next index stays in [0, n) |
| FlashcardDeck.PreviousIndex | components/FlashcardDeck.tsx:102-105 | the previous index stays in [0, n) |
| FlashcardDeck.NextPreviousInverse | components/FlashcardDeck.tsx:99-112 | next and previous undo each other |
| FlashcardDeck.Advance | components/FlashcardDeck.tsx:108-112 | k presses of next stay in [0, n) |
| FlashcardDeck.AdvanceWraps | components/FlashcardDeck.tsx:111 | k presses of next from i land on (i + k) mod n |
| FlashcardDeck.ModSuccessor | components/FlashcardDeck.tsx:111 | taking the remainder before adding one changes nothing |
| FlashcardDeck.Deck.constructor | components/FlashcardDeck.tsx:82-88 | a new deck starts at index 0 with the answer hidden |
| FlashcardDeck.Deck.Next | components/FlashcardDeck.tsx:108-112 | no change without cards; else the index moves to `NextIndex` and the answer is hidden |
| FlashcardDeck.Deck.Previous | components/FlashcardDeck.tsx:99-106 | no change without cards; else the index moves to `PreviousIndex` and the answer is hidden |
| FlashcardsView.DropStars | components/lecture/FlashcardsView.tsx:44-47 | dropping optional stars leaves a suffix of the text |
| FlashcardsView.StripMarker | components/lecture/FlashcardsView.tsx:44-47 | the text after a recognised marker is trimmed and no longer than the line |
| FlashcardsView.StripBold | components/lecture/FlashcardsView.tsx:40-44 | `**Q:** text` is a marker and yields `text` |
| FlashcardsView.StripPlain | components/lecture/FlashcardsView.tsx:40-44 | `Q: text` is a marker and yields `text` |
| FlashcardsView.Emit | components/lecture/FlashcardsView.tsx:41-43 | a card is added only when both parts are non-empty |
| FlashcardsView.Step | components/lecture/FlashcardsView.tsx:38-48 | unrecognised lines change nothing; `Q` emits the previous card if complete and starts a new question with an empty answer; `A` replaces the answer |
| FlashcardsView.Fold | components/lecture/FlashcardsView.tsx:38-49 | every card emitted has a non-empty question and answer |
| FlashcardsView.ParseFlashcards | components/lecture/FlashcardsView.tsx:26-59 | an array comes back unchanged, other non-strings give []; text is parsed by the loop into exactly `Cards(data)`, all complete |
| FlashcardsView.LaterAnswerWins | components/lecture/FlashcardsView.tsx:46-47 | of two answer lines, only the later one counts |
| FlashcardsView.LowerCaseIgnored | components/lecture/FlashcardsView.tsx:40-46 | `q:` and `a:` lines are ignored (markers are case-sensitive) |
| FlashcardsView.NotMarkerWhenFirstDiffers | components/lecture/FlashcardsView.tsx:40-46 | a line not starting with `Q`, `A` or `*` is never a marker |
| FlashcardsView.TrailingCarriageReturn | components/lecture/FlashcardsView.tsx:34-39 | a trailing `\r` does not change how a line is read |
| FlashcardsView.Viewer.constructor | components/lecture/FlashcardsView.tsx:22-23 | the viewer starts on the first card, unflipped |
| FlashcardsView.Viewer.NextCard | components/lecture/FlashcardsView.tsx:110-113 | the index moves to (i + 1) mod n and the card is unflipped |
| FlashcardsView.Viewer.PrevCard | components/lecture/FlashcardsView.tsx:115-118 | the index moves to the previous card with wrap-around and the card is unflipped |
| FlashcardsView.PrevIsModulo | components/lecture/FlashcardsView.tsx:117 | (i - 1 + n) mod n is the same wrap-around as the deck's previous |
| Llm.ProviderFromString | lib/providers/llm.ts:17-23 | OpenAI iff the lower-cased name is `openai` or `chatgpt`; Anthropic iff it is `anthropic` or `claude`; else none |
| Llm.ToLowerIdempotent | lib/providers/llm.ts:19 | lower-casing twice is lower-casing once |
| Llm.ProviderIgnoresCase | lib/providers/llm.ts:19 | a name and its lower-case form give the same provider |
| Llm.NonBlank | lib/providers/llm.ts:27-28 | a key is kept, trimmed, iff it is present and not blank |
| Llm.ResolveApiKey | lib/providers/llm.ts:25-33 | `OPENAI_API_KEY` for OpenAI; for Anthropic `CLAUDE_API_KEY` whenever defined, else `ANTHROPIC_API_KEY`; trimmed, never blank |
| Llm.BlankClaudeKeyHidesAnthropicKey | lib/providers/llm.ts:31 | a defined but blank `CLAUDE_API_KEY` yields no key even when `ANTHROPIC_API_KEY` is set |
| Llm.OpenAIContent | lib/providers/llm.ts:69 | present iff the first choice has a message with content; then that content, trimmed |
| Llm.AnthropicContent | lib/providers/llm.ts:112 | absent iff there is no content array; otherwise every block's text (a missing one as "") joined by `\n`, trimmed |
| Llm.BlockTexts | lib/providers/llm.ts:112 | each block's text, or "" for a block without one |
| Llm.CallOpenAI | lib/providers/llm.ts:35-75 | Ok iff the request succeeded with non-empty content, and then the reply is that trimmed content; otherwise the network error, "OpenAI request failed: " and the body, the parse error, or "OpenAI returned an empty response." |
| Llm.CallAnthropic | lib/providers/llm.ts:77-118 | Ok iff the request succeeded with non-empty joined text, and then the reply is that text; otherwise the network error, "Anthropic request failed: " and the body, the parse error, or "Anthropic returned an empty response." |
| Llm.AnthropicJoinsAllBlocks | lib/providers/llm.ts:112 | for any blocks whose first text starts and last text ends with a non-space, the reply is every block's text in order, one per line, a text-less block as an empty line |
| Llm.WireMessages | lib/providers/llm.ts:49-53 | each message is sent as its role name and content, in order |
| Llm.Request | lib/providers/llm.ts:41-101 | OpenAI gets the system prompt as a first message; Anthropic gets it apart, with max tokens defaulting to 1500; temperature defaults to 0.3 |
| Llm.CallLLM | lib/providers/llm.ts:120-127 | OpenAI goes to `callOpenAI` and every other provider to `callAnthropic` |
| Llm.OnlyChosenEndpointMatters | lib/providers/llm.ts:120-127 | the answer depends only on the chosen provider's endpoint |
| TranscriptionProviders.ResolveTranscriptionProvider | lib/providers/index.ts:13-19 | always a registry key: the lower-cased name if known, else deepgram; a missing name gives deepgram |
| TranscriptionProviders.ResolveIgnoresCase | lib/providers/index.ts:14-16 | lookup ignores case |
| TranscriptionProviders.InheritedNamesUnknown | lib/providers/index.ts:10-18 | every lower-cased name other than the own key `deepgram` is unknown and resolves to Deepgram |
| GenerateRoute.ModeFromString | app/api/generate/route.ts:31-38 | notes; flashcards or flashcard; mindmap or mind-map, after lower-casing; anything else has no mode |
| GenerateRoute.ModeIgnoresCase | app/api/generate/route.ts:33 | a mode name and its lower-case form give the same mode |
| GenerateRoute.FirstBlockContent | app/api/generate/route.ts:111 | present iff the first content block has text; then that text, trimmed |
| GenerateRoute.CallAnthropic | app/api/generate/route.ts:79-117 | Ok iff the reply succeeded and the first block has non-empty text, and then the reply is that text; otherwise the network error, "Anthropic request failed: " and the body, the parse error, or "Anthropic returned an empty response." |
| GenerateRoute.FirstBlockOnly | app/api/generate/route.ts:111-114 | a reply whose text sits in its second block fails here but succeeds with the shared client |
| GenerateRoute.Post | app/api/generate/route.ts:129-182 | in order: bad JSON, bad provider, bad mode give 400 with their messages; a missing key 500 with the provider's message; a blank transcript 400; once every check passes (`ChecksPass`) the model is called with the resolved provider, key, trimmed transcript and mode, and the reply is 200 with its text or 502 with its error's message |
| GenerateRoute.Output | app/api/generate/route.ts:167-170 | OpenAI goes to `callOpenAI` (the reply handling of `Llm.CallOpenAI`), Anthropic to this route's own first-block `callAnthropic` |
| GenerateRoute.KeyCheckedBeforeTranscript | app/api/generate/route.ts:149-164 | a missing key gives 500 even when the transcript is also missing |
| GenerateRoute.ProviderCheckedBeforeMode | app/api/generate/route.ts:141-147 | a bad provider is reported whatever the mode and transcript |
| ChatRoute.SanitizeEntry | app/api/chat/route.ts:31-47 | an entry is kept iff it is an object with role user or assistant, in any case, and string content that is not blank; the content is stored trimmed |
| ChatRoute.SanitizeAll | app/api/chat/route.ts:30-48 | the output is never longer than the input |
| ChatRoute.SanitizeMessages | app/api/chat/route.ts:25-49 | a non-array gives no messages |
| ChatRoute.SanitizeIsSubsequence | app/api/chat/route.ts:30-48 | the output is exactly the valid entries, sanitised, in their original order |
| ChatRoute.PicksExtend | app/api/chat/route.ts:30-48 | one more entry is picked iff it is valid |
| ChatRoute.PicksSkip | app/api/chat/route.ts:48 | an invalid entry is skipped |
| ChatRoute.PicksKeep | app/api/chat/route.ts:48 | a valid entry is kept at the end |
| ChatRoute.ChatCall | app/api/chat/route.ts:93-110 | the call goes to the given provider with the given key, the chat system prompt and temperature 0.2; the model gets the transcript context message, then the conversation; a 1200-token limit is set only for Anthropic |
| ChatRoute.Post | app/api/chat/route.ts:51-127 | in order: bad JSON, bad provider, blank transcript, empty conversation, a conversation not ending with the user give 400 with their messages; a missing key 500 with the provider's message; once every check passes the call is `ChatCall` with the context and the sanitised conversation, and the reply is 200 with the assistant's message or 502 with the error's message |
| ChatRoute.TranscriptCheckedBeforeKey | app/api/chat/route.ts:67-69 | a missing transcript gives 400 whatever the key |
| ChatRoute.MustEndWithQuestion | app/api/chat/route.ts:75-78 | a conversation ending with the assistant gives 400 before the key is looked at |
| TranscribePage.WithoutMode | app/transcribe/page.tsx:288 | exactly the entries of other modes, taken from the list |
| TranscribePage.WithoutModeConcat | app/transcribe/page.tsx:288 | the filter works entry by entry, so the order of the kept entries is the list's |
| TranscribePage.WithGeneration | app/transcribe/page.tsx:287-290 | the new entry is last, every earlier entry has another mode, and every entry of another mode is kept |
| TranscribePage.WithoutModeKeepsUnique | app/transcribe/page.tsx:288 | filtering keeps at most one entry per mode |
| TranscribePage.WithGenerationKeepsUnique | app/transcribe/page.tsx:287-290 | the upsert keeps at most one entry per mode |
| TranscribePage.GetGeneration | app/transcribe/page.tsx:362-363 | "" when no entry has the mode |
| TranscribePage.GetAfterGeneration | app/transcribe/page.tsx:287-290 | after an upsert its mode reads the new output and every other mode reads what it read before |
| TranscribePage.GetSkipsOtherModes | app/transcribe/page.tsx:363 | entries of other modes do not hide a later entry |
| TranscribePage.Page.constructor | app/transcribe/page.tsx:161-163 | no result, no generations, no messages, empty input |
| TranscribePage.Page.ResetSession | app/transcribe/page.tsx:208-216 | a submission clears the error, result, generations and chat, and marks the request in flight; nothing else changes |
| TranscribePage.Page.HandleSubmit | app/transcribe/page.tsx:195-248 | without audio only the error is set and everything else is unchanged; otherwise the page is reset and the result or failure message stored |
| TranscribePage.Page.HandleGenerate | app/transcribe/page.tsx:255-300 | without a transcript nothing is sent and the page is unchanged, the busy flag included; a non-blank trimmed output upserts by mode; an empty output or a failure leaves the list and sets the error |
| TranscribePage.Page.HandleChatSubmit | app/transcribe/page.tsx:302-361 | no request without a transcript or with a blank question, and then the busy flag is untouched; the request is the old messages plus the trimmed question; success appends one assistant message; an empty answer sets the empty-answer error; a failure sets the reply's failure message with the chat fallbacks, restores the old messages and the question |
| Dashboard.FormatClock | app/dashboard/page.tsx:51-56 | `N/A` iff the duration is missing or 0 |
| Dashboard.PaddedRoundTrip | app/dashboard/page.tsx:55 | a number below 100 padded to two digits reads back as itself |
| Dashboard.ClockRoundTrip | app/dashboard/page.tsx:51-56 | a positive duration prints as minutes, `:`, two digits of seconds below 60, and minutes·60 + seconds is the duration |
| Dashboard.FormatDate | app/dashboard/page.tsx:58-69 | 0 gives Today; 1 Yesterday; 2-6 `Nd ago`; 7-29 `(N div 7)w ago` (1 to 4 weeks); 30 or more the locale date; a negative count `-Nd ago` |
| Dashboard.FutureDateShowsNegativeDays | app/dashboard/page.tsx:62-66 | for every date in the future the label is a minus sign, digits that read back as the number of days, and "d ago" |
| Dashboard.WithoutId | app/dashboard/page.tsx:44 | no kept lecture has the id; every other lecture is kept |
| Dashboard.WithoutIdCount | app/dashboard/page.tsx:44 | the list shrinks by exactly the number of lectures with that id |
| Dashboard.WithoutIdConcat | app/dashboard/page.tsx:44 | the filter works entry by entry, so the remaining lectures keep their order |
| Dashboard.DeleteLecture | app/dashboard/page.tsx:38-49 | unchanged unless confirmed and deleted; then the list without that id |
| Dashboard.CountLine | app/dashboard/page.tsx:95-97 | the empty message for 0, the singular for exactly 1, the plural otherwise |
| Dashboard.MailboxName | app/dashboard/page.tsx:92 | the email text up to its first `@`, without any `@` |
| Dashboard.SplitHead | app/dashboard/page.tsx:92 | the first piece of a split is a prefix, followed by the separator when shorter |
| Dashboard.Greeting | app/dashboard/page.tsx:92 | the mailbox name when an email is present, else the plain greeting |
| NotesPage.Filtered | app/dashboard/notes/page.tsx:41-56 | a lecture is in the result iff it is in the list and matches both the search and the type |
| NotesPage.FilteredConcat | app/dashboard/notes/page.tsx:41 | filtering distributes over concatenation, so the result keeps the list's order |
| NotesPage.FilteredIdempotent | app/dashboard/notes/page.tsx:41-56 | filtering twice is filtering once |
| NotesPage.EmptySearchKeepsAll | app/dashboard/notes/page.tsx:43-45 | an empty query on `all` keeps every lecture |
| NotesPage.CountsPartition | app/dashboard/notes/page.tsx:166-200 | the with-notes and no-notes counts add up to the total |
| NotesPage.CountsMatchEmptySearch | app/dashboard/notes/page.tsx:166-200 | each count is the length of its filter's list for an empty search |
| SettingsView.SaveTitle | components/lecture/SettingsView.tsx:21-45 | no write iff the trimmed title equals the current one; otherwise the trimmed title is written; editing ends unless the write fails, which alerts |
| SettingsView.PaddingIsNoWrite | components/lecture/SettingsView.tsx:22 | whitespace around the current title causes no write |
| SettingsView.SaveTwiceWritesOnce | components/lecture/SettingsView.tsx:22-34 | saving again against the updated row writes nothing |
| SettingsView.HandleDelete | components/lecture/SettingsView.tsx:47-70 | nothing without confirmation; the row delete comes first; audio is removed only after it succeeds and only if `audio_url` is set; navigation iff all succeeded, else an alert |
| SettingsView.FailedRemovalAfterDelete | components/lecture/SettingsView.tsx:55-69 | a rejected audio removal alerts although the row is gone |
| SettingsView.FormatMinutes | components/lecture/SettingsView.tsx:76-81 | `N/A` iff the duration is missing or 0 |
| SettingsView.MinutesRoundTrip | components/lecture/SettingsView.tsx:76-81 | a positive duration prints as minutes `m ` seconds `s`, unpadded, with seconds below 60, adding back up to the duration |
| Text.TrimStart | components/FlashcardDeck.tsx:18 | the result is a suffix that starts with no whitespace |
| Text.TrimEnd | components/FlashcardDeck.tsx:18 | the result is a prefix that ends with no whitespace |
| Text.Trim | components/FlashcardDeck.tsx:18 | `trim` removes exactly the surrounding whitespace |
| Text.TrimAroundWhitespace | components/lecture/SettingsView.tsx:22 | whitespace added at either end does not change the trim |
| Text.ToLower | lib/providers/llm.ts:19 | lower-casing keeps the length |
| Text.Split | components/FlashcardDeck.tsx:44 | the pieces contain no separator |
| Text.JoinSplit | components/FlashcardDeck.tsx:44 | joining the pieces with the separator gives the text back |
| Text.SplitJoin | components/FlashcardDeck.tsx:44 | splitting separator-free pieces joined by the separator gives them back |
| Text.ReplaceCrlf | components/FlashcardDeck.tsx:44 | the text never grows |
| Text.CrlfBecomesLf | components/FlashcardDeck.tsx:44 | each CRLF pair becomes one LF |
| Text.LoneCrKept | components/FlashcardDeck.tsx:44 | a CR not followed by LF is kept |
| Text.ReplaceLoneCr | components/FlashcardDeck.tsx:44 | a CR at the start, not followed by LF, is kept |
| Text.NonEmptyConcat | components/FlashcardDeck.tsx:19 | dropping empty strings works block by block and keeps the order |
| Text.CrlfJoinIsLfJoin | components/FlashcardDeck.tsx:44 | CR-free lines joined by CRLF become the same lines joined by LF |
| Text.NatToStringRoundTrip | app/dashboard/page.tsx:55 | reading back a printed number gives the number |
| Text.PadStart2 | app/dashboard/page.tsx:55 | `padStart(2, '0')` fills with zeros up to two characters |
| Text.JsRem | app/dashboard/page.tsx:54 | the JavaScript remainder has the sign of the dividend and magnitude below the divisor |
| Text.JsRemDivision | app/dashboard/page.tsx:54 | truncating quotient times divisor plus the remainder is the dividend |

## Left out

- Database, storage and HTTP I/O are not executed. Each call is an outcome parameter: success or failure, the returned row, the reply status and body, a rejected promise. The environment is a map.
- Concurrency between workers is not modelled as interleaving. A claim may face one rival claim between select and update, and `Race` runs claims one after another.
- Job ids are numbers, not UUID strings. Timestamps are opaque numbers. Ties in `created_at` are broken arbitrarily.
- `attempts` of a newly inserted job is the table default, taken as a parameter. The enqueue code does not set it.
- Floating point is modelled with `real`:
  - durations are `real`;
  - `Math.round` is floor(x + 1/2);
  - confidence is opaque;
  - the `toFixed` displays on the transcribe page are not modelled.
- `Number(limit)` parsing is not modelled. The parsed value is given as finite or not finite.
- Dates are not computed:
  - `Dashboard.FormatDate` takes the whole-day difference and the locale rendering as inputs;
  - the settings and notes pages' `formatDate` (locale rendering only) is not modelled.
- `toLowerCase` is ASCII-only.
- The prompt texts and model names of the generate route (`MODE_PROMPTS`, model constants) are not modelled. Neither are request headers and URLs. The chat route's system prompt and context message are kept.
- Copies that are modelled once:
  - the generate route's own `providerFromString`, `resolveApiKey` and `callOpenAI` match `lib/providers/llm.ts` and are modelled once, in `Llm`;
  - the worker's copies of `formatParagraphs`, `extractSummary` and `extractModelName` match `lib/providers/deepgram.ts` and are modelled once, in `Deepgram`;
  - the notes page's `formatDuration` matches the dashboard's and is `Dashboard.FormatClock`.
- Non-string JSON values in the request bodies are not modelled:
  - the generate and chat `provider`, `transcript` and `mode` fields, where the source would throw on `.trim()` or `.toLowerCase()`;
  - a non-string `role` in a chat message.
  Chat message `content` of any type is modelled.
- A request body that is the JSON literal `null` is not modelled, in either the generate or the chat route. It parses, and reading `body.provider` then throws outside the `try`, so the framework answers with its own error. The model treats every parsed body as an object.
- The worker's request to Deepgram is not modelled (fixed query parameters, `Content-Type` header). Its outcome is the `fetch` parameter.
- React state updates are applied in order, as if each handler ran without interleaving. Loading and busy flags are modelled only where a contract mentions them.
- The FlashcardDeck `progressLabel` display string is not modelled.
- `FlashcardsView.Viewer` requires at least one card. The component renders the navigation buttons only when there are cards, and returns early otherwise.
- The FlashcardsView content fetch and regeneration (`handleGenerate` there), and the dashboard's `fetchLectures`, are I/O and are not modelled.
- `Dashboard.ClockRoundTrip`: states the label's shape only for positive durations. Negative durations follow JavaScript's floor and truncating remainder in `FormatClock`, but their shape is not characterised.
- `SettingsView.MinutesRoundTrip`: states the label's shape only for positive durations, for the same reason.
- `SettingsView.FormatMinutes`: its own contract states only the `N/A` cases. The shape of the label is stated by `SettingsView.MinutesRoundTrip`.
- `Dashboard.FormatClock`: its own contract states only the `N/A` cases. The shape of the label is stated by `Dashboard.ClockRoundTrip`.
