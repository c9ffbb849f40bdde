/** The transcription page (app/transcribe/page.tsx): the state its three
    handlers update. Submitting audio resets the session, generating study
    material replaces the entry for that mode, and a chat question is
    appended at once and rolled back when the answer fails. */
module TranscribePage {
  import opened Wrappers
  import opened Text

  datatype GenerationMode = Notes | Flashcards | Mindmap

  datatype InputMode = Upload | Record

  datatype Role = User | Assistant

  datatype ChatMessage = ChatMessage(role: Role, content: string)

  datatype Generation = Generation(mode: GenerationMode, output: string)

  /** The transcription shown on the page (its metadata is display only). */
  datatype TranscriptResult = TranscriptResult(transcript: string)

  type Audio = seq<bv8>

  /** How a request to one of the app's own endpoints ends: the fetch or
      the body parse throws, the answer is not OK (with the body's `error`
      field, if it has a string one), or the answer is OK with a payload. */
  datatype Reply<T> = Rejected(thrown: Thrown) | NotOk(errorField: Option<string>) | OkReply(payload: T)

  /** The message a failed request ends with: the body's error or the
      handler's own default, or the thrown error's message or the handler's
      fallback for a thrown non-error. */
  function FailureMessage<T>(reply: Reply<T>, notOkDefault: string, caughtFallback: string): string
    requires !reply.OkReply?
  {
    match reply
    case NotOk(field) => field.GetOr(notOkDefault)
    case Rejected(t) => CaughtMessage(t, caughtFallback)
  }

  // ----- Generations -----

  /** The entries for every mode but `mode`, in order. */
  function WithoutMode(generations: seq<Generation>, mode: GenerationMode): (r: seq<Generation>)
    ensures |r| <= |generations|
    ensures forall k :: 0 <= k < |r| ==> r[k].mode != mode && r[k] in generations
    ensures forall g :: g in generations && g.mode != mode ==> g in r
    decreases |generations|
  {
    if |generations| == 0 then []
    else
      var rest := WithoutMode(generations[1..], mode);
      assert forall g :: g in generations ==> g == generations[0] || g in generations[1..];
      if generations[0].mode == mode then rest else [generations[0]] + rest
  }

  /** Dropping a mode works entry by entry: the order of the rest is kept. */
  lemma {:induction false} WithoutModeConcat(front: seq<Generation>, back: seq<Generation>, mode: GenerationMode)
    ensures WithoutMode(front + back, mode) == WithoutMode(front, mode) + WithoutMode(back, mode)
    decreases |front|
  {
    if |front| > 0 {
      assert (front + back)[1..] == front[1..] + back;
      WithoutModeConcat(front[1..], back, mode);
    } else {
      assert front + back == back;
    }
  }

  /** The list after a generation for `g.mode`: the old entry for that
      mode dropped and the new one placed last. */
  function WithGeneration(generations: seq<Generation>, g: Generation): (r: seq<Generation>)
    ensures |r| >= 1 && r[|r| - 1] == g
    ensures forall k :: 0 <= k < |r| - 1 ==> r[k].mode != g.mode && r[k] in generations
    ensures forall h :: h in generations && h.mode != g.mode ==> h in r
  {
    WithoutMode(generations, g.mode) + [g]
  }

  /** At most one entry per mode. */
  predicate UniqueModes(generations: seq<Generation>) {
    forall k, l :: 0 <= k < l < |generations| ==> generations[k].mode != generations[l].mode
  }

  lemma {:induction false} WithoutModeKeepsUnique(generations: seq<Generation>, mode: GenerationMode)
    requires UniqueModes(generations)
    ensures UniqueModes(WithoutMode(generations, mode))
    decreases |generations|
  {
    if |generations| > 0 {
      assert UniqueModes(generations[1..]);
      WithoutModeKeepsUnique(generations[1..], mode);
      var rest := WithoutMode(generations[1..], mode);
      if generations[0].mode != mode {
        forall k | 0 <= k < |rest| ensures rest[k].mode != generations[0].mode {
          var j :| 0 <= j < |generations[1..]| && rest[k] == generations[1..][j];
          assert generations[j + 1] == rest[k];
        }
      }
    }
  }

  /** Replacing by mode keeps at most one entry per mode. */
  lemma WithGenerationKeepsUnique(generations: seq<Generation>, g: Generation)
    requires UniqueModes(generations)
    ensures UniqueModes(WithGeneration(generations, g))
  {
    WithoutModeKeepsUnique(generations, g.mode);
  }

  /** `getGeneration`: the output of the first entry for the mode, or the
      empty string. */
  function GetGeneration(generations: seq<Generation>, mode: GenerationMode): (r: string)
    ensures (forall k :: 0 <= k < |generations| ==> generations[k].mode != mode) ==> r == ""
    decreases |generations|
  {
    if |generations| == 0 then ""
    else if generations[0].mode == mode then generations[0].output
    else GetGeneration(generations[1..], mode)
  }

  /** After a generation, its mode reads the new output and every other
      mode reads what it read before. */
  lemma {:induction false} GetAfterGeneration(generations: seq<Generation>, g: Generation, mode: GenerationMode)
    ensures GetGeneration(WithGeneration(generations, g), mode) ==
      if mode == g.mode then g.output else GetGeneration(generations, mode)
    decreases |generations|
  {
    var without := WithoutMode(generations, g.mode);
    if |generations| == 0 {
      assert WithGeneration(generations, g) == [g];
    } else {
      GetAfterGeneration(generations[1..], g, mode);
      var rest := WithoutMode(generations[1..], g.mode);
      if generations[0].mode == g.mode {
        assert without == rest;
      } else {
        assert without + [g] == [generations[0]] + (rest + [g]);
      }
      if mode == g.mode {
        GetSkipsOtherModes(without, [g], mode);
      }
    }
  }

  /** Entries of other modes do not hide a later entry. */
  lemma {:induction false} GetSkipsOtherModes(front: seq<Generation>, back: seq<Generation>, mode: GenerationMode)
    requires forall k :: 0 <= k < |front| ==> front[k].mode != mode
    ensures GetGeneration(front + back, mode) == GetGeneration(back, mode)
    decreases |front|
  {
    if |front| > 0 {
      assert (front + back)[0] == front[0];
      assert (front + back)[1..] == front[1..] + back;
      assert forall k :: 0 <= k < |front[1..]| ==> front[1..][k] == front[k + 1];
      GetSkipsOtherModes(front[1..], back, mode);
    } else {
      assert front + back == back;
    }
  }

  // ----- The page -----

  const RecordFirst := "Please record audio before transcribing."
  const SelectFirst := "Please select an audio file before uploading."
  const TranscribeFirst := "Transcribe audio before generating study materials."
  const TranscribeBeforeChat := "Transcribe audio before asking questions."
  const TypeQuestion := "Type a question before sending."
  const EmptyGeneration := "The language model returned an empty response."
  const EmptyAnswer := "The assistant returned an empty response."

  class Page {
    var inputMode: InputMode
    var file: Option<Audio>
    var recordedAudio: Option<Audio>
    var result: Option<TranscriptResult>
    var error: Option<string>
    var generations: seq<Generation>
    var generationError: Option<string>
    var isGenerating: Option<GenerationMode>
    var chatMessages: seq<ChatMessage>
    var chatInput: string
    var chatError: Option<string>
    var isChatting: bool
    var isSubmitting: bool

    /** The generations list never holds two entries for one mode. */
    ghost predicate Valid()
      reads this
    {
      UniqueModes(generations)
    }

    constructor ()
      ensures Valid() && result.None? && generations == [] && chatMessages == [] && chatInput == ""
    {
      inputMode := Upload;
      file := None;
      recordedAudio := None;
      result := None;
      error := None;
      generations := [];
      generationError := None;
      isGenerating := None;
      chatMessages := [];
      chatInput := "";
      chatError := None;
      isChatting := false;
      isSubmitting := false;
    }

    /** The audio the form submits: the recording or the chosen file. */
    function AudioSource(): Option<Audio>
      reads this
    {
      if inputMode == Record then recordedAudio else file
    }

    /** The reset at the start of a submission: no error, no result, no
        generations and an empty chat, with the request in flight. */
    method ResetSession()
      modifies this`error, this`generationError, this`generations, this`result, this`chatMessages
      modifies this`chatError, this`chatInput, this`isChatting, this`isSubmitting
      ensures Valid() && error.None? && result.None? && isSubmitting
      ensures generations == [] && chatMessages == [] && chatInput == "" && chatError.None?
      ensures generationError.None? && !isChatting
    {
      error := None;
      generationError := None;
      generations := [];
      result := None;
      chatMessages := [];
      chatError := None;
      chatInput := "";
      isChatting := false;
      isSubmitting := true;
    }

    /** `handleSubmit`: without audio, only an error is shown and nothing is
        sent; otherwise the session is reset and the transcription request's
        outcome is shown. */
    method HandleSubmit(reply: Reply<TranscriptResult>) returns (sent: bool)
      requires Valid()
      modifies this
      ensures Valid()
      ensures sent <==> old(AudioSource()).Some?
      ensures !sent ==> error == Some(if old(inputMode) == Record then RecordFirst else SelectFirst)
      ensures !sent ==> (result == old(result) && generations == old(generations) && chatMessages == old(chatMessages)
                         && chatInput == old(chatInput) && isSubmitting == old(isSubmitting)
                         && chatError == old(chatError) && generationError == old(generationError)
                         && isChatting == old(isChatting))
      ensures sent ==> (generations == [] && chatMessages == [] && chatInput == "" && chatError.None?
                        && generationError.None? && !isChatting && !isSubmitting)
      ensures sent && reply.OkReply? ==> result == Some(reply.payload) && error.None?
      ensures sent && !reply.OkReply? ==> result.None? && error == Some(FailureMessage(reply, "Transcription failed.", "Unable to transcribe audio."))
      ensures inputMode == old(inputMode) && file == old(file) && recordedAudio == old(recordedAudio)
      ensures isGenerating == old(isGenerating)
    {
      if AudioSource().None? {
        error := Some(if inputMode == Record then RecordFirst else SelectFirst);
        sent := false;
      } else {
        ResetSession();
        if reply.OkReply? {
          result := Some(reply.payload);
        } else {
          error := Some(FailureMessage(reply, "Transcription failed.", "Unable to transcribe audio."));
        }
        isSubmitting := false;
        sent := true;
      }
    }

    /** `handleGenerate`: without a transcript, only an error is shown; a
        non-blank output replaces the entry for its mode; any failure leaves
        the list as it was and shows the message. */
    method HandleGenerate(mode: GenerationMode, reply: Reply<Option<string>>) returns (sent: bool)
      requires Valid()
      modifies this`generations, this`generationError, this`isGenerating
      ensures Valid()
      ensures sent <==> old(result).Some? && old(result).value.transcript != ""
      ensures !sent ==> generations == old(generations) && generationError == Some(TranscribeFirst) && isGenerating == old(isGenerating)
      ensures sent ==> isGenerating.None?
      ensures sent && reply.OkReply? && reply.payload.Some? && !IsBlank(reply.payload.value) ==>
        generations == WithGeneration(old(generations), Generation(mode, Trim(reply.payload.value))) && generationError.None?
      ensures sent && reply.OkReply? && (reply.payload.None? || IsBlank(reply.payload.value)) ==>
        generations == old(generations) && generationError == Some(EmptyGeneration)
      ensures sent && !reply.OkReply? ==>
        generations == old(generations) && generationError == Some(FailureMessage(reply, "Generation failed.", "Unable to generate the requested content."))
    {
      if result.None? || result.value.transcript == "" {
        generationError := Some(TranscribeFirst);
        return false;
      }
      generationError := None;
      isGenerating := Some(mode);
      if reply.OkReply? {
        var output := if reply.payload.Some? then Trim(reply.payload.value) else "";
        if output == "" {
          generationError := Some(EmptyGeneration);
        } else {
          WithGenerationKeepsUnique(generations, Generation(mode, output));
          generations := WithGeneration(generations, Generation(mode, output));
        }
      } else {
        generationError := Some(FailureMessage(reply, "Generation failed.", "Unable to generate the requested content."));
      }
      isGenerating := None;
      return true;
    }

    /** `handleChatSubmit`: without a transcript or with a blank question,
        only an error is shown; otherwise the question is appended at once,
        the answer appended after it on success, and on failure the old
        messages and the question come back. */
    method HandleChatSubmit(reply: Reply<Option<string>>) returns (request: Option<seq<ChatMessage>>)
      requires Valid()
      modifies this`chatMessages, this`chatInput, this`chatError, this`isChatting
      ensures Valid()
      ensures old(result).None? || old(result).value.transcript == "" ==>
        request.None? && chatError == Some(TranscribeBeforeChat) && chatMessages == old(chatMessages) && chatInput == old(chatInput)
      ensures old(result).Some? && old(result).value.transcript != "" && IsBlank(old(chatInput)) ==>
        request.None? && chatError == Some(TypeQuestion) && chatMessages == old(chatMessages) && chatInput == old(chatInput)
      ensures request.Some? ==> request.value == old(chatMessages) + [ChatMessage(User, Trim(old(chatInput)))] && !isChatting
      ensures request.Some? && reply.OkReply? && reply.payload.Some? && !IsBlank(reply.payload.value) ==>
        chatMessages == request.value + [ChatMessage(Assistant, Trim(reply.payload.value))] && chatInput == "" && chatError.None?
      ensures request.Some? && !(reply.OkReply? && reply.payload.Some? && !IsBlank(reply.payload.value)) ==>
        chatMessages == old(chatMessages) && chatInput == Trim(old(chatInput)) && chatError.Some?
      ensures request.Some? && reply.OkReply? && (reply.payload.None? || IsBlank(reply.payload.value)) ==>
        chatError == Some(EmptyAnswer)
      ensures request.Some? && !reply.OkReply? ==>
        chatError == Some(FailureMessage(reply, "Chat request failed.", "Unable to get a response from the assistant."))
      ensures request.None? ==> isChatting == old(isChatting)
    {
      if result.None? || result.value.transcript == "" {
        chatError := Some(TranscribeBeforeChat);
        return None;
      }
      var question := Trim(chatInput);
      if question == "" {
        chatError := Some(TypeQuestion);
        return None;
      }
      var previousMessages := chatMessages;
      var requestMessages := previousMessages + [ChatMessage(User, question)];
      chatError := None;
      chatMessages := requestMessages;
      chatInput := "";
      isChatting := true;
      var answer := if reply.OkReply? && reply.payload.Some? then Trim(reply.payload.value) else "";
      if answer != "" {
        chatMessages := chatMessages + [ChatMessage(Assistant, answer)];
      } else {
        var message := if reply.OkReply? then EmptyAnswer else FailureMessage(reply, "Chat request failed.", "Unable to get a response from the assistant.");
        chatError := Some(message);
        chatMessages := previousMessages;
        chatInput := question;
      }
      isChatting := false;
      return Some(requestMessages);
    }

    /** `getGeneration` on the page's list. */
    function Generated(mode: GenerationMode): string
      reads this
    {
      GetGeneration(generations, mode)
    }
  }
}
