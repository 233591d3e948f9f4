/**
 * The checks `generateSpeech` (services/gemini.ts) applies to the model's
 * response after the text-to-speech call: a fixed chain of guards that either
 * rejects the response with one of five errors or yields the base64 audio
 * payload of the first part of the first candidate.
 */
module Gemini {
  import opened Wrappers

  /** `inlineData` of a content part. */
  datatype Blob = Blob(data: Option<string>)

  /** A content part: optional text and optional inline audio. */
  datatype Part = Part(text: Option<string>, inlineData: Option<Blob>)

  datatype Content = Content(parts: Option<seq<Part>>)

  datatype Candidate = Candidate(finishReason: Option<string>, content: Option<Content>)

  /** The fields of the service's response that the guards look at. */
  datatype Response = Response(candidates: Option<seq<Candidate>>)

  /** Why a response is rejected, one constructor per guard. */
  datatype ResponseError =
    | NoCandidates
    | GenerationStopped(reason: string)
    | NoContentParts
    | TextInsteadOfAudio(text: string)
    | NoAudioData

  /** What `generateSpeech` throws: the client's own error, or a rejected response. */
  datatype SpeechError = ServiceError(message: string) | Rejected(reason: ResponseError)

  /** JavaScript truthiness of an optional string: present and not empty. */
  predicate Truthy(s: Option<string>) {
    s.Some? && s.value != ""
  }

  /** `response.candidates?.[0]` */
  function FirstCandidate(resp: Response): Option<Candidate> {
    if resp.candidates.Some? && |resp.candidates.value| > 0 then Some(resp.candidates.value[0]) else None
  }

  /** `candidate.content?.parts?.[0]` */
  function FirstPart(candidate: Candidate): Option<Part> {
    if candidate.content.Some? && candidate.content.value.parts.Some? && |candidate.content.value.parts.value| > 0
    then Some(candidate.content.value.parts.value[0])
    else None
  }

  /** The finish reason a candidate may carry and still be accepted. */
  predicate NormalFinish(reason: Option<string>) {
    reason == None || reason == Some("") || reason == Some("STOP")
  }

  /**
   * A response that carries audio, stated without the guard order: its first
   * candidate finished normally and the first part of that candidate holds
   * non-empty inline data. Whether the part also has text does not matter.
   */
  predicate Deliverable(resp: Response) {
    && resp.candidates.Some? && |resp.candidates.value| > 0
    && var c := resp.candidates.value[0];
    && NormalFinish(c.finishReason)
    && c.content.Some? && c.content.value.parts.Some? && |c.content.value.parts.value| > 0
    && var p := c.content.value.parts.value[0];
    && p.inlineData.Some? && p.inlineData.value.data.Some? && p.inlineData.value.data.value != ""
  }

  /**
   * The guard chain of `generateSpeech`, in source order: no candidate, an
   * abnormal finish reason, no first part, text without audio, no audio data.
   * A response that passes every guard yields its audio payload unchanged.
   */
  function Classify(resp: Response): (r: Result<string, ResponseError>)
    ensures r.Success? <==> Deliverable(resp)
    ensures r.Success? ==>
      r.value != "" && FirstPart(FirstCandidate(resp).value).value.inlineData.value.data == Some(r.value)
  {
    match FirstCandidate(resp)
    case None => Failure(NoCandidates)
    case Some(candidate) =>
      if Truthy(candidate.finishReason) && candidate.finishReason.value != "STOP" then
        Failure(GenerationStopped(candidate.finishReason.value))
      else
        match FirstPart(candidate)
        case None => Failure(NoContentParts)
        case Some(part) =>
          if Truthy(part.text) && part.inlineData.None? then
            Failure(TextInsteadOfAudio(part.text.value))
          else if part.inlineData.None? || !Truthy(part.inlineData.value.data) then
            Failure(NoAudioData)
          else
            Success(part.inlineData.value.data.value)
  }

  /** A response without a first candidate is rejected for exactly that reason. */
  lemma NoCandidateRejected(resp: Response)
    ensures Classify(resp) == Failure(NoCandidates) <==>
      resp.candidates.None? || resp.candidates.value == []
  {
  }

  /**
   * A non-empty finish reason other than "STOP" rejects the response with an
   * error naming that reason; an absent or empty one lets it through.
   */
  lemma AbnormalFinishRejected(resp: Response, reason: string)
    ensures Classify(resp) == Failure(GenerationStopped(reason)) <==>
      FirstCandidate(resp).Some? && FirstCandidate(resp).value.finishReason == Some(reason)
      && reason != "" && reason != "STOP"
    ensures FirstCandidate(resp).Some? && NormalFinish(FirstCandidate(resp).value.finishReason) ==>
      !Classify(resp).Failure? || !Classify(resp).error.GenerationStopped?
  {
  }

  /** An accepted candidate without a first content part is rejected for exactly that reason. */
  lemma NoPartRejected(resp: Response)
    ensures Classify(resp) == Failure(NoContentParts) <==>
      FirstCandidate(resp).Some? && NormalFinish(FirstCandidate(resp).value.finishReason)
      && FirstPart(FirstCandidate(resp).value).None?
  {
  }

  /**
   * A first part with text and no inline data is a refusal quoting the text;
   * text next to inline data is not an error.
   */
  lemma TextRefusalRejected(resp: Response, text: string)
    ensures Classify(resp) == Failure(TextInsteadOfAudio(text)) <==>
      FirstCandidate(resp).Some? && NormalFinish(FirstCandidate(resp).value.finishReason)
      && FirstPart(FirstCandidate(resp).value).Some?
      && FirstPart(FirstCandidate(resp).value).value == Part(Some(text), None)
      && text != ""
  {
  }

  /** Missing or empty inline data, where no earlier guard fired, is rejected as "no audio data". */
  lemma MissingAudioRejected(resp: Response)
    ensures Classify(resp) == Failure(NoAudioData) <==>
      FirstCandidate(resp).Some? && NormalFinish(FirstCandidate(resp).value.finishReason)
      && FirstPart(FirstCandidate(resp).value).Some?
      && var p := FirstPart(FirstCandidate(resp).value).value;
      && !(Truthy(p.text) && p.inlineData.None?)
      && (p.inlineData.None? || !Truthy(p.inlineData.value.data))
  {
  }

  /** Only the first candidate is inspected: later candidates never change the verdict. */
  lemma LaterCandidatesIgnored(first: Candidate, rest1: seq<Candidate>, rest2: seq<Candidate>)
    ensures Classify(Response(Some([first] + rest1))) == Classify(Response(Some([first] + rest2)))
  {
    assert ([first] + rest1)[0] == first && ([first] + rest2)[0] == first;
  }

  /** Only the first part is inspected: later parts never change the verdict. */
  lemma LaterPartsIgnored(reason: Option<string>, first: Part, rest1: seq<Part>, rest2: seq<Part>)
    ensures Classify(Response(Some([Candidate(reason, Some(Content(Some([first] + rest1))))])))
         == Classify(Response(Some([Candidate(reason, Some(Content(Some([first] + rest2))))])))
  {
    assert ([first] + rest1)[0] == first && ([first] + rest2)[0] == first;
  }

  const RefusalPrefix := "Model returned text instead of audio: "

  /** `s` between double quotes. */
  function Quoted(s: string): string {
    "\"" + s + "\""
  }

  /** The `message` of each error `generateSpeech` throws. */
  function Message(e: SpeechError): string {
    match e
    case ServiceError(message) => message
    case Rejected(NoCandidates) => "No candidates returned from the model."
    case Rejected(GenerationStopped(reason)) => "Generation stopped. Reason: " + reason
    case Rejected(NoContentParts) => "No content parts returned."
    case Rejected(TextInsteadOfAudio(text)) =>
      RefusalPrefix + Quoted(text) + ". Try simplifying your script or removing unsupported tags."
    case Rejected(NoAudioData) => "No audio data found in the response."
  }

  /** Every rejection has a non-empty message. */
  lemma RejectionMessageNonEmpty(e: ResponseError)
    ensures Message(Rejected(e)) != ""
  {
    match e
    case GenerationStopped(reason) =>
      assert |Message(Rejected(e))| >= |"Generation stopped. Reason: "|;
    case TextInsteadOfAudio(text) =>
      assert |Message(Rejected(e))| >= |Quoted(text)|;
    case _ =>
  }

  /** The abnormal-finish message ends with the reason itself. */
  lemma StoppedMessageNamesReason(reason: string)
    ensures var m := Message(Rejected(GenerationStopped(reason)));
      |m| >= |reason| && m[|m| - |reason|..] == reason
  {
  }

  /** The refusal message quotes the returned text verbatim, between double quotes. */
  lemma RefusalMessageQuotesText(text: string)
    ensures var m, k := Message(Rejected(TextInsteadOfAudio(text))), |RefusalPrefix|;
      |m| >= k + |text| + 2 && m[k] == '"' && m[k + 1..k + 1 + |text|] == text && m[k + 1 + |text|] == '"'
  {
    var m, k := Message(Rejected(TextInsteadOfAudio(text))), |RefusalPrefix|;
    var rest := ". Try simplifying your script or removing unsupported tags.";
    assert m == RefusalPrefix + ("\"" + text + "\"") + rest;
    assert m[k..k + |text| + 2] == "\"" + text + "\"";
  }

  /**
   * `generateSpeech` after the client call: a client error is rethrown as it
   * is (no retry), a response is accepted or rejected by the guard chain.
   */
  function GenerateSpeech(call: Result<Response, string>): (r: Result<string, SpeechError>)
    ensures call.Failure? ==> r == Failure(ServiceError(call.error))
    ensures call.Success? ==> (r.Success? <==> Deliverable(call.value))
    ensures call.Success? && r.Failure? ==> r.error.Rejected?
    ensures call.Success? && r.Success? ==> Classify(call.value) == Success(r.value)
    ensures call.Success? && r.Failure? ==> Classify(call.value) == Failure(r.error.reason)
  {
    match call
    case Failure(message) => Failure(ServiceError(message))
    case Success(resp) =>
      match Classify(resp)
      case Success(audio) => Success(audio)
      case Failure(reason) => Failure(Rejected(reason))
  }
}
