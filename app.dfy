/**
 * The speech studio's playback and session controller: the state the page
 * keeps in refs and flags, and the handlers that change it step by step.
 * Audio nodes are sessions of the host log in `AudioHost`; the speech
 * service, base64 decoding and audio decoding are not run here, their
 * outcomes are parameters of the step that receives them.
 */
module App {
  import opened Wrappers
  import opened AudioHost
  import Gemini

  type Bytes = seq<bv8>

  /** The script the editor starts with. */
  const DefaultText: string :=
    "<whisper>Whisper voice</whisper><break time=\"1s\" />\n"
    + "<happy>Happy voice</happy><break time=\"1s\" />\n"
    + "<sad>Sad voice</sad><break time=\"1s\" />\n"
    + "<excited>Excited voice</excited>"

  /** The voice selected when the page opens. */
  const DefaultVoice: string := "Kore"

  /** Sample rate handed to the WAV writer for a download. */
  const WavSampleRate: nat := 24000

  /** Shown when a failed generation carries no message of its own. */
  const FallbackError: string := "Failed to generate speech. Please try again."

  // ---------------------------------------------------------------------
  // Blank scripts: `String.prototype.trim`
  // ---------------------------------------------------------------------

  /** The white space and line terminators JavaScript's `trim` removes. */
  predicate IsJsWhitespace(c: char) {
    || c == '\t' || c == '\n' || c == '\U{B}' || c == '\U{C}' || c == '\r' || c == ' '
    || c == '\U{A0}' || c == '\U{1680}' || ('\U{2000}' <= c <= '\U{200A}')
    || c == '\U{2028}' || c == '\U{2029}' || c == '\U{202F}' || c == '\U{205F}'
    || c == '\U{3000}' || c == '\U{FEFF}'
  }

  function TrimStart(s: string): string {
    if s != [] && IsJsWhitespace(s[0]) then TrimStart(s[1..]) else s
  }

  function TrimEnd(s: string): string {
    if s != [] && IsJsWhitespace(s[|s| - 1]) then TrimEnd(s[..|s| - 1]) else s
  }

  /** `s.trim()` */
  function Trim(s: string): string {
    TrimEnd(TrimStart(s))
  }

  /** Every character of `s` is white space (trivially so for the empty script). */
  predicate Blank(s: string) {
    forall i :: 0 <= i < |s| ==> IsJsWhitespace(s[i])
  }

  lemma {:induction false} TrimStartBlank(s: string)
    ensures TrimStart(s) == [] <==> Blank(s)
    ensures TrimStart(s) != [] ==> !IsJsWhitespace(TrimStart(s)[0])
  {
    if s != [] && IsJsWhitespace(s[0]) {
      TrimStartBlank(s[1..]);
      if Blank(s[1..]) {
        forall i | 0 <= i < |s| ensures IsJsWhitespace(s[i]) {
          if i > 0 { assert s[i] == s[1..][i - 1]; }
        }
      } else {
        var i :| 0 <= i < |s[1..]| && !IsJsWhitespace(s[1..][i]);
        assert s[i + 1] == s[1..][i];
      }
    }
  }

  lemma {:induction false} TrimEndKeepsHead(s: string)
    requires s != [] && !IsJsWhitespace(s[0])
    ensures TrimEnd(s) != []
  {
    if IsJsWhitespace(s[|s| - 1]) {
      TrimEndKeepsHead(s[..|s| - 1]);
    }
  }

  /** A script is empty after trimming exactly when it has no visible character. */
  lemma TrimEmptyIffBlank(s: string)
    ensures Trim(s) == "" <==> Blank(s)
  {
    TrimStartBlank(s);
    if TrimStart(s) != [] {
      TrimEndKeepsHead(TrimStart(s));
    }
  }

  // ---------------------------------------------------------------------
  // Outcomes supplied by the code this model does not run
  // ---------------------------------------------------------------------

  /** What generation asks the speech service for. */
  datatype SpeechRequest = SpeechRequest(text: string, voice: string)

  /** What `decodeBase64` and then `decodeAudioData` did with the returned audio. */
  datatype Decoding =
    | Base64Rejected(message: string)
    | AudioRejected(rawBytes: Bytes, message: string)
    | Decoded(rawBytes: Bytes, buffer: AudioBuffer)

  /** How `stop()` and `disconnect()` on the old source turned out; a throw is caught and ignored. */
  datatype Teardown = Completes | StopRejected | DisconnectRejected

  /** The file a download hands to the WAV writer. */
  datatype WavExport = WavExport(pcm: Bytes, sampleRate: nat)

  /** The text of the error banner for an error whose message is `message`. */
  function ErrorText(message: string): (t: string)
    ensures t != ""
    ensures message != "" ==> t == message
  {
    if message != "" then message else FallbackError
  }

  /** A rejection from the speech service is shown word for word. */
  lemma RejectionShownVerbatim(e: Gemini.ResponseError)
    ensures ErrorText(Gemini.Message(Gemini.Rejected(e))) == Gemini.Message(Gemini.Rejected(e))
  {
    Gemini.RejectionMessageNonEmpty(e);
  }

  /** The message of what a failed generation threw; `None` when it did not fail. */
  function FailureMessage(speech: Result<string, Gemini.SpeechError>, decoding: Decoding): Option<string> {
    if speech.Failure? then Some(Gemini.Message(speech.error))
    else match decoding
      case Base64Rejected(message) => Some(message)
      case AudioRejected(_, message) => Some(message)
      case Decoded(_, _) => None
  }

  /** Host calls of the teardown of `src` in `stopAudio`. */
  function TeardownCalls(src: Option<SessionId>, t: Teardown): seq<HostCall> {
    match src
    case None => []
    case Some(id) =>
      match t
      case Completes => [StopSource(id), DisconnectSource(id)]
      case StopRejected => []
      case DisconnectRejected => [StopSource(id)]
  }

  /** Host calls of `initAudioContext` when `created` is what `getAudioContext()` would return. */
  function ContextCalls(ctx: Option<ContextId>, created: ContextId): seq<HostCall> {
    if ctx.None? then [CreateContext(created)] else []
  }

  class Studio {
    var text: string
    var voice: string
    var isLoading: bool
    var error: Option<string>
    var isPlaying: bool
    var audioContext: Option<ContextId>
    var source: Option<SessionId>
    var analyser: Option<SessionId>
    var audioBuffer: Option<AudioBuffer>
    var rawAudio: Option<Bytes>
    var hasAudioBuffer: bool
    /** The id the next buffer source and analyser get. */
    var nextSession: SessionId
    /** Everything the host has been asked to do, and the events it fired. */
    ghost var log: seq<HostCall>
    /** The host's state after `log`. */
    ghost var host: Graph

    /** The sessions the host is playing. */
    ghost function Audible(): set<SessionId>
      reads this
    {
      host.live
    }

    ghost predicate Valid()
      reads this
    {
      var g := host;
      && host == Trace(log)
      // at most one source plays, and it is the one the page references
      && g.live <= (if source.Some? then {source.value} else {})
      && (forall id :: id in g.started ==> id < nextSession)
      && (source.Some? ==> source.value in g.started && analyser == source)
      // the context is created once and kept
      && g.contexts == (if audioContext.Some? then [audioContext.value] else [])
      && (isPlaying ==> source.Some?)
      && (hasAudioBuffer ==> audioBuffer.Some? && rawAudio.Some?)
      // every audible session still has its `ended` event to come
      && Consistent(host)
    }

    /** A generation has begun and its result has not arrived: the state `handleGenerate` leaves before its `await`. */
    ghost predicate Generating()
      reads this
    {
      isLoading && !hasAudioBuffer && rawAudio.None? && error.None?
    }

    /** The play/stop indicator tells the truth about the host. */
    ghost predicate FlagMatchesAudio()
      reads this
    {
      isPlaying <==> Audible() != {}
    }

    /**
     * A `stop()` that throws is taken to leave nothing audible. The Web Audio
     * API throws from `stop()` only when `start()` was never called, which no
     * source here is, so the case is defensive.
     */
    ghost predicate TeardownPossible(t: Teardown)
      reads this
    {
      t.StopRejected? ==> Audible() == {}
    }

    /** Append one host call or event to the log. */
    ghost method Record(c: HostCall)
      requires host == Trace(log)
      modifies this`log, this`host
      ensures log == old(log) + [c]
      ensures host == Apply(old(host), c) && host == Trace(log) && Consistent(host)
    {
      TraceAppend(log, c);
      log := log + [c];
      host := Apply(host, c);
      TraceConsistent(log);
    }

    constructor ()
      ensures Valid() && FlagMatchesAudio()
      ensures text == DefaultText && voice == DefaultVoice
      ensures !isLoading && error.None? && !isPlaying && !hasAudioBuffer
      ensures audioContext.None? && source.None? && analyser.None?
      ensures audioBuffer.None? && rawAudio.None? && nextSession == 0 && log == []
    {
      text := DefaultText;
      voice := DefaultVoice;
      isLoading := false;
      error := None;
      isPlaying := false;
      audioContext := None;
      source := None;
      analyser := None;
      audioBuffer := None;
      rawAudio := None;
      hasAudioBuffer := false;
      nextSession := 0;
      log := [];
      host := Trace([]);
    }

    /** The editor's `onChange`. */
    method SetText(newText: string)
      requires Valid()
      modifies this`text
      ensures Valid() && text == newText
    {
      text := newText;
    }

    /** The voice selector's `onChange`. */
    method SetVoice(newVoice: string)
      requires Valid()
      modifies this`voice
      ensures Valid() && voice == newVoice
    {
      voice := newVoice;
    }

    /** `initAudioContext`; `created` is the context `getAudioContext()` would hand out. */
    method InitAudioContext(created: ContextId) returns (ctx: ContextId)
      requires Valid()
      modifies this`audioContext, this`log, this`host
      ensures Valid()
      ensures old(audioContext).Some? ==> ctx == old(audioContext).value
      ensures old(audioContext).None? ==> ctx == created
      ensures audioContext == Some(ctx)
      ensures log == old(log) + ContextCalls(old(audioContext), created)
      ensures Audible() == old(Audible()) && host.pending == old(host.pending)
      ensures old(FlagMatchesAudio()) ==> FlagMatchesAudio()
    {
      if audioContext.None? {
        Record(CreateContext(created));
        audioContext := Some(created);
      }
      ctx := audioContext.value;
    }

    /** `stopAudio`, the Stop button's handler. */
    method StopAudio(teardown: Teardown)
      requires Valid() && TeardownPossible(teardown)
      modifies this`source, this`isPlaying, this`log, this`host
      ensures Valid() && FlagMatchesAudio()
      ensures source.None? && !isPlaying && Audible() == {}
      ensures log == old(log) + TeardownCalls(old(source), teardown)
      ensures old(source).None? ==> log == old(log)
      ensures host.pending == old(host.pending)
    {
      if source.Some? {
        var id := source.value;
        if teardown != StopRejected {
          Record(StopSource(id));
          if teardown == Completes {
            Record(DisconnectSource(id));
          }
        }
        source := None;
      }
      isPlaying := false;
    }

    /** `playAudio`: tear down the old session, then start a new one on `buffer`. */
    method PlayAudio(buffer: AudioBuffer, created: ContextId, teardown: Teardown)
      requires Valid() && TeardownPossible(teardown)
      modifies this`source, this`isPlaying, this`log, this`host, this`audioContext, this`analyser, this`nextSession
      ensures Valid() && FlagMatchesAudio()
      ensures old(nextSession) !in old(host.started)
      ensures source == Some(old(nextSession)) && analyser == source && isPlaying
      ensures Audible() == {old(nextSession)}
      ensures host.pending == old(host.pending) + {old(nextSession)}
      ensures audioContext == (if old(audioContext).Some? then old(audioContext) else Some(created))
      ensures log == old(log) + TeardownCalls(old(source), teardown) + ContextCalls(old(audioContext), created)
                     + [StartSource(old(nextSession), audioContext.value, buffer)]
      ensures nextSession == old(nextSession) + 1
    {
      StopAudio(teardown);
      var ctx := InitAudioContext(created);
      var id := nextSession;
      nextSession := nextSession + 1;
      analyser := Some(id);
      Record(StartSource(id, ctx, buffer));
      source := Some(id);
      isPlaying := true;
    }

    /** `handleReplay`, the Replay button: play the stored buffer again, without decoding anything. */
    method HandleReplay(created: ContextId, teardown: Teardown)
      requires Valid() && TeardownPossible(teardown)
      modifies this`source, this`isPlaying, this`log, this`host, this`audioContext, this`analyser, this`nextSession
      ensures Valid()
      ensures old(audioBuffer).None? ==> unchanged(this)
      ensures old(audioBuffer).Some? ==>
        && isPlaying && source == Some(old(nextSession)) && Audible() == {old(nextSession)}
        && host.pending == old(host.pending) + {old(nextSession)}
        && nextSession == old(nextSession) + 1 && audioContext.Some?
        && log == old(log) + TeardownCalls(old(source), teardown) + ContextCalls(old(audioContext), created)
                  + [StartSource(old(nextSession), audioContext.value, old(audioBuffer).value)]
      ensures old(FlagMatchesAudio()) ==> FlagMatchesAudio()
    {
      if audioBuffer.Some? {
        PlayAudio(audioBuffer.value, created, teardown);
      }
    }

    /** The guard of `handleDownload`: what is handed to the WAV writer, if anything. */
    method HandleDownload() returns (wav: Option<WavExport>)
      ensures wav.Some? <==> rawAudio.Some?
      ensures wav.Some? ==> wav.value.pcm == rawAudio.value && wav.value.sampleRate == 24000
    {
      if rawAudio.Some? {
        wav := Some(WavExport(rawAudio.value, WavSampleRate));
      } else {
        wav := None;
      }
    }

    /**
     * `handleGenerate` up to its `await`: on a blank script nothing happens;
     * otherwise the page is reset for a new result and the request is returned.
     */
    method BeginGenerate(teardown: Teardown) returns (request: Option<SpeechRequest>)
      requires Valid() && TeardownPossible(teardown)
      modifies this`error, this`isLoading, this`source, this`isPlaying, this`log, this`host, this`hasAudioBuffer, this`rawAudio
      ensures Valid()
      ensures request.None? <==> Blank(text)
      ensures request.None? ==> unchanged(this)
      ensures request.Some? ==>
        && request.value == SpeechRequest(text, voice)
        && Generating() && source.None? && !isPlaying && Audible() == {}
        && log == old(log) + TeardownCalls(old(source), teardown)
      ensures old(FlagMatchesAudio()) ==> FlagMatchesAudio()
    {
      TrimEmptyIffBlank(text);
      if Trim(text) == "" {
        request := None;
        return;
      }
      error := None;
      isLoading := true;
      StopAudio(teardown);
      hasAudioBuffer := false;
      rawAudio := None;
      request := Some(SpeechRequest(text, voice));
    }

    /**
     * `handleGenerate` after its `await`: `speech` is what the speech service
     * returned and `decoding` what decoding its audio gave; a failure of either
     * is caught and shown, a success is stored and played.
     */
    method CompleteGenerate(speech: Result<string, Gemini.SpeechError>, decoding: Decoding, created: ContextId, teardown: Teardown)
      requires Valid() && Generating() && TeardownPossible(teardown)
      modifies this`error, this`isLoading, this`source, this`isPlaying, this`log, this`host, this`audioContext
      modifies this`analyser, this`nextSession, this`hasAudioBuffer, this`rawAudio, this`audioBuffer
      ensures Valid() && !isLoading
      ensures FailureMessage(speech, decoding).None? ==>
        && error.None? && hasAudioBuffer
        && rawAudio == Some(decoding.rawBytes) && audioBuffer == Some(decoding.buffer)
        && isPlaying && source == Some(old(nextSession)) && Audible() == {old(nextSession)}
        && host.pending == old(host.pending) + {old(nextSession)}
        && nextSession == old(nextSession) + 1
        && audioContext == (if old(audioContext).Some? then old(audioContext) else Some(created))
        && log == old(log) + ContextCalls(old(audioContext), created) + TeardownCalls(old(source), teardown)
                  + [StartSource(old(nextSession), audioContext.value, decoding.buffer)]
      ensures FailureMessage(speech, decoding).Some? ==>
        && error == Some(ErrorText(FailureMessage(speech, decoding).value)) && !hasAudioBuffer
        && audioBuffer == old(audioBuffer)
        && rawAudio == (if speech.Success? && decoding.AudioRejected? then Some(decoding.rawBytes) else None)
        && source == old(source) && analyser == old(analyser) && isPlaying == old(isPlaying)
        && nextSession == old(nextSession)
        && audioContext == (if speech.Success? && old(audioContext).None? then Some(created) else old(audioContext))
        && log == old(log) + (if speech.Success? then ContextCalls(old(audioContext), created) else [])
      ensures old(FlagMatchesAudio()) ==> FlagMatchesAudio()
    {
      if speech.Failure? {
        error := Some(ErrorText(Gemini.Message(speech.error)));
      } else {
        var ctx := InitAudioContext(created);
        match decoding
        case Base64Rejected(message) =>
          error := Some(ErrorText(message));
        case AudioRejected(bytes, message) =>
          rawAudio := Some(bytes);
          error := Some(ErrorText(message));
        case Decoded(bytes, buffer) =>
          StoreAndPlay(bytes, buffer, ctx, teardown);
      }
      isLoading := false;
    }

    /** The end of `handleGenerate`'s `try` block: keep the raw bytes and the decoded buffer, then play. */
    method StoreAndPlay(bytes: Bytes, buffer: AudioBuffer, created: ContextId, teardown: Teardown)
      requires Valid() && Generating() && TeardownPossible(teardown)
      modifies this`source, this`isPlaying, this`log, this`host, this`audioContext, this`analyser, this`nextSession
      modifies this`hasAudioBuffer, this`rawAudio, this`audioBuffer
      ensures Valid() && isLoading && error.None?
      ensures hasAudioBuffer && rawAudio == Some(bytes) && audioBuffer == Some(buffer)
      ensures isPlaying && source == Some(old(nextSession)) && Audible() == {old(nextSession)}
      ensures host.pending == old(host.pending) + {old(nextSession)}
      ensures nextSession == old(nextSession) + 1
      ensures audioContext == (if old(audioContext).Some? then old(audioContext) else Some(created))
      ensures log == old(log) + TeardownCalls(old(source), teardown) + ContextCalls(old(audioContext), created)
                     + [StartSource(old(nextSession), audioContext.value, buffer)]
    {
      rawAudio := Some(bytes);
      audioBuffer := Some(buffer);
      hasAudioBuffer := true;
      PlayAudio(buffer, created, teardown);
    }

    /** The `ended` handler `playAudio` installs, as written: it clears the flag whichever source ended. */
    method OnEnded(id: SessionId)
      requires Valid() && id in host.pending
      modifies this`isPlaying, this`log, this`host
      ensures Valid() && !isPlaying
      ensures log == old(log) + [SourceEnded(id)]
      ensures Audible() == old(Audible()) - {id}
    {
      Record(SourceEnded(id));
      isPlaying := false;
    }

    /** The `ended` handler checking that the source that ended is still the current one. */
    method OnEndedGuarded(id: SessionId)
      requires Valid() && id in host.pending
      modifies this`source, this`isPlaying, this`log, this`host
      ensures Valid()
      ensures log == old(log) + [SourceEnded(id)]
      ensures Audible() == old(Audible()) - {id}
      ensures old(source) == Some(id) ==> source.None? && !isPlaying
      ensures old(source) != Some(id) ==> source == old(source) && isPlaying == old(isPlaying)
      ensures old(FlagMatchesAudio()) ==> FlagMatchesAudio()
    {
      Record(SourceEnded(id));
      if source == Some(id) {
        source := None;
        isPlaying := false;
      }
    }
  }

  /** A page that has generated its first result and is playing it. */
  method FirstResultPlaying() returns (studio: Studio)
    ensures fresh(studio) && studio.Valid() && studio.isPlaying && studio.FlagMatchesAudio()
    ensures studio.source == Some(0) && studio.audioBuffer.Some? && studio.nextSession == 1
    ensures 0 in studio.host.pending
  {
    studio := new Studio();
    studio.SetText("Hello");
    assert !IsJsWhitespace(studio.text[0]);
    var request := studio.BeginGenerate(Completes);
    studio.CompleteGenerate(Success("UklGRg=="), Decoded([0x52, 0x49, 0x46, 0x46], AudioBuffer(0)), 0, Completes);
  }

  /**
   * Press Stop, then Replay before the stopped source's `ended` event is
   * delivered: with the handler as written the page shows nothing playing
   * while the replayed session is audible.
   */
  method StaleEndedEvent() returns (studio: Studio)
    ensures studio.Valid() && studio.source == Some(1) && studio.Audible() == {1}
    ensures !studio.isPlaying && !studio.FlagMatchesAudio()
  {
    studio := FirstResultPlaying();
    studio.StopAudio(Completes);
    studio.HandleReplay(0, Completes);
    studio.OnEnded(0);
  }

  /** The same events with the guarded handler: the flag still tells the truth. */
  method StaleEndedEventGuarded() returns (studio: Studio)
    ensures studio.Valid() && studio.source == Some(1) && studio.Audible() == {1}
    ensures studio.isPlaying && studio.FlagMatchesAudio()
  {
    studio := FirstResultPlaying();
    studio.StopAudio(Completes);
    studio.HandleReplay(0, Completes);
    studio.OnEndedGuarded(0);
  }
  /** A session that is audible is the current source, and its `ended` event is still to come. */
  lemma AudibleSourcePending(studio: Studio)
    requires studio.Valid() && studio.Audible() != {}
    ensures studio.source.Some? && studio.Audible() == {studio.source.value}
    ensures studio.source.value in studio.host.pending
  {
  }

  /** The current session plays to its natural end: the handler as written then leaves the page silent and truthful. */
  method NaturalEnd(studio: Studio)
    requires studio.Valid() && studio.isPlaying && studio.FlagMatchesAudio()
    modifies studio`isPlaying, studio`log, studio`host
    ensures studio.Valid() && !studio.isPlaying && studio.Audible() == {} && studio.FlagMatchesAudio()
  {
    AudibleSourcePending(studio);
    studio.OnEnded(studio.source.value);
  }
}
