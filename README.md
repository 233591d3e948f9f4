# Speech studio core, modelled in Dafny

The speech studio is a single-page app. The user writes a script marked up with
expressive tags (`<whisper>`, `<break time="1s" />`, …), sends it to a speech
service, and plays back, replays or downloads the audio that comes back. This
project models three sequential pieces of it and proves properties about them.

- **Tag insertion** (`script_editor.dfy`, module `ScriptEditor`). The editor
  toolbar's `insertTag` splits the text at the selection and wraps the
  selection in a start tag and an end tag. It then computes where the cursor
  goes. `substring` is modelled with JavaScript's clamping and swapping of its
  arguments. The toolbar's eight tag pairs are constants, and each pair is
  proved balanced.
- **Response validation** (`gemini.dfy`, module `Gemini`). After the service
  call, `generateSpeech` runs a fixed chain of guards over the response. Each
  guard either throws one of five errors or lets the chain go on; at the end it
  returns the base64 audio payload. `Classify` models the chain over an
  abstract response and is proved against a declarative definition of a
  deliverable response. Each error is proved to happen exactly when its guard
  fires.
- **Playback and session controller** (`app.dfy`, module `App`, class
  `Studio`, over the host log in `audio_host.dfy`). This is the page's state:
  - the current buffer source and its analyser;
  - the lazily created audio context;
  - the stored decoded buffer and raw bytes;
  - the `isPlaying`, `hasAudioBuffer`, `isLoading` and `error` flags.

  The handlers change that state in source order. Web Audio nodes are session
  ids taken from a counter. A ghost log records every call made to the audio
  host and every `ended` event it fires. `Trace` folds the log into the host's
  state: the sessions started, the sessions still audible, and the sessions
  whose `ended` event is still to come.

  The invariant `Studio.Valid` says:
  - at most one session is audible, and it is the one the page references;
  - the audio context is created at most once.

  `handleGenerate` awaits the speech service, so it is split in two.
  `BeginGenerate` runs up to the `await`. `CompleteGenerate` runs afterwards
  and is given what the service and the two decoders produced.

Two details of a failed generation are kept as the code has them:
- After a failed generation `audioBufferRef` still holds the previous buffer:
  App.tsx:102 is its only write.
- When `decodeAudioData` throws, `rawAudioRef` keeps the bytes just decoded from
  base64 (App.tsx:98).

`hasAudioBuffer` is false in both cases, so Replay and Download are hidden
(components/Controls.tsx:53). `Studio.CompleteGenerate` states both.

The Web Audio API fires `ended` on a source after `stop()` as well as after a
natural end. The model therefore lets an `ended` event arrive for any session
whose event is still pending (`Studio.OnEnded`).

## Model

| member | source | states |
|---|---|---|
| ScriptEditor.Substring | components/ScriptEditor.tsx:39-41 | `substring` never yields more than the string, and within bounds it is exactly the slice |
| ScriptEditor.InsertTag | components/ScriptEditor.tsx:31-50 | no textarea gives no edit and every textarea gives one; for a valid selection the new text is prefix + start tag + selection + end tag + suffix, and the cursor sits just after the end tag |
| ScriptEditor.InsertTagLayout | components/ScriptEditor.tsx:39-50 | nothing is deleted (length is the old length plus both tags); the prefix and suffix are unchanged, each tag and the selection lie verbatim at their offsets, and the cursor is within the new text where the untouched suffix begins |
| ScriptEditor.PiecesInPlace | components/ScriptEditor.tsx:43 | each of the five concatenated pieces is found at its offset in the new text |
| ScriptEditor.InsertTagRemovable | components/ScriptEditor.tsx:39-50 | taking both inserted tags back out of the new text gives the original text |
| ScriptEditor.SkipPiece | components/ScriptEditor.tsx:39-43 | text that agrees with the original outside one inserted piece gives the original back once that piece is skipped |
| ScriptEditor.Toolbar | components/ScriptEditor.tsx:62-94 | the eight buttons with the captions and tag strings of the source; `ToolbarTagsBalanced` proves each pair balanced |
| ScriptEditor.BreakInsertionKeepsSelection | components/ScriptEditor.tsx:31-68 | with the default empty end tag the selection is kept, not replaced: the cursor lands after the selection and removing the tag gives the original text back |
| ScriptEditor.NameHasNoDelimiter | components/ScriptEditor.tsx:76-79 | a tag opening element `name` has no delimiter within the name |
| ScriptEditor.OpensUnique | components/ScriptEditor.tsx:76-91 | a start tag opens at most one element name |
| ScriptEditor.WrapperPaired | components/ScriptEditor.tsx:76-91 | a button whose start tag begins `<name` plus a delimiter and whose end tag is `</name>` is well paired |
| ScriptEditor.PauseButtonsPaired | components/ScriptEditor.tsx:63-68 | both pause buttons insert a self-closing `break` element and no end tag |
| ScriptEditor.WhisperHappyButtonsPaired | components/ScriptEditor.tsx:76-77 | the Whisper and Happy buttons' end tags close the elements their start tags open |
| ScriptEditor.SadExcitedButtonsPaired | components/ScriptEditor.tsx:78-79 | the Sad and Excited buttons' end tags close the elements their start tags open |
| ScriptEditor.ReadAsButtonPaired | components/ScriptEditor.tsx:86 | the Read As button's `</sub>` closes the `sub` element its start tag opens |
| ScriptEditor.IpaButtonPaired | components/ScriptEditor.tsx:91 | the IPA button's `</phoneme>` closes the `phoneme` element its start tag opens |
| ScriptEditor.ToolbarTagsBalanced | components/ScriptEditor.tsx:62-94 | every toolbar button's tags are balanced |
| Gemini.Classify | services/gemini.ts:26-54 | the guard chain accepts exactly the deliverable responses (first candidate with a normal finish, first part with non-empty inline data), and the payload it returns is that part's data, unchanged and non-empty |
| Gemini.NoCandidateRejected | services/gemini.ts:26-30 | the no-candidates error happens exactly when there is no first candidate |
| Gemini.AbnormalFinishRejected | services/gemini.ts:33-35 | a first candidate whose finish reason is present, non-empty and not `STOP` fails naming that reason; an absent, empty or `STOP` reason is never a stop error |
| Gemini.NoPartRejected | services/gemini.ts:37-41 | the no-content-parts error happens exactly when a normally finished first candidate has no first part |
| Gemini.TextRefusalRejected | services/gemini.ts:44-46 | the text-instead-of-audio error happens exactly when the first part has non-empty text and no inline data; text together with inline data is not this error |
| Gemini.MissingAudioRejected | services/gemini.ts:48-52 | the no-audio-data error happens exactly when the first part is not a text-only refusal and its inline data is missing or has missing or empty data |
| Gemini.LaterCandidatesIgnored | services/gemini.ts:26 | candidates after the first never change the outcome |
| Gemini.LaterPartsIgnored | services/gemini.ts:37 | parts after the first never change the outcome |
| Gemini.Message | services/gemini.ts:29-51 | the five messages thrown by the guards, word for word, and a service error's own message; `RejectionMessageNonEmpty`, `StoppedMessageNamesReason` and `RefusalMessageQuotesText` pin them down |
| Gemini.RejectionMessageNonEmpty | services/gemini.ts:29-51 | every rejection carries a non-empty message |
| Gemini.StoppedMessageNamesReason | services/gemini.ts:34 | the stop message ends with the finish reason |
| Gemini.RefusalMessageQuotesText | services/gemini.ts:45 | the refusal message quotes the model's text verbatim between double quotes |
| Gemini.GenerateSpeech | services/gemini.ts:26-58 | a failed service call is rethrown as is, with no retry; otherwise the result succeeds exactly for deliverable responses, returning `Classify`'s payload, and every other response is rejected with `Classify`'s own error |
| AudioHost.RunAppend | App.tsx:44-80 | running a log and then one more call is the same as running the longer log |
| AudioHost.TraceAppend | App.tsx:44-80 | appending a call to the host log applies it to the state reached so far |
| AudioHost.RunConsistent | App.tsx:44-80 | from a consistent host, any sequence of calls keeps every audible source among those whose `ended` event is pending, and those among the started ones |
| AudioHost.TraceConsistent | App.tsx:44-80 | every host log leaves the host consistent |
| App.IsJsWhitespace | App.tsx:83 | the white space and line terminators `trim` removes |
| App.TrimStart | App.tsx:83 | drops leading white space; `TrimStartBlank` proves it empties exactly the blank strings |
| App.TrimEnd | App.tsx:83 | drops trailing white space; `TrimEndKeepsHead` proves it keeps a non-white first character |
| App.Trim | App.tsx:83 | `text.trim()`; `TrimEmptyIffBlank` proves it is empty exactly for blank scripts |
| App.TrimStartBlank | App.tsx:83 | trimming the front leaves nothing exactly when every character is white space, and otherwise leaves a non-white first character |
| App.TrimEndKeepsHead | App.tsx:83 | trimming the end never removes a non-white first character |
| App.TrimEmptyIffBlank | App.tsx:83 | `text.trim()` is empty exactly when the script has no character other than white space |
| App.ErrorText | App.tsx:108 | the error banner shows the error's message when it has one and a non-empty fallback otherwise |
| App.FailureMessage | App.tsx:106-108 | the message of what a failed generation threw: the service's error message, or the decoder's; none on success |
| App.RejectionShownVerbatim | App.tsx:108 | every rejection of the speech service is shown word for word |
| App.Studio.constructor | App.tsx:9-30 | the page opens with the default script and voice, nothing loading, playing or stored, no context and an empty host log |
| App.Studio.SetText | App.tsx:170 | the editor replaces the script |
| App.Studio.SetVoice | App.tsx:220 | the selector replaces the voice |
| App.Studio.InitAudioContext | App.tsx:33-42 | a context is created only when none exists and is reused by every later call |
| App.Studio.StopAudio | App.tsx:44-55 | afterwards there is no current source, `isPlaying` is false and nothing is audible; the old source gets `stop()` then `disconnect()`, a throw from either is swallowed, and with no source nothing is called |
| App.Studio.PlayAudio | App.tsx:57-80 | the previous source is torn down before the new session starts; afterwards exactly one session is audible, it is new, it is the current source and the analyser's, and `isPlaying` is true |
| App.Studio.HandleReplay | App.tsx:114-118 | with no stored buffer nothing changes; otherwise the stored buffer is played again without decoding |
| App.Studio.HandleDownload | App.tsx:120-122 | a WAV export is produced exactly when raw bytes are stored, from those bytes at 24000 Hz |
| App.Studio.BeginGenerate | App.tsx:82-92 | a blank script changes nothing; otherwise the error is cleared, loading starts, playback stops, the stored raw bytes and flag are cleared, and the request carries the script and voice |
| App.Studio.CompleteGenerate | App.tsx:92-111 | on success the raw bytes and buffer are stored, `hasAudioBuffer` is set and the new buffer plays; on any failure the thrown message (or the fallback) is shown, `hasAudioBuffer` stays false and playback (source, analyser, flag) is untouched; loading ends either way; the context exists afterwards whenever the service answered |
| App.Studio.StoreAndPlay | App.tsx:98-104 | the raw bytes and decoded buffer are stored and the buffer starts playing |
| App.Studio.OnEnded | App.tsx:73-75 | the `ended` handler as written: the flag is cleared whichever session ended |
| App.Studio.OnEndedGuarded | App.tsx:73-75 | the `ended` handler checking that the session that ended is the current one: only then are the source and flag cleared, and the flag keeps telling the truth about the host |
| App.FirstResultPlaying | App.tsx:82-104 | a fresh page that generates successfully is playing session 0 |
| App.StaleEndedEvent | App.tsx:57-118 | Stop, then Replay before the stopped session's `ended` arrives: as written, the page shows nothing playing while session 1 is audible |
| App.StaleEndedEventGuarded | App.tsx:57-118 | the same events with the guarded handler leave the page showing session 1 playing |
| App.AudibleSourcePending | App.tsx:73-77 | a session that is audible is the current source, and its `ended` event is still to come |
| App.NaturalEnd | App.tsx:73-75 | when the current session plays to its end, the handler as written leaves nothing audible and the flag false and truthful |

## Findings

| source | as written | input that shows it | evidently intended | confidence | as-written member | corrected member |
|---|---|---|---|---|---|---|
| App.tsx:73-75 | the `ended` handler installed for every source runs `setIsPlaying(false)` without checking that the source is still `sourceNodeRef.current` | generate; press Stop; press Replay before the stopped source's `ended` event is delivered. The `ended` of session 0 then clears `isPlaying` while session 1 plays | clear the flag (and the reference) only when the source that ended is the current one | low: it needs the old `ended` event to arrive after the Replay click. Not executed | App.Studio.OnEnded, App.StaleEndedEvent | App.Studio.OnEndedGuarded, App.StaleEndedEventGuarded |

## Left out

- The `services/audio.ts` functions are not part of this model: `decodeBase64`, `decodeAudioData`, `getAudioContext` and `createWavBlob`. What they produce enters as parameters: `Decoding`, the `created` context, and the `WavExport` handed to the WAV writer. PCM decoding and WAV header writing are not modelled.
- The speech SDK client and its network call (services/gemini.ts:1-24) are left out: a foreign library and I/O. `GenerateSpeech` takes the call's outcome as a parameter, and the model does not say what is sent. The request (script and voice) is returned by `Studio.BeginGenerate`.
- `console.error` logging (services/gemini.ts:56, App.tsx:107) is left out: output only.
- Web Audio graph details are not modelled: `createBufferSource`, `createAnalyser`, `fftSize = 256`, `connect`, `destination`, `start(0)` and `resume()` of a suspended context (App.tsx:38-39, 61-71, 78). One `StartSource` host call stands for the whole session set-up.
- The unmount cleanup (App.tsx:135-144) is left out: component lifecycle and `close()` of the context.
- Error values that are not `Error` objects are left out: every thrown value is taken to carry a string message, and an empty message falls back to the default text.
- Studio.OnEndedGuarded: clears the current source when its own session ends, which the code as written never does (App.tsx:73-75). It is the corrected handler, not a model of the code.
- Studio.StopAudio: when `stop()` throws, the model takes it that nothing is audible (`TeardownPossible`). In the Web Audio API `stop()` throws only when `start()` was never called, which never holds for these sources, so the catch is defensive. The case of a throwing `stop()` on a playing source is not modelled.
- Async interleaving of overlapping generations is not modelled: the Generate button is disabled while loading (components/Controls.tsx:94). Other handlers may run between `BeginGenerate` and `CompleteGenerate`.
- CompleteGenerate: folds the second `await` (`decodeAudioData`, App.tsx:100) into the same atomic step as the first's result. No handler runs in the state between App.tsx:98 and App.tsx:102, where the raw bytes are stored and the context exists but the buffer is not yet stored. Every handler that reads or writes the raw bytes, the stored buffer or the source is hidden or disabled there (components/Controls.tsx:53, 94). The editor (App.tsx:170), the voice selector (components/Controls.tsx:33-35) and a late `ended` event from the session stopped at App.tsx:87 may run, but touch none of that state.
- Text positions: `selectionStart`, `selectionEnd`, `substring` and `length` (components/ScriptEditor.tsx:35-50) count UTF-16 code units. The model counts its own characters (Unicode scalar values) and lets them stand for code units. A script with characters outside the Basic Multilingual Plane, such as emoji, gets different lengths and cursor numbers in the browser. A selection boundary inside a surrogate pair cannot be expressed.
- components/Controls.tsx is left out: button visibility and toggling are presentation.
- components/Visualizer.tsx is left out: floating-point bar geometry and animation-frame scheduling.
- Rendering, the download anchor and Blob URL (App.tsx:123-130), the download file name with its clock value (App.tsx:126), and the focus restoration after an insertion (components/ScriptEditor.tsx:48-52) are DOM side effects and are left out. The cursor position computed at components/ScriptEditor.tsx:50 is modelled.
