# Subwave: transcription decisions and the recording hook

Subwave is a mobile app that records station announcements, sends the audio
to Google Speech-to-Text and shows the text. This project models its two pieces
of sequential decision logic, with every platform and network call turned into
an input:

- `SpeechToText` (`speech_to_text.dfy`) models `transcribeAudioWithGoogle` and
  `mockTranscription`. The function first checks the API key. A missing or empty
  key gives a fixed message. A key without the `AIza` prefix gives a canned
  announcement after a simulated delay. Next the audio is read as base64. Then
  LINEAR16, FLAC and MP3 are tried in that order, one request each. The loop
  stops on a usable transcript or on the service's "API key not valid" error.
  If all three fail, the result is a fixed message. The method
  `TranscribeAudioWithGoogle` keeps the source's loop with early returns. Its
  postcondition equates its result with `Transcription`, a reference definition
  with no loop: the requests sent are the prefix of the encoding list up to the
  first reply that stops (`FirstStop`). The lemmas state the source's promises
  about that definition.
- `AudioRecording` (`audio_recorder.dfy`) models the `useAudioRecorder` hook.
  It is a class with the hook's seven pieces of state (`isRecording`,
  `recording`, `audioUri`, `error`, `isPlaying`, `recordingRef`, `soundRef`).
  There is one method per operation, and each branch's new state is given as
  an update of the old `State()` snapshot. `Valid()` is the invariant every
  operation keeps. `Recording` and `Sound` are opaque objects allocated where
  the source creates them: a `Recording` only once `setAudioModeAsync` has
  succeeded, and a `Sound` only once `createAsync` has succeeded.

Inputs that stand for the outside world:

- the configured key is an `Option<string>`;
- the base64 read is an `Option<string>`, where `None` means that
  `readAsStringAsync` or `getInfoAsync` threw;
- `replies[i]` is the network's answer to the i-th request, if that request is
  made, and `Threw` stands for `fetch` or `response.json()` throwing;
- `Math.random()` is a real in `[0, 1)`, and the pick is
  `Floor(random * 10)` computed in exact real arithmetic (the source computes
  it in doubles);
- the 2000 ms sleeps are the ghost out-parameter `delayed` (the field
  `Outcome.delayed` in the reference definition);
- the permission answer (granted, not granted, or the request rejecting), each
  expo-av call that may throw, and the value of `getURI()` are method
  parameters.

## Behaviour of the code worth noting

- The hook keeps flags rather than one session state. A permission that is not
  granted only sets `error` (hooks/useAudioRecorder.ts:22-26).
- The permission request runs outside the `try` (hooks/useAudioRecorder.ts:21).
  If it rejects, `startRecording` rejects to its caller with `error` already
  cleared.
- If `stopAndUnloadAsync` throws, the recording stays in the ref and
  `isRecording` stays true (hooks/useAudioRecorder.ts:54, 62-65).
- When `getURI()` gives null or `""`, a successful stop leaves `audioUri` null
  with no error (hooks/useAudioRecorder.ts:56). A finished recording can thus
  have no URI (`StartThenStop`).
- A stop with no recording in the ref only clears `error`
  (hooks/useAudioRecorder.ts:50-53). It therefore also wipes the message of a
  start that failed just before.

## Model

| member | source | states |
|---|---|---|
| `SpeechToText.MockTranscription` | services/speechToText.ts:7-21 | the mock result is always one of the ten canned announcements |
| `SpeechToText.MockPicksByTenths` | services/speechToText.ts:20 | a draw in `[i/10, (i+1)/10)` picks announcement `i`, so each one gets an equal share of the draws |
| `SpeechToText.EveryAnnouncementReachable` | services/speechToText.ts:8-20 | every one of the ten announcements is returned for some draw in `[0, 1)` |
| `SpeechToText.RequestFor` | services/speechToText.ts:77-88 | a request goes to the given endpoint and carries the given audio with the encoding and sample rate of its config |
| `SpeechToText.Sent` | services/speechToText.ts:67-88 | the first `n` requests are one per encoding, in list order, each built from that encoding's config and the same audio |
| `SpeechToText.ContainsIffOccurs` | services/speechToText.ts:106 | the substring test used for the invalid-key message holds exactly when the marker occurs at some position |
| `SpeechToText.Classify` | services/speechToText.ts:104-140 | a non-OK reply is the invalid-key signal exactly when its `error.message` contains "API key not valid", and an HTTP error otherwise; a thrown request is a transport error; an OK reply gives a transcript exactly when `results[0].alternatives[0].transcript` is present and non-empty, and then it is that transcript |
| `SpeechToText.FirstStop` | services/speechToText.ts:73-141 | the index of the first reply that ends the loop: no earlier reply stops it, and the one at the index does (unless all were tried) |
| `SpeechToText.FirstStopIsFirst` | services/speechToText.ts:73-141 | the stopping index is the only index with those two properties |
| `SpeechToText.Transcription` | services/speechToText.ts:30-145 | at most three requests are made, and a delayed call always returns a canned announcement |
| `SpeechToText.TranscribeAudioWithGoogle` | services/speechToText.ts:30-145 | the loop with early returns yields exactly the reference outcome: the same string, the same requests in order, and the same delay flag |
| `SpeechToText.MissingKeyMakesNoRequest` | services/speechToText.ts:32-36 | a missing or empty key returns "(Google API key missing)" with no request and no delay |
| `SpeechToText.MalformedKeyGivesMock` | services/speechToText.ts:39-43 | a key not starting with "AIza" makes no request, is delayed, and returns a canned announcement |
| `SpeechToText.ReadFailureMakesNoRequest` | services/speechToText.ts:47-64 | a failed audio read returns "(Failed to read audio file)" with no request and no delay |
| `SpeechToText.RequestsFollowEncodingOrder` | services/speechToText.ts:67-98 | requests are sent only after both key checks and a successful read; there are at most three; request `j` uses the `j`-th of LINEAR16, FLAC, MP3 at 16000 Hz with `en-US`, punctuation on, `latest_long`, the keyed endpoint and the read audio |
| `SpeechToText.RejectedKeyGivesMock` | services/speechToText.ts:104-112 | when the first stopping reply is the invalid-key error, the call ends at that attempt, is delayed, and returns a canned announcement |
| `SpeechToText.FirstTranscriptWins` | services/speechToText.ts:114-136 | the first usable transcript is returned verbatim, is non-empty, and no later encoding is tried |
| `SpeechToText.ExhaustedGivesNoTranscription` | services/speechToText.ts:73-144 | when no reply stops the loop, exactly three requests go out, in order LINEAR16, FLAC, MP3, and the no-transcription message is returned without delay |
| `SpeechToText.ResultIsAccountedFor` | services/speechToText.ts:30-145 | the call is delayed exactly on a malformed key or a rejected key, and then returns the mock pick; otherwise the result is a fixed message, an announcement, or the transcript of a reply that was actually requested |
| `AudioRecording.OrNull` | hooks/useAudioRecorder.ts:56 | the or-null test on the URI keeps it exactly when it is present and not empty |
| `AudioRecording.AudioRecorder.constructor` | hooks/useAudioRecorder.ts:10-16 | a fresh hook is idle: not recording or playing, with no URI, no error and no handles |
| `AudioRecording.AudioRecorder.StartRecording` | hooks/useAudioRecorder.ts:19-46 | a rejected permission request reaches the caller and leaves only `error` changed, to null; a permission not granted changes only `error`, to the permission message; a failed audio-mode, prepare or start call changes only `error`, to "Failed to start recording."; success stores a fresh recording in both `recording` and the ref, sets `isRecording`, and clears `audioUri` and `error` |
| `AudioRecording.AudioRecorder.StopRecording` | hooks/useAudioRecorder.ts:49-66 | with no recording in the ref only `error` changes, to null; if `stopAndUnloadAsync` throws only `error` changes, to "Failed to stop recording."; otherwise `audioUri` becomes the URI or null, both handles are dropped, `isRecording` is false, and `error` is set only if the final audio-mode call threw |
| `AudioRecording.AudioRecorder.PlayRecording` | hooks/useAudioRecorder.ts:69-96 | with no URI only `error` changes, to "No recording to play."; a failure while unloading or creating sets the play error and turns playback off; otherwise a fresh sound is in `soundRef`, and playback is on unless `playAsync` threw |
| `AudioRecording.AudioRecorder.StopPlaying` | hooks/useAudioRecorder.ts:99-110 | if stopping or unloading the current sound throws, only `error` changes; otherwise `soundRef` is null and `isPlaying` false, nothing else changes |
| `AudioRecording.AudioRecorder.Reset` | hooks/useAudioRecorder.ts:113-124 | from any state, returns to the idle state and establishes the invariant |
| `AudioRecording.ResetTwice` | hooks/useAudioRecorder.ts:113-124 | a second reset right after a first leaves the same state |
| `AudioRecording.StartThenStop` | hooks/useAudioRecorder.ts:19-66 | from a hook that is not recording, a successful start and stop ends with the URI `getURI()` gave (or null) and no error; a failed or rejected start followed by a stop leaves everything as before except that `error` is null |

## Left out

- Logging (`console.*`) and the `Alert` dialogs are not modelled: they have no effect on the returned values or the hook's state.
- SpeechToText.MockPicksByTenths: holds of exact reals, not of doubles. `Math.random() * 10` is rounded in the source, so a draw just below a tenth can pick the next announcement. For example, the double nearest 0.3 times 10 is exactly 3 in JavaScript. `MockTranscription` computes the product in exact real arithmetic as well.
- `fetch` has no time-out (services/speechToText.ts:92). A request that never settles blocks the call forever, and no string is returned. The model gives every request that is made a reply.
- The extension and file-info lookups at services/speechToText.ts:53-60 only log. A throw from `getInfoAsync` is folded into the failed-read input.
- The `audioUri` argument of `transcribeAudioWithGoogle` is used only to read the file, which is an input here, so the method does not take it.
- HTTP method, headers and `JSON.stringify` are not modelled. A request is its endpoint and its body as a datatype.
- JSON values of unexpected types, such as a non-string `transcript` or a non-array `results`, are not modelled. Each field is a well-typed `Option`.
- The options passed to `setAudioModeAsync` and the recording preset `LOW_QUALITY` configure the platform and hold no hook state.
- The playback-finished callback at hooks/useAudioRecorder.ts:85-89 is asynchronous and event-driven. Its effect, `isPlaying := false`, would keep `Valid()`.
- `reset` starts the sound's `unloadAsync()` without awaiting it. The model drops the handle and ignores the unobserved promise.
- React state batching, stale closures and overlapping calls are left out. Each operation is atomic and reads the current state.
- `App.tsx` (rendering, text-to-speech and the effect that starts transcription) and `app.config.js` (environment lookup) are UI and configuration, not part of this model.
