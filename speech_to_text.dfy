/**
 * The transcription service: how `transcribeAudioWithGoogle` turns an API key,
 * the captured audio and the speech service's replies into one string.
 *
 * Everything the function gets from outside is a parameter here: the configured
 * key, the outcome of reading the audio file as base64, the reply the network
 * gives to each request that is made, and the value `Math.random()` returns.
 */
module SpeechToText {
  import opened Wrappers

  // ---------------------------------------------------------------------------
  // Constants
  // ---------------------------------------------------------------------------

  /** The canned subway announcements the mock transcription picks from. */
  const Announcements: seq<string> := [
    "The next train to downtown will arrive in 3 minutes.",
    "Please stand clear of the closing doors.",
    "This train is now departing. Thank you for riding with us.",
    "Attention passengers, there is a 10 minute delay on the red line.",
    "Please keep your belongings with you at all times.",
    "The station is now closing. Please exit the platform.",
    "Service has been restored on the blue line.",
    "Please use the stairs or elevator to access the platform.",
    "This is a reminder to validate your ticket before boarding.",
    "The train is now approaching the platform."
  ]

  const KeyMissingMessage: string := "(Google API key missing)"
  const ReadFailedMessage: string := "(Failed to read audio file)"
  const NoTranscriptionMessage: string :=
    "(No transcription found. Try recording longer audio with clear speech.)"

  /** Google API keys start with this prefix; other keys are taken as malformed. */
  const KeyPrefix: string := "AIza"
  /** The phrase in an error reply that marks the key as rejected by the service. */
  const InvalidKeyMarker: string := "API key not valid"
  /** The endpoint, to which the key is appended as the `key` query parameter. */
  const EndpointPrefix: string := "https://speech.googleapis.com/v1/speech:recognize?key="

  const LanguageCode: string := "en-US"
  const ModelName: string := "latest_long"
  const SampleRateHertz: nat := 16000

  // ---------------------------------------------------------------------------
  // Requests
  // ---------------------------------------------------------------------------

  datatype Encoding = LINEAR16 | FLAC | MP3

  datatype EncodingConfig = EncodingConfig(encoding: Encoding, sampleRateHertz: nat, description: string)

  /** The encodings tried, in this order. */
  const EncodingConfigs: seq<EncodingConfig> := [
    EncodingConfig(LINEAR16, SampleRateHertz, "LINEAR16"),
    EncodingConfig(FLAC, SampleRateHertz, "FLAC"),
    EncodingConfig(MP3, SampleRateHertz, "MP3")
  ]

  /** The `config` object of a recognize request. */
  datatype RecognitionConfig = RecognitionConfig(
    encoding: Encoding,
    sampleRateHertz: nat,
    languageCode: string,
    enableAutomaticPunctuation: bool,
    model: string)

  /** The JSON body of a recognize request: `config` and `audio.content`. */
  datatype RequestBody = RequestBody(config: RecognitionConfig, audioContent: string)

  /** One POST: the URL it goes to and the body it carries. */
  datatype Request = Request(endpoint: string, body: RequestBody)

  function RequestFor(endpoint: string, config: EncodingConfig, audioContent: string): (r: Request)
    ensures r.endpoint == endpoint && r.body.audioContent == audioContent
    ensures r.body.config.encoding == config.encoding && r.body.config.sampleRateHertz == config.sampleRateHertz
  {
    Request(endpoint,
      RequestBody(
        RecognitionConfig(config.encoding, config.sampleRateHertz, LanguageCode, true, ModelName),
        audioContent))
  }

  /** The first `n` requests, one per encoding in order. */
  function Sent(endpoint: string, audioContent: string, n: nat): (s: seq<Request>)
    requires n <= |EncodingConfigs|
    ensures |s| == n
    ensures forall j :: 0 <= j < n ==> s[j] == RequestFor(endpoint, EncodingConfigs[j], audioContent)
  {
    if n == 0 then [] else Sent(endpoint, audioContent, n - 1) + [RequestFor(endpoint, EncodingConfigs[n - 1], audioContent)]
  }

  // ---------------------------------------------------------------------------
  // Replies
  // ---------------------------------------------------------------------------

  /** An entry of `alternatives`; `transcript` is None when the property is absent. */
  datatype Alternative = Alternative(transcript: Option<string>)

  /** An entry of `results`; `alternatives` is None when the property is absent. */
  datatype SpeechResult = SpeechResult(alternatives: Option<seq<Alternative>>)

  /**
   * What one attempt yields. `Threw` stands for `fetch` rejecting or
   * `response.json()` throwing; `Replied` for a parsed reply, with `ok` the
   * HTTP status check, `errorMessage` the field `error.message` and `results`
   * the field `results` (each None when absent).
   */
  datatype Response =
    | Threw
    | Replied(ok: bool, errorMessage: Option<string>, results: Option<seq<SpeechResult>>)

  /** How the loop reads one reply. */
  datatype Verdict =
    | InvalidKey
    | HttpError
    | TransportError
    | NoResults
    | NoAlternatives
    | EmptyTranscript
    | Transcript(text: string)

  /** A verdict that ends the loop: the invalid-key fallback or a usable transcript. */
  predicate Stops(v: Verdict)
  {
    v.InvalidKey? || v.Transcript?
  }

  predicate StartsWith(s: string, prefix: string)
  {
    |prefix| <= |s| && s[..|prefix|] == prefix
  }

  /** `s.includes(part)`, searched from the left. */
  predicate Contains(s: string, part: string)
    decreases |s|
  {
    StartsWith(s, part) || (|s| > 0 && Contains(s[1..], part))
  }

  predicate OccursAt(s: string, part: string, i: int)
  {
    0 <= i && i + |part| <= |s| && s[i..i + |part|] == part
  }

  /** The left-to-right search finds `part` exactly when it occurs at some position. */
  lemma {:induction false} ContainsIffOccurs(s: string, part: string)
    ensures Contains(s, part) <==> exists i :: OccursAt(s, part, i)
    decreases |s|
  {
    if StartsWith(s, part) {
      assert OccursAt(s, part, 0);
    } else if |s| > 0 {
      ContainsIffOccurs(s[1..], part);
      if exists i :: OccursAt(s[1..], part, i) {
        var i :| OccursAt(s[1..], part, i);
        assert s[1..][i..i + |part|] == s[i + 1..i + 1 + |part|];
        assert OccursAt(s, part, i + 1);
      }
      if exists i :: OccursAt(s, part, i) {
        var i :| OccursAt(s, part, i);
        assert i != 0 by { assert s[..|part|] == s[0..0 + |part|]; }
        assert s[1..][i - 1..i - 1 + |part|] == s[i..i + |part|];
        assert OccursAt(s[1..], part, i - 1);
      }
    }
  }

  /**
   * How the loop of services/speechToText.ts reads one reply: a non-OK reply is the invalid-key
   * signal when its error message mentions it and an HTTP error otherwise; an OK
   * reply is usable only when its first result's first alternative carries a
   * non-empty transcript.
   */
  function Classify(r: Response): (v: Verdict)
    ensures r.Threw? ==> v == TransportError
    ensures v == InvalidKey <==>
      r.Replied? && !r.ok && r.errorMessage.Some? && Contains(r.errorMessage.value, InvalidKeyMarker)
    ensures v == HttpError <==>
      r.Replied? && !r.ok && !(r.errorMessage.Some? && Contains(r.errorMessage.value, InvalidKeyMarker))
    ensures v.Transcript? ==>
      r.Replied? && r.ok && v.text != "" &&
      r.results.Some? && |r.results.value| > 0 &&
      r.results.value[0].alternatives.Some? && |r.results.value[0].alternatives.value| > 0 &&
      r.results.value[0].alternatives.value[0].transcript == Some(v.text)
    ensures
      r.Replied? && r.ok &&
      r.results.Some? && |r.results.value| > 0 &&
      r.results.value[0].alternatives.Some? && |r.results.value[0].alternatives.value| > 0 &&
      r.results.value[0].alternatives.value[0].transcript.Some? &&
      r.results.value[0].alternatives.value[0].transcript.value != "" ==>
        v == Transcript(r.results.value[0].alternatives.value[0].transcript.value)
  {
    match r
    case Threw => TransportError
    case Replied(ok, message, results) =>
      if !ok then
        (if message.Some? && Contains(message.value, InvalidKeyMarker) then InvalidKey else HttpError)
      else if results.None? || |results.value| == 0 then NoResults
      else
        var first := results.value[0];
        if first.alternatives.None? || |first.alternatives.value| == 0 then NoAlternatives
        else
          var transcript := first.alternatives.value[0].transcript;
          if transcript.None? || transcript.value == "" then EmptyTranscript
          else Transcript(transcript.value)
  }

  /**
   * The index of the first reply that ends the loop, or the length when none
   * does.
   */
  function FirstStop(replies: seq<Response>): (k: nat)
    ensures k <= |replies|
    ensures forall j :: 0 <= j < k ==> !Stops(Classify(replies[j]))
    ensures k < |replies| ==> Stops(Classify(replies[k]))
  {
    if replies == [] then 0
    else if Stops(Classify(replies[0])) then 0
    else 1 + FirstStop(replies[1..])
  }

  // ---------------------------------------------------------------------------
  // The mock transcription
  // ---------------------------------------------------------------------------

  /** `announcements[Math.floor(Math.random() * announcements.length)]`, with `random` the draw. */
  function MockTranscription(random: real): (r: string)
    requires 0.0 <= random < 1.0
    ensures r in Announcements
  {
    Announcements[(random * (|Announcements| as real)).Floor]
  }

  /** Each announcement is picked by exactly one tenth of the draws. */
  lemma MockPicksByTenths(random: real, i: int)
    requires 0 <= i < |Announcements|
    requires i as real <= random * (|Announcements| as real) < (i + 1) as real
    ensures 0.0 <= random < 1.0 && MockTranscription(random) == Announcements[i]
  {
  }

  /** No announcement is out of reach of the pick. */
  lemma EveryAnnouncementReachable(i: int)
    requires 0 <= i < |Announcements|
    ensures exists random: real :: 0.0 <= random < 1.0 && MockTranscription(random) == Announcements[i]
  {
    var random := i as real / (|Announcements| as real);
    MockPicksByTenths(random, i);
  }

  // ---------------------------------------------------------------------------
  // The whole procedure
  // ---------------------------------------------------------------------------

  /** What one call produces: the returned string, the requests sent, and whether it slept 2000 ms. */
  datatype Outcome = Outcome(text: string, requests: seq<Request>, delayed: bool)

  predicate KeyMissing(apiKey: Option<string>)
  {
    apiKey.None? || apiKey.value == ""
  }

  /**
   * Reference definition of `transcribeAudioWithGoogle`, stated without the
   * loop: the requests sent are the encodings up to and including the first
   * reply that stops (all three when none does), and the result follows from
   * that reply.
   */
  function Transcription(apiKey: Option<string>, audio: Option<string>, replies: seq<Response>, random: real): (o: Outcome)
    requires |replies| == |EncodingConfigs|
    requires 0.0 <= random < 1.0
    ensures |o.requests| <= |EncodingConfigs|
    ensures o.delayed ==> o.text in Announcements
  {
    if KeyMissing(apiKey) then Outcome(KeyMissingMessage, [], false)
    else if !StartsWith(apiKey.value, KeyPrefix) then Outcome(MockTranscription(random), [], true)
    else if audio.None? then Outcome(ReadFailedMessage, [], false)
    else
      var endpoint := EndpointPrefix + apiKey.value;
      var k := FirstStop(replies);
      if k == |EncodingConfigs| then
        Outcome(NoTranscriptionMessage, Sent(endpoint, audio.value, k), false)
      else
        var v := Classify(replies[k]);
        if v.Transcript? then Outcome(v.text, Sent(endpoint, audio.value, k + 1), false)
        else Outcome(MockTranscription(random), Sent(endpoint, audio.value, k + 1), true)
  }

  /**
   * `transcribeAudioWithGoogle`: key checks, the audio read, then one request
   * per encoding until a reply stops the loop.
   *
   * `apiKey` is the configured key (None when undefined); `audio` is the base64
   * content read from the recording, None when reading it or its file info
   * failed; `replies[i]` is what the network answers to the i-th request, if
   * that request is made; `random` is the value of `Math.random()`.
   */
  method TranscribeAudioWithGoogle(apiKey: Option<string>, audio: Option<string>, replies: seq<Response>, random: real)
    returns (text: string, requests: seq<Request>, ghost delayed: bool)
    requires |replies| == |EncodingConfigs|
    requires 0.0 <= random < 1.0
    ensures text == Transcription(apiKey, audio, replies, random).text
    ensures requests == Transcription(apiKey, audio, replies, random).requests
    ensures delayed == Transcription(apiKey, audio, replies, random).delayed
  {
    requests, delayed := [], false;
    if apiKey.None? || apiKey.value == "" {
      text := KeyMissingMessage;
      return;
    }
    var key := apiKey.value;
    if !StartsWith(key, KeyPrefix) {
      delayed := true;
      text := MockTranscription(random);
      return;
    }
    var endpoint := EndpointPrefix + key;

    var base64Audio := "";
    if audio.None? {
      text := ReadFailedMessage;
      return;
    }
    base64Audio := audio.value;

    var i := 0;
    while i < |EncodingConfigs|
      invariant i <= |EncodingConfigs|
      invariant requests == Sent(endpoint, base64Audio, i)
      invariant forall j :: 0 <= j < i ==> !Stops(Classify(replies[j]))
    {
      var config := EncodingConfigs[i];
      requests := requests + [RequestFor(endpoint, config, base64Audio)];
      var verdict := Classify(replies[i]);
      if verdict == InvalidKey {
        delayed := true;
        text := MockTranscription(random);
        return;
      }
      if verdict.Transcript? {
        text := verdict.text;
        return;
      }
      i := i + 1;
    }
    text := NoTranscriptionMessage;
  }

  // ---------------------------------------------------------------------------
  // Properties of the procedure
  // ---------------------------------------------------------------------------

  /** A missing or empty key gives the missing-key message, at once and without a request. */
  lemma MissingKeyMakesNoRequest(apiKey: Option<string>, audio: Option<string>, replies: seq<Response>, random: real)
    requires |replies| == |EncodingConfigs| && 0.0 <= random < 1.0
    requires KeyMissing(apiKey)
    ensures Transcription(apiKey, audio, replies, random) == Outcome(KeyMissingMessage, [], false)
  {
  }

  /** A key without the Google prefix gives a canned announcement after the delay, without a request. */
  lemma MalformedKeyGivesMock(apiKey: Option<string>, audio: Option<string>, replies: seq<Response>, random: real)
    requires |replies| == |EncodingConfigs| && 0.0 <= random < 1.0
    requires !KeyMissing(apiKey) && !StartsWith(apiKey.value, KeyPrefix)
    ensures var o := Transcription(apiKey, audio, replies, random);
      o.requests == [] && o.delayed && o.text == MockTranscription(random) && o.text in Announcements
  {
  }

  /** A failed read gives the read-failure message without a request. */
  lemma ReadFailureMakesNoRequest(apiKey: Option<string>, replies: seq<Response>, random: real)
    requires |replies| == |EncodingConfigs| && 0.0 <= random < 1.0
    requires !KeyMissing(apiKey) && StartsWith(apiKey.value, KeyPrefix)
    ensures Transcription(apiKey, None, replies, random) == Outcome(ReadFailedMessage, [], false)
  {
  }

  /**
   * Whatever happens, the requests sent are a prefix of LINEAR16, FLAC, MP3 at
   * 16000 Hz, all to the keyed endpoint, all with the same audio, `en-US`,
   * automatic punctuation and the `latest_long` model; and requests are sent
   * only when the key passed both checks and the audio was read.
   */
  lemma RequestsFollowEncodingOrder(apiKey: Option<string>, audio: Option<string>, replies: seq<Response>, random: real)
    requires |replies| == |EncodingConfigs| && 0.0 <= random < 1.0
    ensures var o := Transcription(apiKey, audio, replies, random);
      (o.requests != [] ==> !KeyMissing(apiKey) && StartsWith(apiKey.value, KeyPrefix) && audio.Some?) &&
      |o.requests| <= 3 &&
      forall j :: 0 <= j < |o.requests| ==>
        o.requests[j].endpoint == EndpointPrefix + apiKey.value &&
        o.requests[j].body.audioContent == audio.value &&
        o.requests[j].body.config ==
          RecognitionConfig([LINEAR16, FLAC, MP3][j], 16000, "en-US", true, "latest_long")
  {
  }

  /**
   * When the service's invalid-key error is the first reply that stops,
   * the loop ends there with a canned announcement after the delay.
   */
  lemma RejectedKeyGivesMock(apiKey: Option<string>, content: string, replies: seq<Response>, random: real, k: nat)
    requires |replies| == |EncodingConfigs| && 0.0 <= random < 1.0
    requires !KeyMissing(apiKey) && StartsWith(apiKey.value, KeyPrefix)
    requires k < |replies| && Classify(replies[k]) == InvalidKey
    requires forall j :: 0 <= j < k ==> !Stops(Classify(replies[j]))
    ensures var o := Transcription(apiKey, Some(content), replies, random);
      o.text == MockTranscription(random) && o.text in Announcements && o.delayed &&
      o.requests == Sent(EndpointPrefix + apiKey.value, content, k + 1)
  {
    FirstStopIsFirst(replies, k);
  }

  /**
   * The first reply with a usable transcript is returned verbatim, and no
   * later encoding is tried.
   */
  lemma FirstTranscriptWins(apiKey: Option<string>, content: string, replies: seq<Response>, random: real, k: nat, t: string)
    requires |replies| == |EncodingConfigs| && 0.0 <= random < 1.0
    requires !KeyMissing(apiKey) && StartsWith(apiKey.value, KeyPrefix)
    requires k < |replies| && Classify(replies[k]) == Transcript(t)
    requires forall j :: 0 <= j < k ==> !Stops(Classify(replies[j]))
    ensures var o := Transcription(apiKey, Some(content), replies, random);
      o.text == t && t != "" && !o.delayed &&
      o.requests == Sent(EndpointPrefix + apiKey.value, content, k + 1)
  {
    FirstStopIsFirst(replies, k);
  }

  /**
   * When no reply stops the loop, exactly three requests are made and the
   * result is the no-transcription message.
   */
  lemma ExhaustedGivesNoTranscription(apiKey: Option<string>, content: string, replies: seq<Response>, random: real)
    requires |replies| == |EncodingConfigs| && 0.0 <= random < 1.0
    requires !KeyMissing(apiKey) && StartsWith(apiKey.value, KeyPrefix)
    requires forall j :: 0 <= j < |replies| ==> !Stops(Classify(replies[j]))
    ensures var o := Transcription(apiKey, Some(content), replies, random);
      o.text == NoTranscriptionMessage && !o.delayed && |o.requests| == 3 &&
      [o.requests[0].body.config.encoding, o.requests[1].body.config.encoding, o.requests[2].body.config.encoding]
        == [LINEAR16, FLAC, MP3]
  {
    FirstStopIsFirst(replies, |replies|);
  }

  /** The first stopping index is determined by its two defining facts. */
  lemma FirstStopIsFirst(replies: seq<Response>, k: nat)
    requires k <= |replies|
    requires forall j :: 0 <= j < k ==> !Stops(Classify(replies[j]))
    requires k < |replies| ==> Stops(Classify(replies[k]))
    ensures FirstStop(replies) == k
  {
  }

  /**
   * The call always yields one of: a fixed message, a canned announcement
   * (exactly when it slept), or the non-empty transcript of a reply it asked
   * for.
   */
  lemma ResultIsAccountedFor(apiKey: Option<string>, audio: Option<string>, replies: seq<Response>, random: real)
    requires |replies| == |EncodingConfigs| && 0.0 <= random < 1.0
    ensures var o := Transcription(apiKey, audio, replies, random);
      (o.delayed <==>
         !KeyMissing(apiKey) &&
         (!StartsWith(apiKey.value, KeyPrefix) ||
          (audio.Some? && FirstStop(replies) < 3 && Classify(replies[FirstStop(replies)]) == InvalidKey))) &&
      (o.delayed ==> o.text == MockTranscription(random)) &&
      (o.text in {KeyMissingMessage, ReadFailedMessage, NoTranscriptionMessage} ||
       o.text in Announcements ||
       exists j :: 0 <= j < |o.requests| && Classify(replies[j]) == Transcript(o.text))
  {
    var o := Transcription(apiKey, audio, replies, random);
    if !KeyMissing(apiKey) && StartsWith(apiKey.value, KeyPrefix) && audio.Some? {
      var k := FirstStop(replies);
      if k < 3 && Classify(replies[k]).Transcript? {
        assert k < |o.requests| && Classify(replies[k]) == Transcript(o.text);
      }
    }
  }
}
