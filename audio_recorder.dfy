/**
 * The recording hook `useAudioRecorder`: the state it keeps and the five
 * operations that change it.
 *
 * Each call into expo-av that can throw is a boolean parameter saying whether
 * it does; the permission dialog's answer and the URI `getURI()` returns are
 * parameters too. Every operation runs to completion before the next one
 * starts.
 */
module AudioRecording {
  import opened Wrappers

  const PermissionNeededMessage: string := "Microphone permission is needed to record audio."
  const StartFailedMessage: string := "Failed to start recording."
  const StopFailedMessage: string := "Failed to stop recording."
  const NoRecordingMessage: string := "No recording to play."
  const PlayFailedMessage: string := "Failed to play recording."
  const StopPlayingFailedMessage: string := "Failed to stop playing."

  /** An expo-av `Audio.Recording`; the platform owns everything inside it. */
  class Recording {
    constructor ()
    {
    }
  }

  /** An expo-av `Audio.Sound` loaded for playback. */
  class Sound {
    constructor ()
    {
    }
  }

  /**
   * What `Audio.requestPermissionsAsync()` gives: a `granted` status, any
   * other status, or a rejected promise.
   */
  datatype PermissionAnswer = Granted | NotGranted | RequestRejects

  /** The JavaScript test `value || null` on an optional string: the empty string counts as absent. */
  function OrNull(s: Option<string>): (r: Option<string>)
    ensures r.Some? <==> s.Some? && s.value != ""
    ensures r.Some? ==> r == s
  {
    if s.Some? && s.value != "" then s else None
  }

  /** A snapshot of everything the hook holds. */
  datatype View = View(
    isRecording: bool,
    recording: Recording?,
    audioUri: Option<string>,
    error: Option<string>,
    isPlaying: bool,
    recordingRef: Recording?,
    soundRef: Sound?)

  /** The state of a freshly mounted hook, and the state `reset` returns to. */
  const Idle: View := View(false, null, None, None, false, null, null)

  class AudioRecorder {
    var isRecording: bool
    var recording: Recording?
    var audioUri: Option<string>
    var error: Option<string>
    var isPlaying: bool
    var recordingRef: Recording?
    var soundRef: Sound?

    function State(): View
      reads this
    {
      View(isRecording, recording, audioUri, error, isPlaying, recordingRef, soundRef)
    }

    /**
     * What every operation keeps: the `recording` state and the ref always hold
     * the same object, which is there exactly while recording; playback is on
     * only with a loaded sound; a stored URI is never empty.
     */
    ghost predicate Valid()
      reads this
    {
      recording == recordingRef &&
      (isRecording <==> recordingRef != null) &&
      (isPlaying ==> soundRef != null) &&
      (audioUri.Some? ==> audioUri.value != "")
    }

    constructor ()
      ensures Valid() && State() == Idle
    {
      isRecording, recording, audioUri, error := false, null, None, None;
      isPlaying, recordingRef, soundRef := false, null, null;
    }

    /**
     * `startRecording`. `permission` is the outcome of the permission request,
     * which runs outside the `try`: when it rejects, the rejection reaches the
     * caller (`rejected`) after the error was cleared. `modeThrows` says whether
     * `setAudioModeAsync` threw, before any recording exists; `recordThrows`
     * whether preparing or starting the new recording threw.
     */
    method StartRecording(permission: PermissionAnswer, modeThrows: bool, recordThrows: bool)
      returns (rejected: bool)
      requires Valid()
      modifies this
      ensures Valid()
      ensures rejected <==> permission == RequestRejects
      ensures permission == RequestRejects ==> State() == old(State()).(error := None)
      ensures permission == NotGranted ==> State() == old(State()).(error := Some(PermissionNeededMessage))
      ensures permission == Granted && (modeThrows || recordThrows) ==>
        State() == old(State()).(error := Some(StartFailedMessage))
      ensures permission == Granted && !modeThrows && !recordThrows ==>
        recordingRef != null && fresh(recordingRef) &&
        State() == old(State()).(isRecording := true, recording := recordingRef,
                                 recordingRef := recordingRef, audioUri := None, error := None)
    {
      rejected := false;
      error := None;
      if permission == RequestRejects {
        rejected := true;
        return;
      }
      if permission == NotGranted {
        error := Some(PermissionNeededMessage);
        return;
      }
      if modeThrows {
        error := Some(StartFailedMessage);
        return;
      }
      var rec := new Recording();
      if recordThrows {
        error := Some(StartFailedMessage);
        return;
      }
      recording := rec;
      recordingRef := rec;
      isRecording := true;
      audioUri := None;
    }

    /**
     * `stopRecording`. `unloadThrows` says whether `stopAndUnloadAsync` threw,
     * `uri` is what `getURI()` returned, and `modeThrows` whether the final
     * `setAudioModeAsync` threw. Without a recording in the ref, only the error
     * is cleared.
     */
    method StopRecording(unloadThrows: bool, uri: Option<string>, modeThrows: bool)
      requires Valid()
      modifies this
      ensures Valid()
      ensures old(recordingRef) == null ==> State() == old(State()).(error := None)
      ensures old(recordingRef) != null && unloadThrows ==>
        State() == old(State()).(error := Some(StopFailedMessage))
      ensures old(recordingRef) != null && !unloadThrows ==>
        State() == old(State()).(audioUri := OrNull(uri), recording := null, recordingRef := null,
                                 isRecording := false,
                                 error := if modeThrows then Some(StopFailedMessage) else None)
    {
      error := None;
      var rec := recordingRef;
      if rec != null {
        if unloadThrows {
          error := Some(StopFailedMessage);
          return;
        }
        audioUri := OrNull(uri);
        recording := null;
        recordingRef := null;
        isRecording := false;
        if modeThrows {
          error := Some(StopFailedMessage);
        }
      }
    }

    /**
     * `playRecording`. `unloadThrows` says whether unloading the previous sound
     * threw (consulted only when there is one), `createThrows` whether creating
     * the new sound threw, `playThrows` whether starting playback threw.
     */
    method PlayRecording(unloadThrows: bool, createThrows: bool, playThrows: bool)
      requires Valid()
      modifies this
      ensures Valid()
      ensures OrNull(old(audioUri)).None? ==> State() == old(State()).(error := Some(NoRecordingMessage))
      ensures OrNull(old(audioUri)).Some? && old(soundRef) != null && unloadThrows ==>
        State() == old(State()).(error := Some(PlayFailedMessage), isPlaying := false)
      ensures OrNull(old(audioUri)).Some? && !(old(soundRef) != null && unloadThrows) && createThrows ==>
        State() == old(State()).(error := Some(PlayFailedMessage), isPlaying := false)
      ensures OrNull(old(audioUri)).Some? && !(old(soundRef) != null && unloadThrows) && !createThrows ==>
        soundRef != null && fresh(soundRef) &&
        State() == old(State()).(soundRef := soundRef, isPlaying := !playThrows,
                                 error := if playThrows then Some(PlayFailedMessage) else old(error))
    {
      if audioUri.None? || audioUri.value == "" {
        error := Some(NoRecordingMessage);
        return;
      }
      if soundRef != null && unloadThrows {
        error := Some(PlayFailedMessage);
        isPlaying := false;
        return;
      }
      isPlaying := true;
      if createThrows {
        error := Some(PlayFailedMessage);
        isPlaying := false;
        return;
      }
      var sound := new Sound();
      soundRef := sound;
      if playThrows {
        error := Some(PlayFailedMessage);
        isPlaying := false;
      }
    }

    /**
     * `stopPlaying`. `stopThrows` and `unloadThrows` say whether stopping or
     * unloading the current sound threw (consulted only when there is one).
     */
    method StopPlaying(stopThrows: bool, unloadThrows: bool)
      requires Valid()
      modifies this
      ensures Valid()
      ensures old(soundRef) != null && (stopThrows || unloadThrows) ==>
        State() == old(State()).(error := Some(StopPlayingFailedMessage))
      ensures !(old(soundRef) != null && (stopThrows || unloadThrows)) ==>
        State() == old(State()).(soundRef := null, isPlaying := false)
    {
      if soundRef != null {
        if stopThrows || unloadThrows {
          error := Some(StopPlayingFailedMessage);
          return;
        }
        soundRef := null;
      }
      isPlaying := false;
    }

    /** `reset`: back to the freshly mounted state from any state at all. */
    method Reset()
      modifies this
      ensures Valid() && State() == Idle
    {
      audioUri := None;
      error := None;
      recording := null;
      isRecording := false;
      isPlaying := false;
      recordingRef := null;
      if soundRef != null {
        // The sound's unloadAsync() is started and not awaited.
        soundRef := null;
      }
    }
  }

  /** A second `reset` right after a first changes nothing. */
  method ResetTwice(r: AudioRecorder) returns (once: View)
    modifies r
    ensures once == Idle && r.State() == once
  {
    r.Reset();
    once := r.State();
    r.Reset();
  }

  /**
   * One start followed by one stop, from a hook that is not recording. A
   * successful session ends with the URI `getURI()` gave, which is null when
   * it gave none, and with no error; a start that failed or rejected leaves the
   * hook as it was, except that the stop clears the start's error message.
   */
  method StartThenStop(r: AudioRecorder, permission: PermissionAnswer, modeThrows: bool, recordThrows: bool,
                       unloadThrows: bool, uri: Option<string>, modeThrowsOnStop: bool)
    requires r.Valid() && !r.isRecording
    modifies r
    ensures r.Valid()
    ensures !(permission == Granted && !modeThrows && !recordThrows) ==>
      r.State() == old(r.State()).(error := None)
    ensures permission == Granted && !modeThrows && !recordThrows && unloadThrows ==>
      r.isRecording && r.recordingRef != null && r.error == Some(StopFailedMessage)
    ensures permission == Granted && !modeThrows && !recordThrows && !unloadThrows ==>
      !r.isRecording && r.recordingRef == null && r.audioUri == OrNull(uri) &&
      r.error == (if modeThrowsOnStop then Some(StopFailedMessage) else None)
  {
    var _ := r.StartRecording(permission, modeThrows, recordThrows);
    r.StopRecording(unloadThrows, uri, modeThrowsOnStop);
  }
}
