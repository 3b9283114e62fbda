/** The recording session of src/lib/services/media-recording.ts.

    The service holds at most one session.  `getUserMedia`, the recorder setup
    (opening the OPFS file) and `MediaRecorder.isTypeSupported` are oracles given
    as parameters; `crypto.randomUUID()` is the parameter `generatedId`.  The
    recorder and the media stream themselves are not modelled, only the file name
    the session records to. */
module MediaRecording {
  import opened Wrappers
  import opened ErrorHandler

  datatype Session = Session(filename: string)

  const AlreadyRecording: string := "Recording already in progress"
  const NotRecording: string := "No recording in progress"

  /** The MIME types tried, in order of preference. */
  const PreferredMimeTypes: seq<string> := ["audio/webm; codecs=opus", "video/webm; codecs=\"vp8, vorbis\"", "video/webm"]

  /** `getSupportedMimeType`: the first supported type in preference order, or '' (the
      recorder's default) when none is. */
  method GetSupportedMimeType(isSupported: string -> bool) returns (mimeType: string)
    ensures mimeType == "" <==> forall i | 0 <= i < |PreferredMimeTypes| :: !isSupported(PreferredMimeTypes[i])
    ensures mimeType != "" ==> exists i | 0 <= i < |PreferredMimeTypes| ::
      && mimeType == PreferredMimeTypes[i]
      && isSupported(mimeType)
      && forall j | 0 <= j < i :: !isSupported(PreferredMimeTypes[j])
  {
    var i := 0;
    while i < |PreferredMimeTypes|
      invariant 0 <= i <= |PreferredMimeTypes|
      invariant forall j | 0 <= j < i :: !isSupported(PreferredMimeTypes[j])
    {
      if isSupported(PreferredMimeTypes[i]) {
        return PreferredMimeTypes[i];
      }
      i := i + 1;
    }
    return "";
  }

  class MediaRecordingService {
    var session: Option<Session>

    constructor ()
      ensures session == None
    {
      session := None;
    }

    /** `isRecording` */
    function IsRecording(): (r: bool)
      reads this
      ensures r <==> session.Some?
    {
      session != None
    }

    /** `currentSessionId`: the session's file name, or null without a session (or with an
        empty file name, which JavaScript's `||` treats as missing). */
    function CurrentSessionId(): (r: Option<string>)
      reads this
      ensures r.Some? ==> session.Some? && r.value == session.value.filename
      ensures r.None? ==> session.None? || session.value.filename == ""
    {
      if session.Some? && session.value.filename != "" then Some(session.value.filename) else None
    }

    /** `startRecording`.  `userMedia` is None when the microphone stream is granted, `setup`
        None when the recorder's output file opens.  The session is recorded before the
        setup runs, so a failing setup leaves it in place. */
    method StartRecording(userMedia: Option<Thrown>, generatedId: string, setup: Option<Thrown>)
      returns (r: Step<string>)
      modifies this
      ensures old(session).Some? ==> r == Threw(ThrownError(AlreadyRecording)) && session == old(session)
      ensures old(session).None? && userMedia.Some? ==> r == Threw(userMedia.value) && session == None
      ensures old(session).None? && userMedia.None? ==> session == Some(Session(generatedId))
      ensures old(session).None? && userMedia.None? && setup.None? ==> r == Done(generatedId)
      ensures old(session).None? && userMedia.None? && setup.Some? ==> r == Threw(setup.value)
    {
      if session.Some? {
        return Threw(ThrownError(AlreadyRecording));
      }
      if userMedia.Some? {
        return Threw(userMedia.value);
      }
      var filename := generatedId;
      session := Some(Session(filename));
      if setup.Some? {
        return Threw(setup.value);
      }
      return Done(filename);
    }

    /** `stopRecording`: hand back the session's file name and end the session. */
    method StopRecording() returns (r: Step<string>)
      modifies this
      ensures old(session).None? ==> r == Threw(ThrownError(NotRecording)) && session == None
      ensures old(session).Some? ==> r == Done(old(session).value.filename) && session == None
    {
      if session.None? {
        return Threw(ThrownError(NotRecording));
      }
      var filename := session.value.filename;
      session := None;
      return Done(filename);
    }

    /** The recorder's 'error' listener. */
    method OnRecorderError()
      modifies this
      ensures session == None
    {
      session := None;
    }
  }

  /** A session that starts cleanly is stopped with the file name it started with, and
      the service is idle again. */
  method RecordOnce(service: MediaRecordingService, generatedId: string) returns (started: Step<string>, stopped: Step<string>)
    requires service.session == None
    modifies service
    ensures started == Done(generatedId) && stopped == Done(generatedId)
    ensures !service.IsRecording()
  {
    started := service.StartRecording(None, generatedId, None);
    stopped := service.StopRecording();
  }
}
