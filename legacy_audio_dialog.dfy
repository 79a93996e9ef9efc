/** The older voice dialog of src/components/audio-dialog/audio-dialog.tsx
    (`AudioDialog`). It records on its own: the recording is kept as
    `audioBlob` and as the data URL `recordedAudio`, can be played back,
    re-recorded or sent, and the AI's audio is played on request.

    The browser's part is a sequence of explicit events, as in the recording
    hook: the answer to the microphone request, each chunk, each recorder's
    `stop` event, and each reader's `loadend` with the data URL it read.
    Streams (and the recorder made on each) are named by numbers. Every
    `play()` is logged: the AI's by its URL, the recording's by its blob. */
module LegacyAudioDialog {
  import opened Wrappers
  import Text
  import AudioRecorder
  import AudioDialog

  type Blob = AudioRecorder.Blob
  type StreamId = AudioRecorder.StreamId

  const MicAlert := "No se pudo acceder al micrófono. Por favor, verifica los permisos."

  datatype LegacyState = LegacyState(
    open: bool,
    aiAudio: Option<string>,
    isRecording: bool,
    recordedAudio: Option<string>,
    audioBlob: Option<Blob>,
    isPlayingAI: bool,
    chunks: seq<Blob>,
    recorder: Option<StreamId>,
    nextStream: StreamId,
    liveStreams: set<StreamId>,
    stopping: set<StreamId>,
    reading: set<StreamId>,
    aiPlays: seq<string>,
    recordingPlays: seq<Blob>)

  /** Stream ids in use were handed out; a recorder being stopped still has
      live tracks, and a recording being read no longer has; while recording
      the current recorder's stream is live and not being stopped. */
  predicate ValidLegacy(s: LegacyState)
  {
    && (s.recorder.Some? ==> s.recorder.value < s.nextStream)
    && (forall id :: id in s.liveStreams ==> id < s.nextStream)
    && (forall id :: id in s.reading ==> id < s.nextStream && id !in s.liveStreams)
    && (forall id :: id in s.stopping ==> id in s.liveStreams)
    && (s.isRecording ==> s.recorder.Some? && s.recorder.value in s.liveStreams
                          && s.recorder.value !in s.stopping)
  }

  function Initial(open: bool, aiAudio: Option<string>): (s: LegacyState)
    ensures ValidLegacy(s) && !s.isRecording && s.recordedAudio == None && s.audioBlob == None
  {
    LegacyState(open, aiAudio, false, None, None, false, [], None, 0, {}, {}, {}, [], [])
  }

  // ---------------------------------------------------------------------------
  // Handlers, events and the close effect, as steps

  /** startRecording: with the microphone granted, empties the buffer, makes a
      recorder on the new stream and starts it; when refused, only alerts. */
  function AfterStartRecording(s: LegacyState, micGranted: bool): (t: LegacyState)
    ensures !micGranted ==> t == s
    ensures micGranted ==> t.isRecording && t.chunks == [] && t.recorder == Some(s.nextStream)
                           && t.liveStreams == s.liveStreams + {s.nextStream}
    ensures micGranted ==> t.recordedAudio == s.recordedAudio && t.audioBlob == s.audioBlob
    ensures micGranted ==> t.nextStream == s.nextStream + 1
    ensures t == s.(isRecording := t.isRecording, chunks := t.chunks, recorder := t.recorder,
                    nextStream := t.nextStream, liveStreams := t.liveStreams)
    ensures ValidLegacy(s) ==> ValidLegacy(t)
  {
    if !micGranted then s
    else
      var id := s.nextStream;
      s.(isRecording := true, chunks := [], recorder := Some(id), nextStream := id + 1,
         liveStreams := s.liveStreams + {id})
  }

  function StartAlert(micGranted: bool): (alert: Option<string>)
    ensures alert.Some? <==> !micGranted
    ensures alert.Some? ==> alert.value == MicAlert
  {
    if micGranted then None else Some(MicAlert)
  }

  /** `ondataavailable`: non-empty chunks are pushed, empty ones dropped. */
  function AfterData(s: LegacyState, chunk: Blob): (t: LegacyState)
    ensures t.chunks == if s.recorder.Some? && |chunk| > 0 then s.chunks + [chunk] else s.chunks
    ensures t == s.(chunks := t.chunks)
    ensures ValidLegacy(s) ==> ValidLegacy(t)
  {
    if s.recorder.Some? && |chunk| > 0 then s.(chunks := s.chunks + [chunk]) else s
  }

  predicate CanStop(s: LegacyState)
  {
    s.recorder.Some? && s.isRecording
  }

  /** stopRecording: acts only with a recorder while recording; it stops the
      recorder and clears `isRecording`. */
  function AfterStopRecording(s: LegacyState): (t: LegacyState)
    ensures !CanStop(s) ==> t == s
    ensures ValidLegacy(s) ==> !t.isRecording
    ensures CanStop(s) ==> t == s.(isRecording := false, stopping := s.stopping + {s.recorder.value})
    ensures ValidLegacy(s) ==> ValidLegacy(t)
  {
    if !CanStop(s) then s
    else s.(isRecording := false, stopping := s.stopping + {s.recorder.value})
  }

  /** A recorder's `stop` event: `audioBlob` becomes the blob of the buffered
      chunks in order, the reader starts, and the stream's tracks are stopped. */
  function AfterRecorderStop(s: LegacyState, stream: StreamId): (t: LegacyState)
    ensures stream in s.stopping ==>
              t == s.(audioBlob := Some(AudioRecorder.Concat(s.chunks)), stopping := s.stopping - {stream},
                      reading := s.reading + {stream}, liveStreams := s.liveStreams - {stream})
    ensures stream !in s.stopping ==> t == s
    ensures ValidLegacy(s) ==> ValidLegacy(t)
  {
    if stream !in s.stopping then s
    else s.(audioBlob := Some(AudioRecorder.Concat(s.chunks)), stopping := s.stopping - {stream},
            reading := s.reading + {stream}, liveStreams := s.liveStreams - {stream})
  }

  /** A reader's `loadend`: `recordedAudio` becomes the reader's `result`, the
      whole data URL, or `null` when the read failed. */
  function AfterReaderLoadEnd(s: LegacyState, stream: StreamId, result: Option<string>): (t: LegacyState)
    ensures stream in s.reading ==>
              t == s.(recordedAudio := result, reading := s.reading - {stream})
    ensures stream !in s.reading ==> t == s
    ensures ValidLegacy(s) ==> ValidLegacy(t)
  {
    if stream !in s.reading then s
    else s.(recordedAudio := result, reading := s.reading - {stream})
  }

  /** resetRecording: clears the flag, the recording, the blob, the AI
      playback flag and the buffer. A running recorder is not stopped. */
  function AfterReset(s: LegacyState): (t: LegacyState)
    ensures !t.isRecording && t.recordedAudio == None && t.audioBlob == None
            && !t.isPlayingAI && t.chunks == []
    ensures t == s.(isRecording := false, recordedAudio := None, audioBlob := None,
                    isPlayingAI := false, chunks := [])
    ensures ValidLegacy(s) ==> ValidLegacy(t)
  {
    s.(isRecording := false, recordedAudio := None, audioBlob := None, isPlayingAI := false, chunks := [])
  }

  /** handleSend: without a recording nothing happens; otherwise the piece of
      the data URL after its first comma goes to `onSendAudio` (absent when the
      URL has no comma), and the recording is reset. */
  function AfterSend(s: LegacyState): (t: LegacyState)
    ensures !AudioDialog.Truthy(s.recordedAudio) ==> t == s
    ensures AudioDialog.Truthy(s.recordedAudio) ==> t == AfterReset(s)
  {
    if AudioDialog.Truthy(s.recordedAudio) then AfterReset(s) else s
  }

  function SentBySend(s: LegacyState): (sent: Option<Option<string>>)
    ensures sent.Some? <==> AudioDialog.Truthy(s.recordedAudio)
    ensures sent.Some? ==> sent.value == Text.Field1(s.recordedAudio.value)
  {
    if AudioDialog.Truthy(s.recordedAudio) then Some(Text.Field1(s.recordedAudio.value)) else None
  }

  /** playAIAudio: only with a truthy payload and a mounted element. */
  function AfterPlayAI(s: LegacyState, elementMounted: bool): (t: LegacyState)
    ensures t.isPlayingAI <==> s.isPlayingAI || (AudioDialog.Truthy(s.aiAudio) && elementMounted)
    ensures AudioDialog.Truthy(s.aiAudio) && elementMounted ==>
              t == s.(isPlayingAI := true, aiPlays := s.aiPlays + [AudioDialog.AudioUrl(s.aiAudio.value)])
    ensures !(AudioDialog.Truthy(s.aiAudio) && elementMounted) ==> t == s
  {
    if AudioDialog.Truthy(s.aiAudio) && elementMounted then
      s.(isPlayingAI := true, aiPlays := s.aiPlays + [AudioDialog.AudioUrl(s.aiAudio.value)])
    else s
  }

  /** handleAIAudioEnded. */
  function AfterAIEnded(s: LegacyState): (t: LegacyState)
    ensures !t.isPlayingAI && t == s.(isPlayingAI := false)
  {
    s.(isPlayingAI := false)
  }

  /** playRecordedAudio: plays the blob through an object URL when there is a
      blob and a mounted element. */
  function AfterPlayRecorded(s: LegacyState, elementMounted: bool): (t: LegacyState)
    ensures s.audioBlob.Some? && elementMounted ==>
              t == s.(recordingPlays := s.recordingPlays + [s.audioBlob.value])
    ensures !(s.audioBlob.Some? && elementMounted) ==> t == s
  {
    if s.audioBlob.Some? && elementMounted then s.(recordingPlays := s.recordingPlays + [s.audioBlob.value])
    else s
  }

  /** A render with new props; the close effect runs when `open` changed to
      false. */
  function AfterRender(s: LegacyState, newOpen: bool, newAudio: Option<string>): (t: LegacyState)
    ensures s.open && !newOpen ==> t == AfterReset(s.(open := false, aiAudio := newAudio))
    ensures !(s.open && !newOpen) ==> t == s.(open := newOpen, aiAudio := newAudio)
    ensures ValidLegacy(s) ==> ValidLegacy(t)
  {
    var s1 := s.(open := newOpen, aiAudio := newAudio);
    if newOpen != s.open && !newOpen then AfterReset(s1) else s1
  }

  // ---------------------------------------------------------------------------
  // What is shown and which handler a click reaches

  /** The handler of the microphone circle (line 213). */
  datatype MicHandler = NoHandler | StopHandler | StartHandler

  function MicClickHandler(s: LegacyState): (h: MicHandler)
    ensures h == NoHandler <==> AudioDialog.Truthy(s.aiAudio)
    ensures h == StopHandler <==> !AudioDialog.Truthy(s.aiAudio) && s.isRecording
    ensures h == StartHandler <==> !AudioDialog.Truthy(s.aiAudio) && !s.isRecording
  {
    if AudioDialog.Truthy(s.aiAudio) then NoHandler
    else if s.isRecording then StopHandler
    else StartHandler
  }

  /** What sits inside the microphone circle. */
  datatype CircleContent = AIPlayButton(disabled: bool) | StopIndicator | RecordingPlayButton | MicIndicator

  function Circle(s: LegacyState): (c: CircleContent)
    ensures c.AIPlayButton? <==> AudioDialog.Truthy(s.aiAudio)
    ensures c.AIPlayButton? ==> c.disabled == s.isPlayingAI
    ensures c == StopIndicator <==> !AudioDialog.Truthy(s.aiAudio) && s.isRecording
    ensures c == RecordingPlayButton <==>
              !AudioDialog.Truthy(s.aiAudio) && !s.isRecording && AudioDialog.Truthy(s.recordedAudio)
    ensures c == MicIndicator <==>
              !AudioDialog.Truthy(s.aiAudio) && !s.isRecording && !AudioDialog.Truthy(s.recordedAudio)
  {
    if AudioDialog.Truthy(s.aiAudio) then AIPlayButton(s.isPlayingAI)
    else if s.isRecording then StopIndicator
    else if AudioDialog.Truthy(s.recordedAudio) then RecordingPlayButton
    else MicIndicator
  }

  /** The buttons under the dialog: "Cerrar", or "Regrabar" and "Enviar", or
      nothing. */
  datatype ActionBar = CloseOnly | RerecordAndSend | NoActions

  function Actions(s: LegacyState): (a: ActionBar)
    ensures a == CloseOnly <==> AudioDialog.Truthy(s.aiAudio)
    ensures a == RerecordAndSend <==> !AudioDialog.Truthy(s.aiAudio) && AudioDialog.Truthy(s.recordedAudio)
    ensures a == NoActions <==> !AudioDialog.Truthy(s.aiAudio) && !AudioDialog.Truthy(s.recordedAudio)
  {
    if AudioDialog.Truthy(s.aiAudio) then CloseOnly
    else if AudioDialog.Truthy(s.recordedAudio) then RerecordAndSend
    else NoActions
  }

  function Title(s: LegacyState): (t: string)
    ensures t == "Respuesta de audio" <==> AudioDialog.Truthy(s.aiAudio)
    ensures t == "Grabar audio" <==> !AudioDialog.Truthy(s.aiAudio)
  {
    if AudioDialog.Truthy(s.aiAudio) then "Respuesta de audio" else "Grabar audio"
  }

  function Subtitle(s: LegacyState): (t: string)
    ensures t == "Escucha la respuesta y cierra el diálogo" <==> AudioDialog.Truthy(s.aiAudio)
    ensures t == "Grabando... Habla ahora" <==> !AudioDialog.Truthy(s.aiAudio) && s.isRecording
    ensures t == "Audio grabado. Haz clic para reproducir" <==>
              !AudioDialog.Truthy(s.aiAudio) && !s.isRecording && AudioDialog.Truthy(s.recordedAudio)
    ensures t == "Haz clic en el micrófono para comenzar a grabar" <==>
              !AudioDialog.Truthy(s.aiAudio) && !s.isRecording && !AudioDialog.Truthy(s.recordedAudio)
  {
    if AudioDialog.Truthy(s.aiAudio) then "Escucha la respuesta y cierra el diálogo"
    else if s.isRecording then "Grabando... Habla ahora"
    else if AudioDialog.Truthy(s.recordedAudio) then "Audio grabado. Haz clic para reproducir"
    else "Haz clic en el micrófono para comenzar a grabar"
  }

  /** A click on the playback button of the recording, as written: the button
      plays the recording, and the click then bubbles to the circle, whose
      handler (no AI audio, not recording) is startRecording. */
  function ClickRecordingPlayAsWritten(s: LegacyState, elementMounted: bool, micGranted: bool): LegacyState
  {
    var played := AfterPlayRecorded(s, elementMounted);
    match MicClickHandler(played)
    case NoHandler => played
    case StopHandler => AfterStopRecording(played)
    case StartHandler => AfterStartRecording(played, micGranted)
  }

  /** The click as evidently intended: it only plays the recording (the
      button stops the click from reaching the circle). */
  function ClickRecordingPlay(s: LegacyState, elementMounted: bool): (t: LegacyState)
    ensures t.isRecording == s.isRecording && t.chunks == s.chunks && t.liveStreams == s.liveStreams
    ensures t.recordedAudio == s.recordedAudio && t.audioBlob == s.audioBlob
    ensures s.audioBlob.Some? && elementMounted ==> t.recordingPlays == s.recordingPlays + [s.audioBlob.value]
  {
    AfterPlayRecorded(s, elementMounted)
  }

  // ---------------------------------------------------------------------------
  // Properties

  /** A run of `dataavailable` events. */
  function Feed(s: LegacyState, cs: seq<Blob>): LegacyState
  {
    if cs == [] then s else AfterData(Feed(s, cs[..|cs| - 1]), cs[|cs| - 1])
  }

  lemma {:induction false} FeedAppendsNonEmpty(s: LegacyState, cs: seq<Blob>)
    requires s.recorder.Some?
    ensures Feed(s, cs) == s.(chunks := s.chunks + AudioRecorder.NonEmpty(cs))
  {
    if cs != [] {
      FeedAppendsNonEmpty(s, cs[..|cs| - 1]);
    }
  }

  /** A whole recording: after a granted start, a run of chunks, a stop and the
      recorder's `stop` event, the blob is made of exactly the non-empty chunks
      in order and the stream's tracks are stopped; the reader's data URL then
      becomes the recording, and sending it sends the payload after the comma
      and resets the dialog. */
  lemma {:induction false} RecordAndSend(s: LegacyState, cs: seq<Blob>, prefix: string, payload: string)
    requires ValidLegacy(s)
    requires ',' !in prefix && ',' !in payload
    ensures var stream := s.nextStream;
      var fed := Feed(AfterStartRecording(s, true), cs);
      var stopped := AfterRecorderStop(AfterStopRecording(fed), stream);
      var read := AfterReaderLoadEnd(stopped, stream, Some(prefix + "," + payload));
      && stopped.audioBlob == Some(AudioRecorder.Concat(AudioRecorder.NonEmpty(cs)))
      && stream !in stopped.liveStreams
      && read.recordedAudio == Some(prefix + "," + payload)
      && Actions(read) == (if AudioDialog.Truthy(s.aiAudio) then CloseOnly else RerecordAndSend)
      && SentBySend(read) == Some(Some(payload))
      && AfterSend(read).recordedAudio == None && AfterSend(read).audioBlob == None
  {
    var started := AfterStartRecording(s, true);
    FeedAppendsNonEmpty(started, cs);
    assert [] + AudioRecorder.NonEmpty(cs) == AudioRecorder.NonEmpty(cs);
    Text.Field1OfPrefixed(prefix, payload);
  }
  /** A failed read drops the recording, even one kept from before: "Enviar"
      is gone unless an AI reply holds the dialog, and sending sends nothing
      and changes nothing. */
  lemma FailedReadSendsNothing(s: LegacyState, stream: StreamId)
    requires stream in s.reading
    ensures var t := AfterReaderLoadEnd(s, stream, None);
      && t.recordedAudio == None
      && Actions(t) == (if AudioDialog.Truthy(s.aiAudio) then CloseOnly else NoActions)
      && SentBySend(t) == None && AfterSend(t) == t
  {
  }


  /** Closing resets the recording. */
  lemma CloseResets(s: LegacyState, newAudio: Option<string>)
    requires s.open
    ensures var t := AfterRender(s, false, newAudio);
      !t.isRecording && t.recordedAudio == None && t.audioBlob == None && !t.isPlayingAI && t.chunks == []
  {
  }

  /** Closing while recording leaves the recorder running: its stream's
      tracks stay live, and its later chunks are still collected. */
  lemma CloseWhileRecordingKeepsStream(s: LegacyState, chunk: Blob)
    requires ValidLegacy(s) && s.open && s.isRecording && |chunk| > 0
    ensures var t := AfterRender(s, false, s.aiAudio);
      s.recorder.value in t.liveStreams && AfterData(t, chunk).chunks == [chunk]
  {
  }

  /** The handler of the playback button of the recording, as written, also
      starts a new recording when the microphone is granted. */
  lemma PlayRecordingStartsRecording(s: LegacyState)
    requires ValidLegacy(s) && Circle(s) == RecordingPlayButton && s.audioBlob.Some?
    ensures var t := ClickRecordingPlayAsWritten(s, true, true);
      t.isRecording && t.chunks == [] && t.recorder == Some(s.nextStream)
      && t.recordingPlays == s.recordingPlays + [s.audioBlob.value]
    ensures var t := ClickRecordingPlay(s, true);
      !t.isRecording && t.chunks == s.chunks && t.recordingPlays == s.recordingPlays + [s.audioBlob.value]
  {
  }

  // ---------------------------------------------------------------------------
  // The component instance

  class Dialog {
    var open: bool
    var aiAudio: Option<string>
    var isRecording: bool
    var recordedAudio: Option<string>
    var audioBlob: Option<Blob>
    var isPlayingAI: bool
    var chunks: seq<Blob>
    var recorder: Option<StreamId>
    var nextStream: StreamId
    var liveStreams: set<StreamId>
    var stopping: set<StreamId>
    var reading: set<StreamId>
    var aiPlays: seq<string>
    var recordingPlays: seq<Blob>

    function State(): LegacyState
      reads this
    {
      LegacyState(open, aiAudio, isRecording, recordedAudio, audioBlob, isPlayingAI, chunks, recorder,
                  nextStream, liveStreams, stopping, reading, aiPlays, recordingPlays)
    }

    ghost predicate Valid()
      reads this
    {
      ValidLegacy(State())
    }

    /** The first render; the close effect then only repeats the initial state. */
    constructor (open: bool, aiAudio: Option<string>)
      ensures State() == Initial(open, aiAudio) && Valid()
    {
      this.open := open;
      this.aiAudio := aiAudio;
      isRecording := false;
      recordedAudio := None;
      audioBlob := None;
      isPlayingAI := false;
      chunks := [];
      recorder := None;
      nextStream := 0;
      liveStreams := {};
      stopping := {};
      reading := {};
      aiPlays := [];
      recordingPlays := [];
    }

    method StartRecording(micGranted: bool) returns (alert: Option<string>)
      requires Valid()
      modifies this
      ensures Valid()
      ensures State() == AfterStartRecording(old(State()), micGranted)
      ensures alert == StartAlert(micGranted)
    {
      if !micGranted {
        return Some(MicAlert);
      }
      var stream := nextStream;
      nextStream := nextStream + 1;
      liveStreams := liveStreams + {stream};
      chunks := [];
      recorder := Some(stream);
      isRecording := true;
      alert := None;
    }

    method OnDataAvailable(chunk: Blob)
      requires Valid()
      modifies this
      ensures Valid()
      ensures State() == AfterData(old(State()), chunk)
    {
      if recorder.Some? && |chunk| > 0 {
        chunks := chunks + [chunk];
      }
    }

    method StopRecording()
      requires Valid()
      modifies this
      ensures Valid()
      ensures State() == AfterStopRecording(old(State()))
    {
      if recorder.Some? && isRecording {
        stopping := stopping + {recorder.value};
        isRecording := false;
      }
    }

    method OnRecorderStop(stream: StreamId)
      requires Valid()
      modifies this
      ensures Valid()
      ensures State() == AfterRecorderStop(old(State()), stream)
    {
      if stream in stopping {
        audioBlob := Some(AudioRecorder.Concat(chunks));
        stopping := stopping - {stream};
        reading := reading + {stream};
        liveStreams := liveStreams - {stream};
      }
    }

    method OnReaderLoadEnd(stream: StreamId, result: Option<string>)
      requires Valid()
      modifies this
      ensures Valid()
      ensures State() == AfterReaderLoadEnd(old(State()), stream, result)
    {
      if stream in reading {
        recordedAudio := result;
        reading := reading - {stream};
      }
    }

    method ResetRecording()
      requires Valid()
      modifies this
      ensures Valid()
      ensures State() == AfterReset(old(State()))
    {
      isRecording := false;
      recordedAudio := None;
      audioBlob := None;
      isPlayingAI := false;
      chunks := [];
    }

    /** handleSend; `sent` is what `onSendAudio` received, if it was called. */
    method HandleSend() returns (sent: Option<Option<string>>)
      requires Valid()
      modifies this
      ensures Valid()
      ensures State() == AfterSend(old(State()))
      ensures sent == SentBySend(old(State()))
    {
      if recordedAudio.Some? && recordedAudio.value != "" {
        var base64Data := Text.Field1(recordedAudio.value);
        sent := Some(base64Data);
        ResetRecording();
      } else {
        sent := None;
      }
    }

    method PlayAIAudio(elementMounted: bool)
      modifies this
      ensures State() == AfterPlayAI(old(State()), elementMounted)
    {
      if AudioDialog.Truthy(aiAudio) && elementMounted {
        aiPlays := aiPlays + [AudioDialog.AudioUrl(aiAudio.value)];
        isPlayingAI := true;
      }
    }

    method HandleAIAudioEnded()
      modifies this
      ensures State() == AfterAIEnded(old(State()))
    {
      isPlayingAI := false;
    }

    method PlayRecordedAudio(elementMounted: bool)
      modifies this
      ensures State() == AfterPlayRecorded(old(State()), elementMounted)
    {
      if audioBlob.Some? && elementMounted {
        recordingPlays := recordingPlays + [audioBlob.value];
      }
    }

    method Render(newOpen: bool, newAudio: Option<string>)
      requires Valid()
      modifies this
      ensures Valid()
      ensures State() == AfterRender(old(State()), newOpen, newAudio)
    {
      var openChanged := newOpen != open;
      open := newOpen;
      aiAudio := newAudio;
      if openChanged && !newOpen {
        ResetRecording();
      }
    }
  }
}
