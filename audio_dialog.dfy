/** The voice dialog of app/components/chat/audio-dialog/audio-dialog.tsx
    (`AudioDialog`). It records through the recording hook, sends the payload,
    shows a processing state until the AI's audio arrives, plays that audio
    once on arrival, and resets when it is closed.

    A render with new props (`open`, `aiAudioBase64`) is one step: the two
    effects run after it, in their order, each only when one of its
    dependencies changed. `elementMounted` says whether the hidden `<audio>`
    element is in `aiAudioRef`; every `play()` the dialog starts is logged in
    `plays` by the URL it was given. */
module AudioDialog {
  import opened Wrappers
  import opened AudioRecorder

  const AudioUrlPrefix := "data:audio/webm;base64,"

  /** A JavaScript string that is truthy: present and not empty. */
  predicate Truthy(o: Option<string>)
  {
    o.Some? && o.value != ""
  }

  function AudioUrl(payload: string): (url: string)
    ensures AudioUrlPrefix <= url && url[|AudioUrlPrefix|..] == payload
  {
    AudioUrlPrefix + payload
  }

  datatype DialogState = DialogState(
    open: bool,
    aiAudio: Option<string>,
    isPlayingAI: bool,
    isProcessing: bool,
    lastAutoPlayed: Option<string>,
    plays: seq<string>,
    rec: RecorderState)

  // ---------------------------------------------------------------------------
  // Handlers and effects, as steps

  /** playAIAudio: with a truthy payload and a mounted element, points the
      element at the payload's data URL, starts it, and sets `isPlayingAI`
      (a rejected `play()` is only logged, so the flag is set anyway). */
  function AfterPlay(d: DialogState, elementMounted: bool): (e: DialogState)
    ensures Truthy(d.aiAudio) && elementMounted ==>
              e.isPlayingAI && e.plays == d.plays + [AudioUrl(d.aiAudio.value)]
    ensures !(Truthy(d.aiAudio) && elementMounted) ==> e == d
    ensures e == d.(isPlayingAI := e.isPlayingAI, plays := e.plays)
  {
    if Truthy(d.aiAudio) && elementMounted then
      d.(isPlayingAI := true, plays := d.plays + [AudioUrl(d.aiAudio.value)])
    else d
  }

  /** The guard of the auto-play effect. */
  predicate AutoPlayFires(d: DialogState)
  {
    d.open && Truthy(d.aiAudio) && d.lastAutoPlayed != d.aiAudio
  }

  /** The auto-play effect: when it fires, it leaves the processing state,
      remembers the payload, and plays it. */
  function AfterAutoPlay(d: DialogState, elementMounted: bool): (e: DialogState)
    ensures !AutoPlayFires(d) ==> e == d
    ensures AutoPlayFires(d) ==> !e.isProcessing && e.lastAutoPlayed == d.aiAudio
    ensures AutoPlayFires(d) && elementMounted ==>
              e.isPlayingAI && e.plays == d.plays + [AudioUrl(d.aiAudio.value)]
    ensures AutoPlayFires(d) && !elementMounted ==> e.plays == d.plays && e.isPlayingAI == d.isPlayingAI
    ensures e.open == d.open && e.aiAudio == d.aiAudio && e.rec == d.rec
  {
    if !AutoPlayFires(d) then d
    else AfterPlay(d.(isProcessing := false, lastAutoPlayed := d.aiAudio), elementMounted)
  }

  /** The close effect: resets the recording, clears both flags, and forgets
      the last auto-played payload. */
  function AfterClose(d: DialogState): (e: DialogState)
    ensures !e.isPlayingAI && !e.isProcessing && e.lastAutoPlayed == None
    ensures !e.rec.isRecording && e.rec.chunks == []
    ensures e.open == d.open && e.aiAudio == d.aiAudio && e.plays == d.plays
  {
    d.(rec := AfterReset(d.rec), isPlayingAI := false, isProcessing := false, lastAutoPlayed := None)
  }

  /** A render with new props, followed by the effects whose dependencies
      changed: the close effect on `open`, the auto-play effect on
      `aiAudioBase64` or `open`. */
  function AfterRender(d: DialogState, newOpen: bool, newAudio: Option<string>, elementMounted: bool)
    : DialogState
  {
    var openChanged := newOpen != d.open;
    var audioChanged := newAudio != d.aiAudio;
    var d1 := d.(open := newOpen, aiAudio := newAudio);
    var d2 := if openChanged && !newOpen then AfterClose(d1) else d1;
    if openChanged || audioChanged then AfterAutoPlay(d2, elementMounted) else d2
  }

  /** The first render: both effects run once. */
  function Mount(open: bool, aiAudio: Option<string>, elementMounted: bool): (d: DialogState)
    ensures !d.isProcessing && d.rec == InitialState()
    ensures d.lastAutoPlayed == (if open && Truthy(aiAudio) then aiAudio else None)
    ensures d.isPlayingAI <==> open && Truthy(aiAudio) && elementMounted
  {
    var d0 := DialogState(open, aiAudio, false, false, None, [], InitialState());
    var d1 := if !open then AfterClose(d0) else d0;
    AfterAutoPlay(d1, elementMounted)
  }

  /** The end of a stop started by handleStopRecording: a truthy payload is
      sent to the parent and the dialog enters the processing state; anything
      else does nothing. */
  function AfterStopSettled(d: DialogState, payload: Option<string>): (e: DialogState)
    ensures Truthy(payload) ==> e == d.(isProcessing := true)
    ensures !Truthy(payload) ==> e == d
  {
    if Truthy(payload) then d.(isProcessing := true) else d
  }

  function SentPayload(payload: Option<string>): (sent: Option<string>)
    ensures sent.Some? <==> Truthy(payload)
    ensures sent.Some? ==> sent == payload
  {
    if Truthy(payload) then payload else None
  }

  /** handleAIAudioEnded: both flags are cleared, then the parent is told. */
  function AfterEnded(d: DialogState): (e: DialogState)
    ensures !e.isPlayingAI && !e.isProcessing
    ensures e == d.(isPlayingAI := false, isProcessing := false)
  {
    d.(isPlayingAI := false, isProcessing := false)
  }

  // ---------------------------------------------------------------------------
  // What is shown

  const TitleAI := "Respuesta de audio"
  const TitleProcessing := "Procesando..."
  const TitleDefault := "Grabar audio"

  /** The header title: AI audio first, then processing, then the default. */
  function Title(hasAIAudio: bool, isProcessing: bool): (t: string)
    ensures t == TitleAI <==> hasAIAudio
    ensures t == TitleProcessing <==> !hasAIAudio && isProcessing
    ensures t == TitleDefault <==> !hasAIAudio && !isProcessing
  {
    if hasAIAudio then TitleAI else if isProcessing then TitleProcessing else TitleDefault
  }

  /** The header line under the title. */
  function Subtitle(hasAIAudio: bool, isProcessing: bool, isRecording: bool): (t: string)
    ensures t == "Reproduciendo la respuesta generada" <==> hasAIAudio
    ensures t == "Estamos procesando tu mensaje..." <==> !hasAIAudio && isProcessing
    ensures t == "Grabando... Habla ahora" <==> !hasAIAudio && !isProcessing && isRecording
    ensures t == "Haz clic en el micrófono para comenzar a grabar" <==>
              !hasAIAudio && !isProcessing && !isRecording
  {
    if hasAIAudio then "Reproduciendo la respuesta generada"
    else if isProcessing then "Estamos procesando tu mensaje..."
    else if isRecording then "Grabando... Habla ahora"
    else "Haz clic en el micrófono para comenzar a grabar"
  }

  /** The central control: the spinner, the playback button (disabled while
      playing), or the record button (its click stops while recording and
      starts otherwise). */
  datatype Control = ProcessingSpinner | PlaybackButton(disabled: bool) | RecordButton(clickStops: bool)

  function CenterControl(d: DialogState): (c: Control)
    ensures c.ProcessingSpinner? <==> d.isProcessing
    ensures c.PlaybackButton? <==> !d.isProcessing && Truthy(d.aiAudio)
    ensures c.RecordButton? <==> !d.isProcessing && !Truthy(d.aiAudio)
    ensures c.PlaybackButton? ==> c.disabled == d.isPlayingAI
    ensures c.RecordButton? ==> c.clickStops == d.rec.isRecording
  {
    if d.isProcessing then ProcessingSpinner
    else if Truthy(d.aiAudio) then PlaybackButton(d.isPlayingAI)
    else RecordButton(d.rec.isRecording)
  }

  // ---------------------------------------------------------------------------
  // Properties

  /** A render starts an auto-play exactly when a prop changed, the dialog is
      open, the payload is truthy and differs from the last auto-played one,
      and the element is mounted; it then clears the processing state,
      remembers the payload and plays its URL. */
  lemma AutoPlayIff(d: DialogState, newOpen: bool, newAudio: Option<string>, elementMounted: bool)
    ensures var e := AfterRender(d, newOpen, newAudio, elementMounted);
      var fires := (newOpen != d.open || newAudio != d.aiAudio) && newOpen && Truthy(newAudio)
                   && d.lastAutoPlayed != newAudio;
      && (|e.plays| > |d.plays| <==> fires && elementMounted)
      && (fires ==> !e.isProcessing && e.lastAutoPlayed == newAudio)
      && (fires && elementMounted ==> e.isPlayingAI && e.plays == d.plays + [AudioUrl(newAudio.value)])
      && (!(fires && elementMounted) ==> e.plays == d.plays)
  {
  }

  /** One render of the open dialog with a given payload (or none). */
  datatype Delivery = Delivery(aiAudio: Option<string>, elementMounted: bool)

  function RenderOpen(d: DialogState, trace: seq<Delivery>): DialogState
    decreases |trace|
  {
    if trace == [] then d
    else RenderOpen(AfterRender(d, true, trace[0].aiAudio, trace[0].elementMounted), trace[1..])
  }

  /** While the dialog stays open and the parent only ever delivers `a` or
      clears it, `a` is auto-played at most once; once it has been
      auto-played it is not played again. */
  lemma {:induction false} DeliveredOncePlaysOnce(d: DialogState, trace: seq<Delivery>, a: string)
    requires forall k :: 0 <= k < |trace| ==> trace[k].aiAudio == None || trace[k].aiAudio == Some(a)
    ensures d.lastAutoPlayed == Some(a) ==> RenderOpen(d, trace).plays == d.plays
    ensures |RenderOpen(d, trace).plays| <= |d.plays| + 1
    ensures forall k :: |d.plays| <= k < |RenderOpen(d, trace).plays| ==>
              RenderOpen(d, trace).plays[k] == AudioUrl(a)
    decreases |trace|
  {
    if trace != [] {
      var e := AfterRender(d, true, trace[0].aiAudio, trace[0].elementMounted);
      AutoPlayIff(d, true, trace[0].aiAudio, trace[0].elementMounted);
      assert e.lastAutoPlayed == Some(a) || e.plays == d.plays;
      DeliveredOncePlaysOnce(e, trace[1..], a);
    }
  }

  /** A payload that comes back after another one was auto-played is played
      again: the guard remembers only the last auto-played payload. */
  lemma ReturningPayloadReplays(d: DialogState, a: string, b: string)
    requires d.open && d.aiAudio == Some(a) && d.lastAutoPlayed == Some(a)
    requires a != "" && b != "" && a != b
    ensures var e := AfterRender(AfterRender(d, true, Some(b), true), true, Some(a), true);
      e.plays == d.plays + [AudioUrl(b), AudioUrl(a)]
  {
  }

  /** Closing resets the recording, clears both flags, and forgets the last
      auto-played payload; nothing is played. */
  lemma CloseResets(d: DialogState, newAudio: Option<string>, elementMounted: bool)
    requires d.open
    ensures var e := AfterRender(d, false, newAudio, elementMounted);
      && !e.open && !e.isPlayingAI && !e.isProcessing && e.lastAutoPlayed == None
      && e.rec == AfterReset(d.rec) && e.plays == d.plays
  {
  }

  /** After a close, reopening with a truthy payload plays it again, even the
      one played before the close. */
  lemma ReopenReplays(d: DialogState, a: string)
    requires d.open && a != ""
    ensures var closed := AfterRender(d, false, Some(a), true);
      var e := AfterRender(closed, true, Some(a), true);
      e.plays == d.plays + [AudioUrl(a)] && e.isPlayingAI && !e.isProcessing
  {
  }

  /** A full turn in the open dialog: the recording's payload is sent and the
      spinner shows; the AI's answer arrives and plays, replacing the spinner
      with the playback button; its end clears both flags, and when the parent
      clears the answer the record button is back. */
  lemma {:induction false} FullTurn(d: DialogState, payload: string, answer: string)
    requires d.open && d.aiAudio == None && payload != "" && answer != ""
    requires d.lastAutoPlayed != Some(answer)
    ensures var sent := AfterStopSettled(d, Some(payload));
      var arrived := AfterRender(sent, true, Some(answer), true);
      var ended := AfterEnded(arrived);
      var cleared := AfterRender(ended, true, None, true);
      && SentPayload(Some(payload)) == Some(payload)
      && CenterControl(sent) == ProcessingSpinner
      && arrived.plays == d.plays + [AudioUrl(answer)]
      && CenterControl(arrived) == PlaybackButton(true)
      && Title(Truthy(arrived.aiAudio), arrived.isProcessing) == TitleAI
      && CenterControl(ended) == PlaybackButton(false)
      && CenterControl(cleared) == RecordButton(d.rec.isRecording)
  {
    var sent := AfterStopSettled(d, Some(payload));
    AutoPlayIff(sent, true, Some(answer), true);
  }

  // ---------------------------------------------------------------------------
  // The component instance

  class Dialog {
    var open: bool
    var aiAudio: Option<string>
    var isPlayingAI: bool
    var isProcessing: bool
    var lastAutoPlayed: Option<string>
    var plays: seq<string>
    const recorder: Recorder

    function State(): DialogState
      reads this, recorder
    {
      DialogState(open, aiAudio, isPlayingAI, isProcessing, lastAutoPlayed, plays, recorder.State())
    }

    ghost predicate Valid()
      reads this, recorder
    {
      recorder.Valid()
    }

    constructor (open: bool, aiAudio: Option<string>, elementMounted: bool)
      ensures Valid() && fresh(recorder)
      ensures State() == Mount(open, aiAudio, elementMounted)
    {
      this.open := open;
      this.aiAudio := aiAudio;
      isPlayingAI := false;
      isProcessing := false;
      lastAutoPlayed := None;
      plays := [];
      recorder := new Recorder();
      new;
      if !open {
        CloseEffect();
      }
      AutoPlayEffect(elementMounted);
    }

    method PlayAIAudio(elementMounted: bool)
      modifies this
      ensures State() == AfterPlay(old(State()), elementMounted)
    {
      if Truthy(aiAudio) && elementMounted {
        plays := plays + [AudioUrl(aiAudio.value)];
        isPlayingAI := true;
      }
    }

    method AutoPlayEffect(elementMounted: bool)
      modifies this
      ensures State() == AfterAutoPlay(old(State()), elementMounted)
    {
      if !open || !Truthy(aiAudio) || lastAutoPlayed == aiAudio {
        return;
      }
      isProcessing := false;
      lastAutoPlayed := aiAudio;
      PlayAIAudio(elementMounted);
    }

    method CloseEffect()
      requires Valid()
      modifies this, recorder
      ensures Valid()
      ensures State() == AfterClose(old(State()))
    {
      recorder.ResetRecording();
      isPlayingAI := false;
      isProcessing := false;
      lastAutoPlayed := None;
    }

    /** A render with new props and the effects it triggers. */
    method Render(newOpen: bool, newAudio: Option<string>, elementMounted: bool)
      requires Valid()
      modifies this, recorder
      ensures Valid()
      ensures State() == AfterRender(old(State()), newOpen, newAudio, elementMounted)
    {
      var openChanged := newOpen != open;
      var audioChanged := newAudio != aiAudio;
      open := newOpen;
      aiAudio := newAudio;
      if openChanged && !newOpen {
        CloseEffect();
      }
      if openChanged || audioChanged {
        AutoPlayEffect(elementMounted);
      }
    }

    /** handleStartRecording: a failed start is reported with `alert`. */
    method HandleStartRecording(micGranted: bool) returns (alert: Option<string>)
      requires Valid()
      modifies recorder
      ensures Valid()
      ensures recorder.State() == AfterStart(old(recorder.State()), micGranted)
      ensures alert == StartError(micGranted)
    {
      alert := recorder.StartRecording(micGranted);
    }

    /** handleStopRecording up to its `await`. */
    method HandleStopRecording() returns (result: StopResult)
      requires Valid()
      modifies recorder
      ensures Valid()
      ensures recorder.State() == AfterStop(old(recorder.State()))
      ensures result == StopResultOf(old(recorder.State()))
    {
      result := recorder.StopRecording();
    }

    /** The rest of handleStopRecording, once its `await` gives `payload`:
        `sent` is what `onSendAudio` receives. */
    method OnStopSettled(payload: Option<string>) returns (sent: Option<string>)
      modifies this
      ensures State() == AfterStopSettled(old(State()), payload)
      ensures sent == SentPayload(payload)
    {
      sent := None;
      if Truthy(payload) {
        sent := payload;
        isProcessing := true;
      }
    }

    /** handleAIAudioEnded; `notified` says whether `onPlaybackEnded` ran. */
    method HandleAIAudioEnded(hasOnPlaybackEnded: bool) returns (notified: bool)
      modifies this
      ensures State() == AfterEnded(old(State()))
      ensures notified == hasOnPlaybackEnded
    {
      isPlayingAI := false;
      isProcessing := false;
      notified := hasOnPlaybackEnded;
    }
  }
}
