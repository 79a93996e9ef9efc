/** The recording hook of app/hooks/use-audio-recorder.ts (`useAudioRecorder`).
    The browser's part is a sequence of explicit events: the answer to the
    microphone request, each `dataavailable` chunk, the recorder's `stop`
    event, and the `loadend` of the `FileReader` with its `result`: the data
    URL it read, or `null` when the read failed.
    Each stream `getUserMedia` grants is named by a number, and the recorder
    built on it is named by the same number. */
module AudioRecorder {
  import opened Wrappers
  import Text

  type byte = bv8

  /** A `Blob` of recorded audio, as its bytes; its `size` is its length. */
  type Blob = seq<byte>

  type StreamId = nat

  const MicErrorMessage := "No se pudo acceder al micrófono. Por favor, verifica los permisos."

  /** Where a stop that was asked for stands: waiting for the recorder's `stop`
      event, reading the blob built from the chunks at that event, or stuck
      after a failed read, whose `loadend` handler threw on the `null` result
      before it stopped the tracks or settled the promise. */
  datatype StopStage = AwaitingStop | Reading(blob: Blob) | ReadFailed

  /** What `stopRecording` gives at once: an answer, or a promise settled later
      by the `loadend` of the recorder's stop. */
  datatype StopResult = Resolved(value: Option<string>) | Pending(stream: StreamId)

  /** A snapshot of the hook: the `isRecording` state, the recorder in
      `mediaRecorderRef` (by its stream), the buffer `audioChunksRef`, the
      streams whose tracks are still live, and the stops in flight. */
  datatype RecorderState = RecorderState(
    isRecording: bool,
    recorder: Option<StreamId>,
    nextStream: StreamId,
    liveStreams: set<StreamId>,
    chunks: seq<Blob>,
    stops: map<StreamId, StopStage>)

  /** Every stream id in use was handed out, and while recording the current
      recorder's stream is live and has no stop in flight. */
  predicate ValidState(s: RecorderState)
  {
    && (s.recorder.Some? ==> s.recorder.value < s.nextStream)
    && (forall id :: id in s.liveStreams ==> id < s.nextStream)
    && (forall id :: id in s.stops ==> id < s.nextStream)
    && (s.isRecording ==> s.recorder.Some? && s.recorder.value in s.liveStreams
                          && s.recorder.value !in s.stops)
  }

  function InitialState(): (s: RecorderState)
    ensures ValidState(s) && !s.isRecording && s.chunks == []
  {
    RecorderState(false, None, 0, {}, [], map[])
  }

  // ---------------------------------------------------------------------------
  // The steps

  /** startRecording: when the microphone is granted, empties the buffer, makes
      a recorder on the new stream, starts it, and sets `isRecording`. When it
      is refused, raises the permission message and changes nothing. */
  function AfterStart(s: RecorderState, micGranted: bool): (t: RecorderState)
    ensures !micGranted ==> t == s
    ensures micGranted ==> t.isRecording && t.chunks == [] && t.recorder == Some(s.nextStream)
                           && s.nextStream in t.liveStreams
    ensures micGranted && ValidState(s) ==> s.nextStream !in s.liveStreams + s.stops.Keys
    ensures micGranted ==> t.liveStreams == s.liveStreams + {s.nextStream} && t.stops == s.stops
    ensures ValidState(s) ==> ValidState(t)
  {
    if !micGranted then s
    else
      var id := s.nextStream;
      RecorderState(true, Some(id), id + 1, s.liveStreams + {id}, [], s.stops)
  }

  function StartError(micGranted: bool): (e: Option<string>)
    ensures e.Some? <==> !micGranted
    ensures e.Some? ==> e.value == MicErrorMessage
  {
    if micGranted then None else Some(MicErrorMessage)
  }

  /** The `ondataavailable` handler: a chunk of size zero is dropped; any other
      is pushed at the end of the buffer. The handler exists once a recorder
      has been made. */
  function AfterData(s: RecorderState, chunk: Blob): (t: RecorderState)
    ensures t.chunks == if s.recorder.Some? && |chunk| > 0 then s.chunks + [chunk] else s.chunks
    ensures t == s.(chunks := t.chunks)
    ensures ValidState(s) ==> ValidState(t)
  {
    if s.recorder.Some? && |chunk| > 0 then s.(chunks := s.chunks + [chunk]) else s
  }

  /** The guard of stopRecording: there is a recorder and `isRecording` holds. */
  predicate CanStop(s: RecorderState)
  {
    s.recorder.Some? && s.isRecording
  }

  /** stopRecording: without a recorder or when not recording, answers null
      at once and changes nothing. Otherwise installs the `onstop` handler,
      stops the recorder and clears `isRecording`; the answer comes later. */
  function AfterStop(s: RecorderState): (t: RecorderState)
    ensures !CanStop(s) ==> t == s
    ensures CanStop(s) ==>
              !t.isRecording && t.stops == s.stops[s.recorder.value := AwaitingStop]
              && t == s.(isRecording := false, stops := t.stops)
    ensures ValidState(s) ==> ValidState(t)
  {
    if !CanStop(s) then s
    else s.(isRecording := false, stops := s.stops[s.recorder.value := AwaitingStop])
  }

  function StopResultOf(s: RecorderState): (r: StopResult)
    ensures r == Resolved(None) <==> !CanStop(s)
    ensures CanStop(s) ==> r.Pending?
    ensures r.Pending? ==> s.recorder == Some(r.stream)
  {
    if !CanStop(s) then Resolved(None) else Pending(s.recorder.value)
  }

  /** The recorder's `stop` event: the handler builds the blob from the chunks
      the buffer holds at that moment, in their order, and starts reading it. */
  function AfterRecorderStop(s: RecorderState, stream: StreamId): (t: RecorderState)
    ensures stream in s.stops && s.stops[stream] == AwaitingStop ==>
              t == s.(stops := s.stops[stream := Reading(Concat(s.chunks))])
    ensures !(stream in s.stops && s.stops[stream] == AwaitingStop) ==> t == s
    ensures ValidState(s) ==> ValidState(t)
  {
    if stream in s.stops && s.stops[stream] == AwaitingStop then
      s.(stops := s.stops[stream := Reading(Concat(s.chunks))])
    else s
  }

  /** The reader's `loadend`. With a data URL, the payload is the piece after
      the first comma (up to a second comma, if any, and absent when there is
      no comma); the stream's tracks are stopped, and then the stop's promise
      is settled with the payload. With `null`, `split` throws first: the
      tracks stay live and the stop is stuck. */
  function AfterLoadEnd(s: RecorderState, stream: StreamId, result: Option<string>): (t: RecorderState)
    ensures (stream in s.stops && s.stops[stream].Reading?) && result.Some? ==>
              t == s.(liveStreams := s.liveStreams - {stream}, stops := s.stops - {stream})
    ensures (stream in s.stops && s.stops[stream].Reading?) && result.None? ==>
              t == s.(stops := s.stops[stream := ReadFailed])
    ensures !(stream in s.stops && s.stops[stream].Reading?) ==> t == s
    ensures ValidState(s) ==> ValidState(t)
  {
    if stream in s.stops && s.stops[stream].Reading? then
      if result.Some? then s.(liveStreams := s.liveStreams - {stream}, stops := s.stops - {stream})
      else s.(stops := s.stops[stream := ReadFailed])
    else s
  }

  /** The value the pending stop settles with, if `loadend` belongs to one and
      the read produced a data URL. */
  function LoadEndValue(s: RecorderState, stream: StreamId, result: Option<string>): (r: Option<Option<string>>)
    ensures r.Some? <==> stream in s.stops && s.stops[stream].Reading? && result.Some?
    ensures r.Some? ==> r.value == Text.Field1(result.value)
  {
    if stream in s.stops && s.stops[stream].Reading? && result.Some? then Some(Text.Field1(result.value))
    else None
  }

  /** resetRecording: clears `isRecording` and empties the buffer. The recorder
      stays in its ref and a running recorder is not stopped. */
  function AfterReset(s: RecorderState): (t: RecorderState)
    ensures !t.isRecording && t.chunks == []
    ensures t == s.(isRecording := false, chunks := [])
    ensures ValidState(s) ==> ValidState(t)
  {
    s.(isRecording := false, chunks := [])
  }

  // ---------------------------------------------------------------------------
  // Helpers over chunk sequences

  /** `new Blob(chunks)`: the bytes of the chunks one after another. */
  function Concat(chunks: seq<Blob>): Blob
  {
    if chunks == [] then [] else Concat(chunks[..|chunks| - 1]) + chunks[|chunks| - 1]
  }

  /** The chunks of size greater than zero, in their order. */
  function NonEmpty(cs: seq<Blob>): (r: seq<Blob>)
    ensures |r| <= |cs|
    ensures forall i :: 0 <= i < |r| ==> |r[i]| > 0
  {
    if cs == [] then []
    else NonEmpty(cs[..|cs| - 1]) + (if |cs[|cs| - 1]| > 0 then [cs[|cs| - 1]] else [])
  }

  /** A run of `dataavailable` events. */
  function Feed(s: RecorderState, cs: seq<Blob>): RecorderState
  {
    if cs == [] then s else AfterData(Feed(s, cs[..|cs| - 1]), cs[|cs| - 1])
  }

  // ---------------------------------------------------------------------------
  // Properties

  /** With a recorder in place, a run of chunks appends exactly its non-empty
      chunks, in arrival order, and changes nothing else. */
  lemma {:induction false} FeedAppendsNonEmpty(s: RecorderState, cs: seq<Blob>)
    requires s.recorder.Some?
    ensures Feed(s, cs).chunks == s.chunks + NonEmpty(cs)
    ensures Feed(s, cs) == s.(chunks := Feed(s, cs).chunks)
  {
    if cs != [] {
      FeedAppendsNonEmpty(s, cs[..|cs| - 1]);
    }
  }

  /** Before any recorder exists, chunks are not collected. */
  lemma {:induction false} FeedWithoutRecorder(s: RecorderState, cs: seq<Blob>)
    requires s.recorder.None?
    ensures Feed(s, cs) == s
  {
    if cs != [] {
      FeedWithoutRecorder(s, cs[..|cs| - 1]);
    }
  }

  /** Filtering keeps every non-empty chunk, as many times as it occurs. */
  lemma {:induction false} NonEmptyKeepsCounts(cs: seq<Blob>, c: Blob)
    requires |c| > 0
    ensures multiset(NonEmpty(cs))[c] == multiset(cs)[c]
  {
    if cs != [] {
      var init := cs[..|cs| - 1];
      NonEmptyKeepsCounts(init, c);
      assert cs == init + [cs[|cs| - 1]];
    }
  }

  /** Zero-size chunks contribute no bytes: the blob of the filtered chunks
      equals the blob of all of them. */
  lemma {:induction false} ConcatNonEmpty(cs: seq<Blob>)
    ensures Concat(NonEmpty(cs)) == Concat(cs)
  {
    if cs != [] {
      var init, last := cs[..|cs| - 1], cs[|cs| - 1];
      ConcatNonEmpty(init);
      if |last| > 0 {
        var ne := NonEmpty(init) + [last];
        assert ne[..|ne| - 1] == NonEmpty(init);
      } else {
        assert NonEmpty(cs) == NonEmpty(init);
        assert Concat(cs) == Concat(init) + last;
      }
    }
  }

  /** A refused microphone raises the permission message and leaves every
      part of the state as it was. */
  lemma StartRefused(s: RecorderState)
    ensures StartError(false) == Some(MicErrorMessage)
    ensures AfterStart(s, false) == s
  {
  }

  /** Reset clears the flag and the buffer, so stopping right after it answers
      null and changes nothing. */
  lemma StopAfterReset(s: RecorderState)
    ensures StopResultOf(AfterReset(s)) == Resolved(None)
    ensures AfterStop(AfterReset(s)) == AfterReset(s)
  {
  }

  /** A stop while recording: `isRecording` becomes false; the `stop` event
      takes the chunks gathered so far as the blob; the `loadend` stops the
      stream's tracks, ends the stop, and settles it with the payload of the
      data URL. The buffer is left as it was. */
  lemma {:induction false} StopCycle(s: RecorderState, dataUrl: string)
    requires ValidState(s) && s.isRecording
    ensures var stream := s.recorder.value;
      var t1 := AfterStop(s);
      var t2 := AfterRecorderStop(t1, stream);
      var t3 := AfterLoadEnd(t2, stream, Some(dataUrl));
      && StopResultOf(s) == Pending(stream)
      && !t1.isRecording
      && t2.stops[stream] == Reading(Concat(s.chunks))
      && LoadEndValue(t2, stream, Some(dataUrl)) == Some(Text.Field1(dataUrl))
      && stream !in t3.liveStreams && stream !in t3.stops
      && t3.chunks == s.chunks && !t3.isRecording
  {
  }

  /** A failed read never settles the stop: its `loadend` settles nothing,
      the stream's tracks stay live, and no later `loadend` changes the stuck
      stop or settles it. */
  lemma FailedReadNeverSettles(s: RecorderState, stream: StreamId, later: Option<string>)
    requires stream in s.stops && s.stops[stream].Reading?
    ensures var t := AfterLoadEnd(s, stream, None);
      && LoadEndValue(s, stream, None) == None
      && t.liveStreams == s.liveStreams && t.stops[stream] == ReadFailed
      && AfterLoadEnd(t, stream, later) == t
      && LoadEndValue(t, stream, later) == None
  {
  }

  /** The whole recording: a granted start, a run of chunks and a stop give a
      blob made of exactly the non-empty chunks of the run, in order; when the
      reader's data URL is `prefix,payload` with no other comma, the stop
      settles with exactly `payload`. */
  lemma RecordOnce(s: RecorderState, cs: seq<Blob>, prefix: string, payload: string)
    requires ValidState(s)
    requires ',' !in prefix && ',' !in payload
    ensures var started := AfterStart(s, true);
      var stream := s.nextStream;
      var fed := Feed(started, cs);
      var t2 := AfterRecorderStop(AfterStop(fed), stream);
      && StopResultOf(fed) == Pending(stream)
      && t2.stops[stream] == Reading(Concat(NonEmpty(cs)))
      && LoadEndValue(t2, stream, Some(prefix + "," + payload)) == Some(Some(payload))
  {
    var started := AfterStart(s, true);
    FeedAppendsNonEmpty(started, cs);
    assert [] + NonEmpty(cs) == NonEmpty(cs);
    Text.Field1OfPrefixed(prefix, payload);
  }

  // ---------------------------------------------------------------------------
  // The hook's state and its handlers

  /** The hook instance: `isRecording`, `mediaRecorderRef.current`,
      `audioChunksRef.current`, and the browser state it drives (the live
      streams and the stops in flight). */
  class Recorder {
    var isRecording: bool
    var recorder: Option<StreamId>
    var nextStream: StreamId
    var liveStreams: set<StreamId>
    var chunks: seq<Blob>
    var stops: map<StreamId, StopStage>

    function State(): RecorderState
      reads this
    {
      RecorderState(isRecording, recorder, nextStream, liveStreams, chunks, stops)
    }

    ghost predicate Valid()
      reads this
    {
      ValidState(State())
    }

    constructor ()
      ensures State() == InitialState() && Valid()
    {
      isRecording := false;
      recorder := None;
      nextStream := 0;
      liveStreams := {};
      chunks := [];
      stops := map[];
    }

    method StartRecording(micGranted: bool) returns (error: Option<string>)
      requires Valid()
      modifies this
      ensures Valid()
      ensures State() == AfterStart(old(State()), micGranted)
      ensures error == StartError(micGranted)
    {
      if !micGranted {
        return Some(MicErrorMessage);
      }
      var stream := nextStream;
      nextStream := nextStream + 1;
      liveStreams := liveStreams + {stream};
      chunks := [];
      recorder := Some(stream);
      isRecording := true;
      error := None;
    }

    method OnDataAvailable(chunk: Blob)
      requires Valid()
      modifies this
      ensures Valid()
      ensures State() == AfterData(old(State()), chunk)
    {
      if recorder.Some? && |chunk| > 0 {
        chunks := chunks + [chunk];
      }
    }

    method StopRecording() returns (result: StopResult)
      requires Valid()
      modifies this
      ensures Valid()
      ensures State() == AfterStop(old(State()))
      ensures result == StopResultOf(old(State()))
    {
      if recorder.None? || !isRecording {
        return Resolved(None);
      }
      var current := recorder.value;
      stops := stops[current := AwaitingStop];
      isRecording := false;
      result := Pending(current);
    }

    method OnRecorderStop(stream: StreamId)
      requires Valid()
      modifies this
      ensures Valid()
      ensures State() == AfterRecorderStop(old(State()), stream)
    {
      if stream in stops && stops[stream] == AwaitingStop {
        stops := stops[stream := Reading(Concat(chunks))];
      }
    }

    method OnReaderLoadEnd(stream: StreamId, result: Option<string>) returns (settled: Option<Option<string>>)
      requires Valid()
      modifies this
      ensures Valid()
      ensures State() == AfterLoadEnd(old(State()), stream, result)
      ensures settled == LoadEndValue(old(State()), stream, result)
    {
      if stream in stops && stops[stream].Reading? {
        if result.None? {
          // `null.split(',')` throws: the handler ends here
          stops := stops[stream := ReadFailed];
          return None;
        }
        var base64Data := Text.Field1(result.value);
        liveStreams := liveStreams - {stream};
        stops := stops - {stream};
        return Some(base64Data);
      }
      return None;
    }

    method ResetRecording()
      requires Valid()
      modifies this
      ensures Valid()
      ensures State() == AfterReset(old(State()))
    {
      isRecording := false;
      chunks := [];
    }
  }
}
