/** The audio player of src/components/audio-player/audio-player.tsx
    (`AudioPlayer`): the data URL it builds from the base64 payload, its
    play/pause flag, and the `m:ss` time label. Whether the `<audio>` element
    is mounted and whether its `play()` promise resolves are parameters;
    the callbacks the player calls are returned as events. */
module AudioPlayer {
  import opened Wrappers
  import Text

  const DataUrlPrefix := "data:audio/webm;base64"

  /** `data:audio/webm;base64,${audioData}` */
  function DataUrl(audioData: string): string
  {
    DataUrlPrefix + "," + audioData
  }

  /** The URL the player builds and the payload the recorders strip from a
      data URL are inverse: a base64 payload (which holds no comma) comes back
      unchanged. */
  lemma DataUrlRoundTrip(audioData: string)
    requires ',' !in audioData
    ensures Text.Field1(DataUrl(audioData)) == Some(audioData)
  {
    Text.Field1OfPrefixed(DataUrlPrefix, audioData);
  }

  // ---------------------------------------------------------------------------
  // formatTime

  /** `${Math.floor(s / 60)}:${Math.floor(s % 60).toString().padStart(2, '0')}`
      for a whole, non-negative number of seconds. */
  function FormatTime(seconds: nat): string
  {
    Text.NatToString(seconds / 60) + ":" + Text.PadStart(Text.NatToString(seconds % 60), 2, '0')
  }

  /** The label is minutes, a colon and exactly two digits of seconds; reading
      the two numbers back gives `seconds / 60` and `seconds % 60 < 60`, and
      so the seconds themselves. */
  lemma FormatTimeParts(seconds: nat)
    ensures var parts := Text.Split(FormatTime(seconds), ':');
      && |parts| == 2
      && Text.AllDigits(parts[0]) && Text.AllDigits(parts[1]) && |parts[1]| == 2
      && Text.ParseNat(parts[0]) == seconds / 60
      && Text.ParseNat(parts[1]) == seconds % 60 < 60
      && Text.ParseNat(parts[0]) * 60 + Text.ParseNat(parts[1]) == seconds
  {
    var mins := Text.NatToString(seconds / 60);
    var secs := Text.PadStart(Text.NatToString(seconds % 60), 2, '0');
    PaddedSeconds(seconds % 60);
    Text.ParseNatToString(seconds / 60);
    assert FormatTime(seconds) == Text.Join([mins, secs], ':');
    Text.SplitJoin([mins, secs], ':');
  }

  /** Two-digit seconds: a single digit gets a leading zero, which does not
      change its value. */
  lemma PaddedSeconds(secs: nat)
    requires secs < 60
    ensures var p := Text.PadStart(Text.NatToString(secs), 2, '0');
      |p| == 2 && Text.AllDigits(p) && ':' !in p && Text.ParseNat(p) == secs
  {
    var d := Text.NatToString(secs);
    var p := Text.PadStart(d, 2, '0');
    Text.ParseNatToString(secs);
    if secs < 10 {
      assert p == ['0'] + d;
      assert p[..1] == ['0'];
      assert Text.ParseNat(p[..1]) == 10 * Text.ParseNat([]) + 0;
    } else {
      assert |Text.NatToString(secs / 10)| == 1;
    }
  }

  /** Different whole seconds get different labels. */
  lemma FormatTimeInjective(a: nat, b: nat)
    requires FormatTime(a) == FormatTime(b)
    ensures a == b
  {
    FormatTimeParts(a);
    FormatTimeParts(b);
  }

  // ---------------------------------------------------------------------------
  // Play and pause

  /** The callbacks the player calls; a callback that was not passed is
      skipped. */
  datatype PlayerEvent = PlayEvent | PauseEvent | EndEvent

  /** togglePlay: without an element nothing happens; playing pauses; paused
      plays, and only a resolved `play()` sets the flag and reports it. */
  function Toggle(isPlaying: bool, elementMounted: bool, playSucceeds: bool): (r: (bool, seq<PlayerEvent>))
    ensures !elementMounted ==> r == (isPlaying, [])
    ensures elementMounted && isPlaying ==> r == (false, [PauseEvent])
    ensures elementMounted && !isPlaying && playSucceeds ==> r == (true, [PlayEvent])
    ensures elementMounted && !isPlaying && !playSucceeds ==> r == (false, [])
  {
    if !elementMounted then (isPlaying, [])
    else if isPlaying then (false, [PauseEvent])
    else if playSucceeds then (true, [PlayEvent])
    else (isPlaying, [])
  }

  /** Two toggles with the element in place and a successful `play()` return
      to the starting flag, reporting the two callbacks in order. */
  lemma ToggleTwice(isPlaying: bool)
    ensures var first := Toggle(isPlaying, true, true);
      var second := Toggle(first.0, true, true);
      second.0 == isPlaying
      && first.1 + second.1 == (if isPlaying then [PauseEvent, PlayEvent] else [PlayEvent, PauseEvent])
  {
  }

  /** The flag is set only by a `play()` that resolved. */
  lemma PlayingOnlyAfterPlay(isPlaying: bool, elementMounted: bool, playSucceeds: bool)
    requires !isPlaying && Toggle(isPlaying, elementMounted, playSucceeds).0
    ensures elementMounted && playSucceeds
    ensures Toggle(isPlaying, elementMounted, playSucceeds).1 == [PlayEvent]
  {
  }

  class Player {
    var isPlaying: bool
    var audioUrl: Option<string>

    constructor ()
      ensures !isPlaying && audioUrl == None
    {
      isPlaying := false;
      audioUrl := None;
    }

    /** The effect on `audioData`: a truthy payload becomes the element's URL. */
    method OnAudioData(audioData: string)
      modifies this
      ensures audioData != "" ==> audioUrl == Some(DataUrl(audioData))
      ensures audioData == "" ==> audioUrl == old(audioUrl)
      ensures isPlaying == old(isPlaying)
    {
      if audioData != "" {
        var url := DataUrl(audioData);
        audioUrl := Some(url);
      }
    }

    /** The toggle button is enabled only when there is a URL. */
    function ToggleEnabled(): (b: bool)
      reads this
      ensures b <==> audioUrl.Some? && audioUrl.value != ""
    {
      audioUrl.Some? && audioUrl.value != ""
    }

    method TogglePlay(elementMounted: bool, playSucceeds: bool) returns (events: seq<PlayerEvent>)
      modifies this
      ensures (isPlaying, events) == Toggle(old(isPlaying), elementMounted, playSucceeds)
      ensures audioUrl == old(audioUrl)
    {
      events := [];
      if !elementMounted {
        return;
      }
      if isPlaying {
        isPlaying := false;
        events := [PauseEvent];
      } else if playSucceeds {
        isPlaying := true;
        events := [PlayEvent];
      }
    }

    /** The `ended` listener. */
    method HandleEnd() returns (events: seq<PlayerEvent>)
      modifies this
      ensures !isPlaying && events == [EndEvent]
      ensures audioUrl == old(audioUrl)
    {
      isPlaying := false;
      events := [EndEvent];
    }

    /** The listener effect's auto-play: with an element, a truthy URL and
        `autoPlay`, a resolved `play()` sets the flag and reports it. */
    method AutoPlayEffect(elementMounted: bool, autoPlay: bool, playSucceeds: bool)
      returns (events: seq<PlayerEvent>)
      modifies this
      ensures elementMounted && ToggleEnabled() && autoPlay && playSucceeds ==>
                isPlaying && events == [PlayEvent]
      ensures !(elementMounted && ToggleEnabled() && autoPlay && playSucceeds) ==>
                isPlaying == old(isPlaying) && events == []
      ensures audioUrl == old(audioUrl)
    {
      events := [];
      if elementMounted && audioUrl.Some? && audioUrl.value != "" && autoPlay && playSucceeds {
        isPlaying := true;
        events := [PlayEvent];
      }
    }
  }
}
