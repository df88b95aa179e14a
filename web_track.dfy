/** The HTML5 track: an `HTMLAudioElement` whose event listeners update the
    track's flags and forward a `{value, status}` object to the subscriber.
    The element is foreign: its readings are method inputs, and what the
    track does to it is recorded in one log together with the emissions, so
    that the order of the two within a command is kept. */
module WebTrack {
  import opened Runtime
  import opened Messages
  import CordovaTrack

  // ---------------------------------------------------------------------
  // The completion ratio of a timeupdate

  /** `duration > 0 ? Math.trunc(currentTime / duration * 100) / 100 : 0`,
      where an element duration that is NaN is None. */
  function Completed(currentTime: real, duration: Option<real>): (c: real)
    ensures !IsPositive(duration) ==> c == 0.0
    ensures OnHundredths(c)
    ensures IsPositive(duration) && currentTime >= 0.0 ==>
      0.0 <= c <= currentTime / duration.value < c + 0.01
  {
    if IsPositive(duration) then Trunc(currentTime / duration.value * 100.0) as real / 100.0 else 0.0
  }

  /** Within the track the ratio is in [0, 1], reaching 1 only at the end. */
  lemma CompletedInUnitRange(currentTime: real, duration: real)
    requires 0.0 <= currentTime <= duration && duration > 0.0
    ensures 0.0 <= Completed(currentTime, Some(duration)) <= 1.0
    ensures Completed(currentTime, Some(duration)) == 1.0 <==> currentTime == duration
  {
    var q := currentTime / duration;
    RatioInUnitInterval(currentTime, duration);
    if currentTime == duration {
      assert Trunc(q * 100.0) == 100;
    } else {
      assert Trunc(q * 100.0) < 100;
    }
  }

  /** The ratio is truncated, never rounded up: the last hundredth is only
      reached on the last instant. Here the two tracks disagree: 199.5 s of
      200 s is 0.99 here and 1 on the Cordova track, which rounds. */
  lemma CompletedTruncatesWhereCordovaRounds()
    ensures Completed(199.5, Some(200.0)) == 0.99
    ensures CordovaTrack.PolledCompleted(199.5, Some(200.0)) == 1.0
    ensures Completed(50.0, Some(200.0)) == 0.25
    ensures Completed(50.0, None) == 0.0
  {
    assert 199.5 / 200.0 * 100.0 == 99.75;
    assert Trunc(99.75) == 99;
    assert Round(99.75) == 100;
    assert 50.0 / 200.0 * 100.0 == 25.0;
    assert Trunc(25.0) == 25;
  }

  // ---------------------------------------------------------------------
  // The MIME type probed by canPlay

  /** `s.lastIndexOf(c)`: the last index holding c, or -1. */
  function LastIndexOf(s: string, c: char): (r: int)
    ensures -1 <= r < |s|
    ensures r >= 0 ==> s[r] == c
    ensures forall j :: r < j < |s| ==> s[j] != c
  {
    if |s| == 0 then -1
    else if s[|s| - 1] == c then |s| - 1
    else LastIndexOf(s[..|s| - 1], c)
  }

  /** `audio/${src.substr(src.lastIndexOf('.') + 1)}`: everything after the
      last dot, or the whole source when it has none. */
  function Format(src: string): (f: string)
    ensures |f| >= 6 && f[..6] == "audio/"
  {
    "audio/" + src[LastIndexOf(src, '.') + 1..]
  }

  /** The last dot is the one before an extension that has none. */
  lemma {:induction false} LastDotBeforeExtension(base: string, ext: string)
    requires '.' !in ext
    ensures LastIndexOf(base + "." + ext, '.') == |base|
  {
    var s := base + "." + ext;
    var r := LastIndexOf(s, '.');
    assert s[|base|] == '.';
  }

  /** A source ending in `.ext` probes `audio/ext`. */
  lemma FormatOfExtension(base: string, ext: string)
    requires '.' !in ext
    ensures Format(base + "." + ext) == "audio/" + ext
  {
    LastDotBeforeExtension(base, ext);
    assert (base + "." + ext)[|base| + 1..] == ext;
  }

  /** A source without a dot probes `audio/` followed by the whole source. */
  lemma FormatWithoutDot(src: string)
    requires '.' !in src
    ensures Format(src) == "audio/" + src
  {
    assert LastIndexOf(src, '.') == -1;
  }

  /** Sample formats: the extension, or the whole name without one. */
  lemma FormatExamples()
    ensures Format("song.mp3") == "audio/mp3"
    ensures Format("track") == "audio/track"
  {
    assert "song.mp3" == "song" + "." + "mp3";
    FormatOfExtension("song", "mp3");
    FormatWithoutDot("track");
  }

  /** A dot in a directory name is taken for an extension's when the file
      itself has none. */
  lemma FormatOfDottedDirectory()
    ensures Format("v1.2/track") == "audio/2/track"
  {
    assert "v1.2/track" == "v1" + "." + "2/track";
    FormatOfExtension("v1", "2/track");
  }

  // ---------------------------------------------------------------------
  // The track

  /** What the track does to its element. */
  datatype ElementCall =
    | NewElement(src: string, preload: string)   // `new Audio()` with src and preload set
    | ElementPlay
    | ElementPause
    | SetCurrentTime(time: real)
    | SetElementVolume(level: real)

  /** One entry of the track's log: an object passed to the subscriber's
      callback, or a command on the element. The status of an emission is
      None where the code names a member STATUS_MEDIA does not have. */
  datatype Effect =
    | Emitted(value: Value, status: Option<int>)
    | Command(call: ElementCall)

  class WebAudioTrack {
    const src: string
    const preload: string

    /** Whether the track holds an element (`this.audio`). */
    var audio: bool
    var isPlaying: bool
    var isFinished: bool
    var progress: real
    var completed: real
    /** None while undefined or NaN. */
    var duration: Option<real>
    var id: Option<int>
    /** Undefined until the first play or canplay; undefined is false here. */
    var isLoading: bool
    var hasLoaded: bool
    /** How many observables `createAudio` has built. */
    var observables: nat
    /** Emissions and element commands, oldest first. */
    var log: seq<Effect>

    /** The track is never playing and finished at once, and its ratio is a
        whole number of hundredths. */
    ghost predicate Valid()
      reads this
    {
      !(isPlaying && isFinished) && OnHundredths(completed)
    }

    /** The constructor. */
    constructor (src: string, preload: string)
      ensures Valid()
      ensures this.src == src && this.preload == preload
      ensures audio && !isPlaying && !isFinished && progress == 0.0 && completed == 0.0
      ensures duration == None && id == None && !isLoading && !hasLoaded
      ensures observables == 1 && log == [Command(NewElement(src, preload))]
    {
      this.src := src;
      this.preload := preload;
      audio, isPlaying, isFinished, progress, completed := false, false, false, 0.0, 0.0;
      duration, id, isLoading, hasLoaded := None, None, false, false;
      observables, log := 0, [];
      new;
      CreateAudio();
    }

    /** createAudio: a new element and a new observable; the listeners below
        are attached to it. */
    method CreateAudio()
      requires Valid()
      modifies this`audio, this`observables, this`log
      ensures Valid()
      ensures audio && observables == old(observables) + 1
      ensures log == old(log) + [Command(NewElement(src, preload))]
    {
      audio := true;
      observables := observables + 1;
      log := log + [Command(NewElement(src, preload))];
    }

    /** The timeupdate listener: onTimeUpdate, then a POSITION emission.
        `currentTime` and `elementDuration` are what the held element reads;
        while playing without an element, reading them throws. */
    method OnTimeUpdate(currentTime: real, elementDuration: Option<real>) returns (outcome: Outcome)
      requires Valid()
      modifies this`progress, this`completed, this`log
      ensures Valid()
      ensures outcome == TypeError <==> isPlaying && !audio
      ensures outcome == TypeError ==> unchanged(this)
      ensures outcome == Returned ==>
        && (isPlaying && currentTime > 0.0 ==>
              progress == currentTime && completed == Completed(currentTime, elementDuration))
        && (!(isPlaying && currentTime > 0.0) ==> progress == old(progress) && completed == old(completed))
        && log == old(log) + [Emitted(DomEvent("timeupdate"), Some(MediaPosition))]
    {
      if isPlaying {
        if !audio {
          return TypeError;
        }
        if currentTime > 0.0 {
          progress := currentTime;
          completed := Completed(currentTime, elementDuration);
        }
      }
      log := log + [Emitted(DomEvent("timeupdate"), Some(MediaPosition))];
      return Returned;
    }

    /** The error listener. */
    method OnError()
      requires Valid()
      modifies this`isPlaying, this`log
      ensures Valid()
      ensures !isPlaying
      ensures log == old(log) + [Emitted(DomEvent("error"), Some(MediaError))]
    {
      isPlaying := false;
      log := log + [Emitted(DomEvent("error"), Some(MediaError))];
    }

    /** The canplay listener. */
    method OnCanPlay()
      requires Valid()
      modifies this`isLoading, this`hasLoaded, this`log
      ensures Valid()
      ensures !isLoading && hasLoaded
      ensures log == old(log) + [Emitted(DomEvent("canplay"), Some(MediaStarting))]
    {
      isLoading := false;
      hasLoaded := true;
      log := log + [Emitted(DomEvent("canplay"), Some(MediaStarting))];
    }

    /** The playing listener. */
    method OnPlaying()
      requires Valid()
      modifies this`isFinished, this`isPlaying, this`log
      ensures Valid()
      ensures !isFinished && isPlaying
      ensures log == old(log) + [Emitted(DomEvent("playing"), Some(MediaRunning))]
    {
      isFinished := false;
      isPlaying := true;
      log := log + [Emitted(DomEvent("playing"), Some(MediaRunning))];
    }

    /** The pause listener: an emission only; `isPlaying` is left as it is. */
    method OnPauseEvent()
      requires Valid()
      modifies this`log
      ensures Valid()
      ensures log == old(log) + [Emitted(DomEvent("pause"), Some(MediaPaused))]
    {
      log := log + [Emitted(DomEvent("pause"), Some(MediaPaused))];
    }

    /** The ended listener: playback is reset but the element is kept. */
    method OnEnded()
      requires Valid()
      modifies this`isPlaying, this`isFinished, this`progress, this`completed, this`hasLoaded, this`log
      ensures Valid()
      ensures !isPlaying && isFinished && progress == 0.0 && completed == 0.0 && !hasLoaded
      ensures log == old(log) + [Emitted(DomEvent("ended"), Some(MediaStopped))]
    {
      isPlaying := false;
      isFinished := true;
      progress := 0.0;
      completed := 0.0;
      hasLoaded := false;
      log := log + [Emitted(DomEvent("ended"), Some(MediaStopped))];
    }

    /** The durationchange listener: the duration of the element that fired.
        Its status names no STATUS_MEDIA member, so it is None. */
    method OnDurationChange(targetDuration: Option<real>)
      requires Valid()
      modifies this`duration, this`log
      ensures Valid()
      ensures duration == targetDuration
      ensures log == old(log) + [Emitted(DomEvent("durationchange"), None)]
    {
      duration := targetDuration;
      log := log + [Emitted(DomEvent("durationchange"), None)];
    }

    /** The progress listener. */
    method OnProgress()
      requires Valid()
      modifies this`log
      ensures Valid()
      ensures log == old(log) + [Emitted(DomEvent("progress"), Some(MediaProgress))]
    {
      log := log + [Emitted(DomEvent("progress"), Some(MediaProgress))];
    }

    /** The suspend listener. */
    method OnSuspend()
      requires Valid()
      modifies this`log
      ensures Valid()
      ensures log == old(log) + [Emitted(DomEvent("suspend"), Some(MediaSuspend))]
    {
      log := log + [Emitted(DomEvent("suspend"), Some(MediaSuspend))];
    }

    /** The `id` setter. */
    method SetId(v: int)
      requires Valid()
      modifies this`id
      ensures Valid()
      ensures id == Some(v)
    {
      id := Some(v);
    }

    /** The `canPlay` getter. The format is read from the element before the
        `this.audio &&` guard, so without an element it throws. `canPlayType`
        is the element's answer for a MIME type. */
    method CanPlay(canPlayType: string -> string) returns (outcome: Outcome, playable: bool)
      requires Valid()
      ensures outcome == (if audio then Returned else TypeError)
      ensures audio ==> (playable <==> canPlayType(Format(src)) != "")
      ensures !audio ==> !playable
    {
      if !audio {
        return TypeError, false;
      }
      var format := Format(src);
      return Returned, canPlayType(format) != "";
    }

    /** play: a new element only when there is none; loading unless loaded. */
    method Play()
      requires Valid()
      modifies this`audio, this`observables, this`isLoading, this`log
      ensures Valid()
      ensures audio
      ensures observables == old(observables) + (if old(audio) then 0 else 1)
      ensures isLoading == (old(isLoading) || !hasLoaded)
      ensures log == old(log) + (if old(audio) then [] else [Command(NewElement(src, preload))]) + [Command(ElementPlay)]
    {
      if !audio {
        CreateAudio();
      }
      if !hasLoaded {
        isLoading := true;
      }
      log := log + [Command(ElementPlay)];
    }

    /** pause: nothing unless playing; the element is paused before the flag
        is cleared, so without an element the flag stays set. */
    method Pause() returns (outcome: Outcome)
      requires Valid()
      modifies this`isPlaying, this`log
      ensures Valid()
      ensures outcome == TypeError <==> old(isPlaying) && !audio
      ensures !(old(isPlaying) && audio) ==> unchanged(this)
      ensures old(isPlaying) && audio ==> !isPlaying && log == old(log) + [Command(ElementPause)]
    {
      if !isPlaying {
        return Returned;
      }
      if !audio {
        return TypeError;
      }
      log := log + [Command(ElementPause)];
      isPlaying := false;
      return Returned;
    }

    /** stop: nothing without an element; otherwise pause, then finished.
        The element is kept; the listener removal has no effect. */
    method Stop()
      requires Valid()
      modifies this`isPlaying, this`isFinished, this`log
      ensures Valid()
      ensures !old(audio) ==> unchanged(this)
      ensures old(audio) ==>
        && !isPlaying && isFinished
        && log == old(log) + (if old(isPlaying) then [Command(ElementPause)] else [])
    {
      if !audio {
        return;
      }
      var _ := Pause();
      isFinished := true;
    }

    /** seekTo: nothing without an element; otherwise SEEKTO with the time is
        emitted before the element's position is set. */
    method SeekTo(time: real)
      requires Valid()
      modifies this`log
      ensures Valid()
      ensures !audio ==> unchanged(this)
      ensures audio ==> log == old(log) + [Emitted(Number(time), Some(MediaSeekTo)), Command(SetCurrentTime(time))]
    {
      if !audio {
        return;
      }
      log := log + [Emitted(Number(time), Some(MediaSeekTo))];
      log := log + [Command(SetCurrentTime(time))];
    }

    /** setVolume: the clamped volume goes to the element; the track stores
        nothing. */
    method SetVolume(v: real) returns (outcome: Outcome)
      requires Valid()
      modifies this`log
      ensures Valid()
      ensures outcome == (if audio then Returned else TypeError)
      ensures log == if audio then old(log) + [Command(SetElementVolume(Clamp01(v)))] else old(log)
    {
      var volume := Clamp01(v);
      if !audio {
        return TypeError;
      }
      log := log + [Command(SetElementVolume(volume))];
      return Returned;
    }

    /** destroy: drops the element and nothing else. */
    method Destroy()
      requires Valid()
      modifies this`audio
      ensures Valid()
      ensures !audio
    {
      audio := false;
    }
  }
}
