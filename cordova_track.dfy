/** The poll-driven track over a Cordova `Media` handle. The handle reports
    only coarse status changes, a completion and an error; the track polls it
    once a second for duration, buffered fraction and position, infers stalls
    from repeated positions, and emits every change on one message log that
    outlives the handle. */
module CordovaTrack {
  import opened Runtime
  import opened Messages

  // Status codes of the Cordova media plugin's status callback
  // (Media.MEDIA_STARTING .. Media.MEDIA_STOPPED); they equal the
  // STATUS_MEDIA codes of the same names.
  const NativeStarting := 1
  const NativeRunning := 2
  const NativePaused := 3
  const NativeStopped := 4

  /** The calls the track makes on the native side, in the order it makes them. */
  datatype MediaCall =
    | NewMedia(src: string)       // `new Media(src, …callbacks)`
    | HandlePlay                   // `play({playAudioWhenScreenIsLocked: true})`
    | HandlePause
    | HandleStop
    | HandleSeekTo(ms: Option<real>)  // None: the target is NaN
    | HandleSetVolume(level: real)
    | HandleRelease

  // ---------------------------------------------------------------------
  // Stall detection on the three-slot position window

  /** The new sample is non-zero and equals every stored sample. */
  predicate Stalled(window: seq<real>, p: real)
    requires |window| == 3
  {
    p != 0.0 && window[0] == p && window[1] == p && window[2] == p
  }

  /** The window after storing sample p: the oldest sample drops out. */
  function Shift(window: seq<real>, p: real): (w: seq<real>)
    requires |window| == 3
    ensures |w| == 3 && w == (window + [p])[1..]
  {
    [window[1], window[2], p]
  }

  /** The window after storing each of the samples in turn. */
  function Feed(window: seq<real>, samples: seq<real>): (w: seq<real>)
    requires |window| == 3
    ensures |w| == 3
    decreases |samples|
  {
    if samples == [] then window else Feed(Shift(window, samples[0]), samples[1..])
  }

  /** Sample i triggers the stall check, the window having seen samples[..i]. */
  predicate StallsAt(window: seq<real>, samples: seq<real>, i: nat)
    requires |window| == 3 && i < |samples|
  {
    Stalled(Feed(window, samples[..i]), samples[i])
  }

  /** The window always holds the last three samples it was given. */
  lemma {:induction false} FeedKeepsLastThree(window: seq<real>, samples: seq<real>)
    requires |window| == 3
    ensures Feed(window, samples) == (window + samples)[|samples|..]
    decreases |samples|
  {
    if samples != [] {
      var w' := Shift(window, samples[0]);
      FeedKeepsLastThree(w', samples[1..]);
      assert w' + samples[1..] == (window + samples)[1..];
    }
  }

  /** From the initial window [0, 0, 0], sample i triggers a pause exactly
      when it is non-zero and equals the three samples before it: four equal
      non-zero readings in a row, never fewer. */
  lemma StallNeedsFourEqualReadings(samples: seq<real>, i: nat)
    requires i < |samples|
    ensures StallsAt([0.0, 0.0, 0.0], samples, i) <==>
      3 <= i && samples[i] != 0.0 &&
      samples[i - 3] == samples[i] && samples[i - 2] == samples[i] && samples[i - 1] == samples[i]
  {
    var zero := [0.0, 0.0, 0.0];
    FeedKeepsLastThree(zero, samples[..i]);
    var w := Feed(zero, samples[..i]);
    assert w == (zero + samples[..i])[i..];
    if i < 3 {
      assert w[0] == 0.0;
    } else {
      assert w == samples[i - 3..i];
    }
  }

  /** Three equal non-zero readings on a fresh window trigger nothing; the
      fourth does; a repeated zero never does. */
  lemma StallExamples()
    ensures forall i :: 0 <= i < 3 ==> !StallsAt([0.0, 0.0, 0.0], [5.0, 5.0, 5.0], i)
    ensures StallsAt([0.0, 0.0, 0.0], [5.0, 5.0, 5.0, 5.0], 3)
    ensures forall i :: 0 <= i < 4 ==> !StallsAt([0.0, 0.0, 0.0], [5.0, 5.0, 5.0, 6.0], i)
    ensures forall i :: 0 <= i < 4 ==> !StallsAt([0.0, 0.0, 0.0], [0.0, 0.0, 0.0, 0.0], i)
  {
    forall i | 0 <= i < 3 ensures !StallsAt([0.0, 0.0, 0.0], [5.0, 5.0, 5.0], i) {
      StallNeedsFourEqualReadings([5.0, 5.0, 5.0], i);
    }
    StallNeedsFourEqualReadings([5.0, 5.0, 5.0, 5.0], 3);
    forall i | 0 <= i < 4 ensures !StallsAt([0.0, 0.0, 0.0], [5.0, 5.0, 5.0, 6.0], i) {
      StallNeedsFourEqualReadings([5.0, 5.0, 5.0, 6.0], i);
    }
    forall i | 0 <= i < 4 ensures !StallsAt([0.0, 0.0, 0.0], [0.0, 0.0, 0.0, 0.0], i) {
      StallNeedsFourEqualReadings([0.0, 0.0, 0.0, 0.0], i);
    }
  }

  // ---------------------------------------------------------------------
  // Pure parts of the poll tick and the commands

  /** The ratio stored on a valid position: progress / duration rounded to two
      decimals when the duration is known and positive, else 0. */
  function PolledCompleted(progress: real, duration: Option<real>): (c: real)
    ensures !IsPositive(duration) ==> c == 0.0
    ensures OnHundredths(c)
    ensures IsPositive(duration) ==> c - 0.005 <= progress / duration.value < c + 0.005
  {
    if IsPositive(duration) then Round2(progress / duration.value) else 0.0
  }

  /** Within the track the ratio is in [0, 1]. */
  lemma PolledCompletedInUnitRange(progress: real, duration: real)
    requires 0.0 <= progress <= duration && duration > 0.0
    ensures 0.0 <= PolledCompleted(progress, Some(duration)) <= 1.0
  {
    RatioInUnitInterval(progress, duration);
    Round2UnitInterval(progress / duration);
  }

  /** 50 s into a 200 s track is 0.25; with the duration unknown it is 0. */
  lemma PolledCompletedExamples()
    ensures PolledCompleted(50.0, Some(200.0)) == 0.25
    ensures PolledCompleted(50.0, None) == 0.0
  {
    Round2OfHundredths(25);
  }

  /** seekTo's target in seconds: a percentage of the duration when
      `byPercent`, else the time itself; None when the product is NaN because
      the duration is still undefined. */
  function SeekTarget(time: real, byPercent: bool, duration: Option<real>): (t: Option<real>)
    ensures !byPercent ==> t == Some(time)
    ensures byPercent ==> t.Some? == duration.Some?
  {
    if !byPercent then Some(time)
    else if duration.None? then None
    else Some(time * duration.value / 100.0)
  }

  /** The millisecond argument passed to the handle's seekTo. */
  function Millis(seconds: Option<real>): Option<real>
  {
    if seconds.None? then None else Some(seconds.value * 1000.0)
  }

  /** A percentage in [0, 100] lands inside the track, 0 at its start and
      100 at its end. */
  lemma SeekByPercentWithinTrack(time: real, duration: real)
    requires 0.0 <= time <= 100.0 && duration >= 0.0
    ensures var t := SeekTarget(time, true, Some(duration));
      t.Some? && 0.0 <= t.value <= duration
    ensures SeekTarget(0.0, true, Some(duration)) == Some(0.0)
    ensures SeekTarget(100.0, true, Some(duration)) == Some(duration)
  {
    assert 0.0 <= time * duration <= 100.0 * duration;
  }

  /** 50 percent of 200 s is 100 s; an absolute 30 s ignores the duration. */
  lemma SeekExamples(duration: Option<real>)
    ensures SeekTarget(50.0, true, Some(200.0)) == Some(100.0)
    ensures SeekTarget(30.0, false, duration) == Some(30.0)
    ensures Millis(SeekTarget(30.0, false, duration)) == Some(30000.0)
  {
  }

  // ---------------------------------------------------------------------
  // The track

  /** The `value` of a message that carries `this.audio`: the handle, or
      undefined once it has been dropped. */
  function HandleValue(present: bool): Value
  {
    if present then MediaHandle else Undefined
  }

  /** Whether a tick learns the duration: none is known (undefined or
      negative) and the handle reports a positive one. */
  predicate Learns(known: Option<real>, reading: real)
  {
    (known.None? || known.value < 0.0) && reading > 0.0
  }

  /** Whether a tick reports buffering: the duration is positive and the
      handle's fraction is positive and differs from the last one reported. */
  predicate Buffers(duration: Option<real>, reading: real, last: real)
  {
    IsPositive(duration) && reading > 0.0 && reading != last
  }

  /** The end of the buffered range, in seconds: the buffered fraction of the
      duration. */
  function BufferedEnd(fraction: real, duration: real): (e: real)
    ensures 0.0 <= fraction <= 1.0 && duration > 0.0 ==> 0.0 <= e <= duration
  {
    fraction * duration
  }

  class CordovaAudioTrack {
    const src: string
    /** Media.MEDIA_STATE_ERROR, a code of the native plugin. */
    const stateError: int
    /** `_lastPositions`: the three most recent polled positions. */
    const lastPositions: array<real>

    /** Whether the track holds a native handle (`this.audio`). */
    var audio: bool
    var isPlaying: bool
    var isFinished: bool
    var isLoading: bool
    var hasLoaded: bool
    var progress: real
    var completed: real
    /** None while undefined. */
    var duration: Option<real>
    var lastBufferedPercent: real
    var volume: real
    var id: Option<int>
    var progressEventSent: bool
    /** Whether a poll interval is registered (`_timer` non-null). */
    var timer: bool
    /** Every message the track has put on its channel, oldest first. The
        channel is created once and survives every handle. */
    var messages: seq<NamedMessage>
    /** Every call made on a native handle, oldest first. */
    var calls: seq<MediaCall>

    /** The messages the position callback has put on the log, oldest first. */
    ghost var positionMessages: seq<NamedMessage>

    /** The window has three slots, and progress and ratio are whole numbers
        of hundredths. */
    ghost predicate Valid()
      reads this
    {
      && lastPositions.Length == 3
      && OnHundredths(progress) && OnHundredths(completed)
    }

    /** The position callback has sent PROGRESS_ENABLE once when the flag is
        set, and never while it is clear. Only the position callback has the
        flag or its record in its frame, so every other method keeps this. */
    ghost predicate EnabledOnce()
      reads this`positionMessages, this`progressEventSent
    {
      CountStatus(positionMessages, MediaProgressEnable) == (if progressEventSent then 1 else 0)
    }

    ghost function Window(): seq<real>
      reads this, lastPositions
    {
      lastPositions[..]
    }

    constructor (src: string, stateError: int)
      ensures Valid() && fresh(lastPositions)
      ensures this.src == src && this.stateError == stateError
      ensures Window() == [0.0, 0.0, 0.0] && positionMessages == [] && EnabledOnce()
      ensures audio && !isPlaying && !isFinished && !isLoading && !hasLoaded
      ensures progress == 0.0 && completed == 0.0 && duration == None && lastBufferedPercent == 0.0
      ensures volume == 1.0 && id == None && !progressEventSent && !timer
      ensures messages == [] && calls == [NewMedia(src)]
    {
      this.src := src;
      this.stateError := stateError;
      lastPositions := new real[3](_ => 0.0);
      audio, isPlaying, isFinished, isLoading, hasLoaded := false, false, false, false, false;
      progress, completed, duration, lastBufferedPercent := 0.0, 0.0, None, 0.0;
      volume, id, progressEventSent, timer := 1.0, None, false, false;
      messages, calls := [], [];
      positionMessages := [];
      new;
      CreateAudio();
    }

    /** createAudio: a new native handle; the message channel is kept. */
    method CreateAudio()
      requires Valid()
      modifies this`audio, this`calls
      ensures Valid()
      ensures audio && calls == old(calls) + [NewMedia(src)]
    {
      audio := true;
      calls := calls + [NewMedia(src)];
    }

    /** The completion callback: reset playback, mark finished, then destroy,
        which clears `isFinished` again when a handle was held. */
    method OnComplete()
      requires Valid()
      modifies this`timer, this`progress, this`completed, this`lastBufferedPercent, this`hasLoaded,
        this`isFinished, this`isPlaying, this`audio, this`isLoading, this`calls
      ensures Valid()
      ensures !timer && !hasLoaded && !isPlaying && !audio
      ensures progress == 0.0 && completed == 0.0 && lastBufferedPercent == 0.0
      ensures old(audio) ==> !isFinished && !isLoading && calls == old(calls) + [HandleRelease]
      ensures !old(audio) ==> isFinished && isLoading == old(isLoading) && calls == old(calls)
    {
      StopTimer();
      progress := 0.0;
      completed := 0.0;
      lastBufferedPercent := 0.0;
      hasLoaded := false;
      isFinished := true;
      isPlaying := false;
      Destroy();
    }

    /** The error callback. */
    method OnError(code: int)
      requires Valid()
      modifies this`isPlaying, this`messages
      ensures Valid()
      ensures !isPlaying
      ensures messages == old(messages) + [CreateMessage(NativeError(code), MediaError)]
    {
      isPlaying := false;
      messages := messages + [CreateMessage(NativeError(code), MediaError)];
    }

    /** Whether `status` reaches the MEDIA_STATE_ERROR case of the switch. */
    predicate IsStateError(status: int)
    {
      status == stateError && !(NativeStarting <= status <= NativeStopped)
    }

    /** The status callback: the switch on the native status, then a message
        carrying the raw status and the handle. */
    method OnStatus(status: int)
      requires Valid() && IsStatus(status)
      modifies this`hasLoaded, this`isPlaying, this`isLoading, this`lastBufferedPercent, this`timer, this`messages
      ensures Valid()
      ensures hasLoaded == (old(hasLoaded) || status == NativeStarting)
      ensures isPlaying == if status == NativeRunning then true
                           else if status == NativePaused || status == NativeStopped || IsStateError(status) then false
                           else old(isPlaying)
      ensures isLoading == (old(isLoading) && status != NativeRunning)
      ensures lastBufferedPercent == if IsStateError(status) then 0.0 else old(lastBufferedPercent)
      ensures timer == (old(timer) && !IsStateError(status))
      ensures messages == old(messages) + [CreateMessage(HandleValue(audio), status)]
    {
      if status == NativeStarting {
        hasLoaded := true;
      } else if status == NativeRunning {
        isPlaying := true;
        isLoading := false;
      } else if status == NativePaused {
        isPlaying := false;
      } else if status == NativeStopped {
        isPlaying := false;
      } else if status == stateError {
        isPlaying := false;
        lastBufferedPercent := 0.0;
        StopTimer();
      }
      messages := messages + [CreateMessage(HandleValue(audio), status)];
    }

    /** The initial-volume callback. */
    method OnInitialVolume(initialVolume: real)
      requires Valid()
      modifies this`volume
      ensures Valid()
      ensures volume == initialVolume
    {
      volume := initialVolume;
    }

    /** One poll tick, given what the handle reports as duration and buffered
        fraction. A known positive duration is never replaced. */
    method Tick(durReading: real, bufReading: real)
      requires Valid()
      modifies this`duration, this`lastBufferedPercent, this`messages
      ensures Valid()
      ensures IsPositive(old(duration)) ==> duration == old(duration)
      ensures !audio ==> unchanged(this)
      ensures audio ==> duration == (if Learns(old(duration), durReading) then Some(Round2(durReading)) else old(duration))
      ensures audio ==>
        lastBufferedPercent == if Buffers(duration, bufReading, old(lastBufferedPercent)) then bufReading
                               else old(lastBufferedPercent)
      ensures audio ==>
        messages == old(messages)
          + (if Learns(old(duration), durReading) then [CreateMessage(Null, MediaDurationChange)] else [])
          + (if Buffers(duration, bufReading, old(lastBufferedPercent))
             then [CreateMessage(BufferedProgress(BufferedEnd(bufReading, duration.value), bufReading), MediaProgress)]
             else [])
    {
      if !audio {
        return;
      }
      var learned: seq<NamedMessage> := [];
      if duration.None? || duration.value < 0.0 {
        if durReading > 0.0 {
          duration := Some(Round2(durReading));
          // the `duration` key passed beside value and status is dropped by createMessage
          learned := [CreateMessage(Null, MediaDurationChange)];
        }
      }
      var buffered: seq<NamedMessage> := [];
      if IsPositive(duration) && bufReading > 0.0 && bufReading != lastBufferedPercent {
        lastBufferedPercent := bufReading;
        buffered := [CreateMessage(BufferedProgress(BufferedEnd(bufReading, duration.value), bufReading), MediaProgress)];
      }
      messages := messages + learned + buffered;
    }

    /** The position callback of a tick. A reading of -1 or below is ignored;
        otherwise the rounded reading becomes the progress, the stall check
        runs (its pause may throw without a handle, ending the callback), the
        ratio is recomputed, and with a known duration and positive progress
        a one-shot PROGRESS_ENABLE and a POSITION message follow. */
    method OnPosition(position: real) returns (outcome: Outcome)
      requires Valid() && EnabledOnce()
      modifies this`progress, this`completed, this`isPlaying, this`timer, this`calls,
        this`progressEventSent, this`positionMessages, this`messages, lastPositions
      ensures Valid() && EnabledOnce()
      ensures position <= -1.0 ==> outcome == Returned && unchanged(this, lastPositions)
      ensures outcome == TypeError <==>
        position > -1.0 && Stalled(old(Window()), Round2(position)) && old(isPlaying) && !audio
      ensures outcome == TypeError ==>
        && progress == Round2(position) && !isPlaying
        && unchanged(this`completed, this`timer, this`calls, this`progressEventSent, this`messages,
             this`positionMessages, lastPositions)
      ensures position > -1.0 && outcome == Returned ==>
        var paused := Stalled(old(Window()), progress) && old(isPlaying);
        var emit := IsPositive(duration) && progress > 0.0;
        && progress == Round2(position)
        && Window() == Shift(old(Window()), progress)
        && isPlaying == (!paused && old(isPlaying))
        && timer == (!paused && old(timer))
        && calls == (if paused then old(calls) + [HandlePause] else old(calls))
        && completed == PolledCompleted(progress, duration)
        && progressEventSent == (old(progressEventSent) || emit)
        && messages == old(messages)
             + (if emit && !old(progressEventSent) then [CreateMessage(HandleValue(audio), MediaProgressEnable)] else [])
             + (if emit then [CreateMessage(Number(completed), MediaPosition)] else [])
        && positionMessages == old(positionMessages) + messages[|old(messages)|..]
    {
      outcome := Returned;
      if position > -1.0 {
        progress := Round2(position);
        var stalled;
        stalled, outcome := DetectPaused();
        if outcome == TypeError {
          return;
        }
        completed := PolledCompleted(progress, duration);
        ReportPosition();
      }
    }

    /** The end of the position callback: with a known duration and positive
        progress, PROGRESS_ENABLE when the flag is still clear, then POSITION
        carrying the ratio. Both go on the log and on the ghost record of
        the position callback's messages. */
    method ReportPosition()
      requires Valid() && EnabledOnce()
      modifies this`progressEventSent, this`positionMessages, this`messages
      ensures Valid() && EnabledOnce()
      ensures var emit := IsPositive(duration) && progress > 0.0;
        && progressEventSent == (old(progressEventSent) || emit)
        && messages == old(messages)
             + (if emit && !old(progressEventSent) then [CreateMessage(HandleValue(audio), MediaProgressEnable)] else [])
             + (if emit then [CreateMessage(Number(completed), MediaPosition)] else [])
        && positionMessages == old(positionMessages) + messages[|old(messages)|..]
    {
      var enabled: seq<NamedMessage> := [];
      var moved: seq<NamedMessage> := [];
      if IsPositive(duration) && progress > 0.0 {
        if !progressEventSent {
          progressEventSent := true;
          enabled := [CreateMessage(HandleValue(audio), MediaProgressEnable)];
        }
        // the `position` key passed beside value and status is dropped by createMessage
        moved := [CreateMessage(Number(completed), MediaPosition)];
      }
      CountStatusConcat(positionMessages, enabled + moved, MediaProgressEnable);
      CountStatusConcat(enabled, moved, MediaProgressEnable);
      messages := messages + (enabled + moved);
      assert messages[|old(messages)|..] == enabled + moved;
      positionMessages := positionMessages + (enabled + moved);
    }

    /** stopTimer: clears the poll interval if one is registered. */
    method StopTimer()
      requires Valid()
      modifies this`timer
      ensures Valid()
      ensures !timer
    {
      if !timer {
        return;
      }
      timer := false;
    }

    /** detectPaused: compares the progress with the three stored samples,
        pauses on a stall, then shifts the window in place. When the pause
        throws, the window is left as it was. */
    method DetectPaused() returns (stalled: bool, outcome: Outcome)
      requires Valid()
      modifies this`isPlaying, this`timer, this`calls, lastPositions
      ensures Valid()
      ensures stalled == Stalled(old(Window()), progress)
      ensures outcome == TypeError <==> stalled && old(isPlaying) && !audio
      ensures outcome == Returned ==> Window() == Shift(old(Window()), progress)
      ensures outcome == TypeError ==> unchanged(lastPositions)
      ensures !(stalled && old(isPlaying)) ==> unchanged(this`isPlaying, this`timer, this`calls)
      ensures stalled && old(isPlaying) ==> !isPlaying
      ensures stalled && old(isPlaying) && audio ==> !timer && calls == old(calls) + [HandlePause]
      ensures stalled && old(isPlaying) && !audio ==> unchanged(this`timer, this`calls)
    {
      var lastPosition := progress;
      stalled := lastPosition != 0.0 && lastPositions[0] == lastPosition
        && lastPositions[1] == lastPosition && lastPositions[2] == lastPosition;
      outcome := Returned;
      if stalled {
        outcome := Pause();
        if outcome == TypeError {
          return;
        }
      }
      lastPositions[0] := lastPositions[1];
      lastPositions[1] := lastPositions[2];
      lastPositions[2] := lastPosition;
    }

    /** The `duration` getter: a positive cached value, or any value without a
        handle, is returned as it is; otherwise the handle's reading is stored
        unrounded and returned. */
    method Duration(reading: real) returns (d: Option<real>)
      requires Valid()
      modifies this`duration
      ensures Valid()
      ensures d == duration
      ensures IsPositive(old(duration)) || !audio ==> duration == old(duration)
      ensures !IsPositive(old(duration)) && audio ==> duration == Some(reading)
    {
      if IsPositive(duration) || !audio {
        return duration;
      }
      duration := Some(reading);
      return duration;
    }

    /** The `bufferedPercent` getter: a positive cached fraction, or any value
        without a handle, is returned; otherwise the handle's reading is
        stored and returned. */
    method BufferedPercent(reading: real) returns (pct: real)
      requires Valid()
      modifies this`lastBufferedPercent
      ensures Valid()
      ensures pct == lastBufferedPercent
      ensures old(lastBufferedPercent) > 0.0 || !audio ==> lastBufferedPercent == old(lastBufferedPercent)
      ensures !(old(lastBufferedPercent) > 0.0) && audio ==> lastBufferedPercent == reading
    {
      if lastBufferedPercent > 0.0 || !audio {
        return lastBufferedPercent;
      }
      lastBufferedPercent := reading;
      return reading;
    }

    /** The `id` setter. */
    method SetId(v: int)
      requires Valid()
      modifies this`id
      ensures Valid()
      ensures id == Some(v)
    {
      id := Some(v);
    }

    /** play: recreates the handle if there is none, marks loading unless
        loaded, clears finished, plays and starts polling. The message log is
        not touched: the new handle emits on the same channel. */
    method Play()
      requires Valid()
      modifies this`audio, this`isLoading, this`isFinished, this`calls, this`timer
      ensures Valid()
      ensures audio && !isFinished && timer
      ensures isLoading == (old(isLoading) || !hasLoaded)
      ensures calls == old(calls) + (if old(audio) then [] else [NewMedia(src)]) + [HandlePlay]
    {
      if !audio {
        CreateAudio();
      }
      if !hasLoaded {
        isLoading := true;
      }
      isFinished := false;
      calls := calls + [HandlePlay];
      timer := true;
    }

    /** pause: nothing unless playing; otherwise clears `isPlaying`, pauses
        the handle and stops polling. */
    method Pause() returns (outcome: Outcome)
      requires Valid()
      modifies this`isPlaying, this`calls, this`timer
      ensures Valid()
      ensures !old(isPlaying) ==> outcome == Returned && unchanged(this)
      ensures old(isPlaying) ==> !isPlaying
      ensures old(isPlaying) && audio ==> outcome == Returned && !timer && calls == old(calls) + [HandlePause]
      ensures old(isPlaying) && !audio ==> outcome == TypeError && unchanged(this`timer, this`calls)
    {
      if !isPlaying {
        return Returned;
      }
      isPlaying := false;
      if !audio {
        return TypeError;
      }
      calls := calls + [HandlePause];
      StopTimer();
      return Returned;
    }

    /** stop: stops polling and the handle; the handle answers through the
        status and completion callbacks. */
    method Stop() returns (outcome: Outcome)
      requires Valid()
      modifies this`timer, this`calls
      ensures Valid()
      ensures !timer
      ensures outcome == (if audio then Returned else TypeError)
      ensures calls == if audio then old(calls) + [HandleStop] else old(calls)
    {
      StopTimer();
      if !audio {
        return TypeError;
      }
      calls := calls + [HandleStop];
      return Returned;
    }

    /** seekTo: seeks the handle in milliseconds, then emits SEEKTO with the
        time as given, not the converted one. */
    method SeekTo(time: real, byPercent: bool) returns (outcome: Outcome)
      requires Valid()
      modifies this`calls, this`messages
      ensures Valid()
      ensures outcome == (if audio then Returned else TypeError)
      ensures !audio ==> unchanged(this)
      ensures audio ==>
        && calls == old(calls) + [HandleSeekTo(Millis(SeekTarget(time, byPercent, duration)))]
        && messages == old(messages) + [CreateMessage(Number(time), MediaSeekTo)]
    {
      var newTime := SeekTarget(time, byPercent, duration);
      if !audio {
        return TypeError;
      }
      calls := calls + [HandleSeekTo(Millis(newTime))];
      messages := messages + [CreateMessage(Number(time), MediaSeekTo)];
      return Returned;
    }

    /** setVolume: stores the clamped volume, then pushes it to the handle. */
    method SetVolume(v: real) returns (outcome: Outcome)
      requires Valid()
      modifies this`volume, this`calls
      ensures Valid()
      ensures volume == Clamp01(v) && 0.0 <= volume <= 1.0
      ensures outcome == (if audio then Returned else TypeError)
      ensures calls == if audio then old(calls) + [HandleSetVolume(volume)] else old(calls)
    {
      volume := Clamp01(v);
      if !audio {
        return TypeError;
      }
      calls := calls + [HandleSetVolume(volume)];
      return Returned;
    }

    /** destroy: nothing without a handle; otherwise stops polling, releases
        and drops the handle and resets the playback fields. The duration,
        volume, id, progress-enabled flag, window and message log stay, as
        the frame says. */
    method Destroy()
      requires Valid()
      modifies this`audio, this`timer, this`isLoading, this`hasLoaded, this`isFinished, this`isPlaying,
        this`progress, this`completed, this`lastBufferedPercent, this`calls
      ensures Valid()
      ensures !old(audio) ==> unchanged(this)
      ensures old(audio) ==>
        && !audio && !timer && !isLoading && !hasLoaded && !isFinished && !isPlaying
        && progress == 0.0 && completed == 0.0 && lastBufferedPercent == 0.0
        && calls == old(calls) + [HandleRelease]
    {
      if !audio {
        return;
      }
      StopTimer();
      calls := calls + [HandleRelease];
      audio := false;
      isLoading := false;
      hasLoaded := false;
      isFinished := false;
      isPlaying := false;
      progress := 0.0;
      completed := 0.0;
      lastBufferedPercent := 0.0;
    }
  }
}
