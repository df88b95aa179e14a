# ionic-audio track state, in Dafny

This project models the track layer of the ionic-audio library: the two
audio tracks an app plays through, and the status messages they emit.

- **The Cordova track** (`CordovaTrack.CordovaAudioTrack`) wraps a native
  `Media` handle. It reacts to the handle's completion, error and status
  callbacks. A one-second poll tick pulls the duration and the buffered
  fraction, and the position result that follows detects stalls on a
  three-slot window. The track also answers the commands play, pause,
  stop, seekTo, setVolume and destroy. Every message goes through
  `createMessage` onto one log, which outlives the handle.
- **The HTML5 track** (`WebTrack.WebAudioTrack`) wraps an `HTMLAudioElement`.
  It has one method per event listener (timeupdate, error, canplay,
  playing, pause, ended, durationchange, progress, suspend) and the same
  commands. Two pure pieces sit beside it: the truncated completion ratio
  and the MIME type probed by `canPlay`.
- **The messages** (`Messages`) are the dense `STATUS_MEDIA` enumeration, the
  `STATUS_MEDIA_MSG` name table and `createMessage`.

Both tracks are classes with the source's fields. Every method names the
fields it may change and states their new values. `Valid()` holds the
invariants the tracks keep:

- The Cordova window has three slots.
- On the Cordova track, progress and the ratio are whole hundredths.
- The position callback has sent PROGRESS_ENABLE once, exactly when its
  flag is set (`EnabledOnce`, a count over a ghost record of that
  callback's messages). The status callback passes any raw status
  through, so the log itself may hold other ProgressEnabled messages.
- The web track is never playing and finished at once.

A method on a handle that is no longer held throws a TypeError in
JavaScript. Each command that can do so returns an `Outcome`. Its
postcondition states the fields as they stood at the throw.

The native side is represented as follows:

- Native readings (duration, buffered fraction, position, current time,
  the element's `canPlayType` answer) are method parameters.
- The handle is a boolean.
- Calls on the handle are appended to a log. The Cordova track keeps a
  `calls` log, and the web track a single `log` shared with its emissions.

Where the code and its documented behaviour differ, the model follows the
code:

- The stall check compares the new sample with the three samples stored
  before it. A fresh window therefore needs four equal non-zero readings,
  not three, before it pauses (`StallNeedsFourEqualReadings`).
- The POSITION message is emitted only when the duration and the progress
  are both positive.
- The progress-enabled flag is never cleared, not by destroy or play.
- `createMessage` keeps only `value` and `status`. The `duration` and
  `position` keys the Cordova track passes beside them are dropped.
- The web track's durationchange emission uses a status name that
  `STATUS_MEDIA` does not define, so its status is `None`.
- The completion callback ends with `destroy()`. When a handle was held,
  it therefore ends with `isFinished == false`.

## Model

| member | source | states |
|---|---|---|
| Messages.StatusCodesDense | src/ionic-audio-interfaces.ts:103-120 | the twelve codes run 0..11 in declaration order, and a code is in range exactly when it is a member |
| Messages.NamesDistinct | src/ionic-audio-interfaces.ts:118-120 | no two entries of the name table are equal |
| Messages.CreateMessage | src/ionic-audio-interfaces.ts:127-130 | value and status are copied unchanged, and the name is the table entry for the status |
| Messages.FindStatus | src/ionic-audio-interfaces.ts:118-120 | the first code at or after `from` whose table name is the given one, or none when no code has that name |
| Messages.EventNameDeterminesStatus | src/ionic-audio-interfaces.ts:127-130 | the event name of a created message leads back to its status: the name table inverts |
| Messages.SameNameSameStatus | src/ionic-audio-interfaces.ts:127-130 | two created messages with the same name have the same status |
| Messages.CreateMessageNames | src/ionic-audio-interfaces.ts:113-120 | MEDIA_SEEKTO is named "Seek", MEDIA_DURATION_CHANGE "DurationChange", MEDIA_PROGRESS_ENABLE "ProgressEnabled", MEDIA_NONE "None" |
| Runtime.Round | src/ionic-audio-cordova-track.ts:114 | `Math.round` lies within one half of its argument |
| Runtime.Round2 | src/ionic-audio-cordova-track.ts:114 | rounding to two decimals moves the value by less than 0.005 and lands on a whole hundredth |
| Runtime.Round2Idempotent | src/ionic-audio-cordova-track.ts:131 | rounding a rounded value changes nothing |
| Runtime.Round2Monotone | src/ionic-audio-cordova-track.ts:133 | rounding to two decimals preserves order |
| Runtime.Round2OfHundredths | src/ionic-audio-cordova-track.ts:133 | every whole number of hundredths rounds to itself |
| Runtime.Round2UnitInterval | src/ionic-audio-cordova-track.ts:133 | a ratio in [0, 1] stays in [0, 1] after rounding |
| Runtime.RatioInUnitInterval | src/ionic-audio-cordova-track.ts:133 | a part of a positive whole gives a ratio in [0, 1], equal to 1 only for the whole |
| Runtime.Trunc | src/ionic-audio-web-track.ts:119 | `Math.trunc` drops the fraction toward zero, for both signs |
| Runtime.Clamp01 | src/ionic-audio-cordova-track.ts:388 | `min(max(0, v), 1)` is in [0, 1], is v inside it, and is 0 below and 1 above |
| Runtime.Clamp01Idempotent | src/ionic-audio-cordova-track.ts:388 | clamping a clamped volume changes nothing |
| Runtime.Clamp01Monotone | src/ionic-audio-cordova-track.ts:388 | clamping preserves the order of two volumes |
| CordovaTrack.Stalled | src/ionic-audio-cordova-track.ts:160-163 | the stall test: the new sample is non-zero and equal to each of the three stored samples |
| CordovaTrack.Shift | src/ionic-audio-cordova-track.ts:168-170 | the shifted window is the old window with the new sample appended, minus its oldest |
| CordovaTrack.Feed | src/ionic-audio-cordova-track.ts:157-171 | feeding samples one at a time keeps a three-slot window |
| CordovaTrack.FeedKeepsLastThree | src/ionic-audio-cordova-track.ts:157-171 | after any run of samples the window holds the last three values seen |
| CordovaTrack.StallNeedsFourEqualReadings | src/ionic-audio-cordova-track.ts:157-171 | from [0, 0, 0], a sample triggers the pause exactly when it is non-zero and equals the three samples before it |
| CordovaTrack.StallExamples | src/ionic-audio-cordova-track.ts:157-171 | three equal readings do not pause, the fourth does, a differing fourth or repeated zeros never do |
| CordovaTrack.PolledCompleted | src/ionic-audio-cordova-track.ts:133 | the ratio is 0 without a positive duration, and otherwise progress/duration within 0.005, on a whole hundredth |
| CordovaTrack.PolledCompletedInUnitRange | src/ionic-audio-cordova-track.ts:133 | within the track the ratio is in [0, 1] |
| CordovaTrack.PolledCompletedExamples | src/ionic-audio-cordova-track.ts:133 | 50 s of 200 s is 0.25; an unknown duration gives 0 |
| CordovaTrack.SeekTarget | src/ionic-audio-cordova-track.ts:359-362 | the time itself unless by percent; by percent it is defined exactly when the duration is |
| CordovaTrack.Millis | src/ionic-audio-cordova-track.ts:365 | the seek target in milliseconds, undefined when the target is |
| CordovaTrack.SeekByPercentWithinTrack | src/ionic-audio-cordova-track.ts:359-362 | a percentage in [0, 100] lands inside the track, 0 at its start and 100 at its end |
| CordovaTrack.SeekExamples | src/ionic-audio-cordova-track.ts:359-365 | 50 percent of 200 s is 100 s; 30 s absolute is sent as 30000 ms |
| CordovaTrack.BufferedEnd | src/ionic-audio-cordova-track.ts:122 | a fraction in [0, 1] of a positive duration ends inside the track |
| CordovaTrack.HandleValue | src/ionic-audio-cordova-track.ts:101 | the `value` of a message carrying `this.audio`: the handle, or undefined once dropped |
| CordovaTrack.Learns | src/ionic-audio-cordova-track.ts:111-113 | a tick learns the duration when none is known (undefined or negative) and the reading is positive |
| CordovaTrack.Buffers | src/ionic-audio-cordova-track.ts:120 | a tick reports buffering when the duration is positive and the fraction is positive and new |
| CordovaTrack.CordovaAudioTrack.constructor | src/ionic-audio-cordova-track.ts:17-40 | the initial fields, a fresh [0, 0, 0] window, one handle created and nothing emitted |
| CordovaTrack.CordovaAudioTrack.CreateAudio | src/ionic-audio-cordova-track.ts:52-55 | a new handle for the same source; the message log is kept |
| CordovaTrack.CordovaAudioTrack.OnComplete | src/ionic-audio-cordova-track.ts:55-66 | timer stopped, playback reset; with a handle it is released and `isFinished` ends false, without one `isFinished` ends true |
| CordovaTrack.CordovaAudioTrack.OnError | src/ionic-audio-cordova-track.ts:67-70 | playing cleared and one MEDIA_ERROR message carrying the error appended |
| CordovaTrack.CordovaAudioTrack.OnStatus | src/ionic-audio-cordova-track.ts:71-101 | STARTING sets loaded; RUNNING sets playing and clears loading; PAUSED and STOPPED clear playing; the state-error code also zeroes the buffered fraction and stops the timer; every status appends one message with that raw status |
| CordovaTrack.CordovaAudioTrack.IsStateError | src/ionic-audio-cordova-track.ts:92 | a status reaches the MEDIA_STATE_ERROR case when it is that code and no earlier case matched |
| CordovaTrack.CordovaAudioTrack.OnInitialVolume | src/ionic-audio-cordova-track.ts:102-105 | the reported volume is stored |
| CordovaTrack.CordovaAudioTrack.Tick | src/ionic-audio-cordova-track.ts:109-126 | nothing without a handle; a known positive duration is never replaced; the duration is learned only once, unknown and read positive, with one DURATION_CHANGE; buffering is reported only for a positive duration and a new positive fraction |
| CordovaTrack.CordovaAudioTrack.OnPosition | src/ionic-audio-cordova-track.ts:128-141 | a reading of -1 or below changes nothing; otherwise progress is the rounded reading, the stall check runs on the window, the ratio is recomputed, PROGRESS_ENABLE goes out once per object, and POSITION only with positive duration and progress; a throwing pause ends the callback |
| CordovaTrack.CordovaAudioTrack.ReportPosition | src/ionic-audio-cordova-track.ts:134-141 | with positive duration and progress: PROGRESS_ENABLE only while the flag is clear, which it then sets, then POSITION with the ratio; the position callback's ghost record grows by exactly what the log does, keeping `EnabledOnce` |
| CordovaTrack.CordovaAudioTrack.StopTimer | src/ionic-audio-cordova-track.ts:151-155 | the timer is cleared |
| CordovaTrack.CordovaAudioTrack.DetectPaused | src/ionic-audio-cordova-track.ts:157-171 | it pauses exactly when the sample is non-zero and equals all three stored samples, and then the window is shifted in place |
| CordovaTrack.CordovaAudioTrack.Duration | src/ionic-audio-cordova-track.ts:208-214 | a positive cached duration, or any one without a handle, is returned unchanged; otherwise the reading is stored and returned |
| CordovaTrack.CordovaAudioTrack.BufferedPercent | src/ionic-audio-cordova-track.ts:245-252 | a positive cached fraction, or any one without a handle, is returned unchanged; otherwise the reading is stored and returned |
| CordovaTrack.CordovaAudioTrack.SetId | src/ionic-audio-cordova-track.ts:197-199 | the id is stored |
| CordovaTrack.CordovaAudioTrack.Play | src/ionic-audio-cordova-track.ts:314-326 | a handle is created only if none is held; loading is set unless loaded; finished cleared; play called and polling started |
| CordovaTrack.CordovaAudioTrack.Pause | src/ionic-audio-cordova-track.ts:333-339 | nothing unless playing; otherwise playing cleared, then pause called and the timer stopped, or a throw with no handle |
| CordovaTrack.CordovaAudioTrack.Stop | src/ionic-audio-cordova-track.ts:346-349 | the timer stopped, then stop called on the handle, or a throw with no handle |
| CordovaTrack.CordovaAudioTrack.SeekTo | src/ionic-audio-cordova-track.ts:357-367 | the handle is sought to the target in milliseconds, then SEEKTO carrying the original time is appended |
| CordovaTrack.CordovaAudioTrack.SetVolume | src/ionic-audio-cordova-track.ts:386-390 | exactly the clamped volume is stored, so it is in [0, 1], and that value is pushed to the handle |
| CordovaTrack.CordovaAudioTrack.Destroy | src/ionic-audio-cordova-track.ts:397-410 | nothing without a handle; otherwise timer stopped, handle released and dropped, playback fields reset; duration, volume, id, progress flag, window and messages untouched |
| WebTrack.Completed | src/ionic-audio-web-track.ts:119 | 0 without a positive duration; otherwise a whole hundredth at most currentTime/duration and less than 0.01 below it |
| WebTrack.CompletedInUnitRange | src/ionic-audio-web-track.ts:119 | within the track the ratio is in [0, 1], and 1 only at the very end |
| WebTrack.CompletedTruncatesWhereCordovaRounds | src/ionic-audio-web-track.ts:119 | 199.5 s of 200 s is 0.99 on the web track but 1 on the Cordova track; 50 s of 200 s is 0.25 |
| WebTrack.LastIndexOf | src/ionic-audio-web-track.ts:202 | the index holds the character and no later index does, or -1 when it does not occur |
| WebTrack.Format | src/ionic-audio-web-track.ts:202 | the probe string always starts with "audio/" |
| WebTrack.LastDotBeforeExtension | src/ionic-audio-web-track.ts:202 | in `base.ext` with a dotless extension, the last dot is the one after base |
| WebTrack.FormatOfExtension | src/ionic-audio-web-track.ts:202 | `base.ext` probes "audio/ext" |
| WebTrack.FormatWithoutDot | src/ionic-audio-web-track.ts:202 | a source without a dot probes "audio/" followed by the whole source |
| WebTrack.FormatExamples | src/ionic-audio-web-track.ts:202 | "song.mp3" probes "audio/mp3" and "track" probes "audio/track" |
| WebTrack.FormatOfDottedDirectory | src/ionic-audio-web-track.ts:202 | "v1.2/track" probes "audio/2/track": a directory's dot is taken for an extension |
| WebTrack.WebAudioTrack.constructor | src/ionic-audio-web-track.ts:19-42 | the initial fields, one element loaded with src and preload and one observable built |
| WebTrack.WebAudioTrack.CreateAudio | src/ionic-audio-web-track.ts:44-58 | a new element with the track's src and preload, and a new observable |
| WebTrack.WebAudioTrack.OnTimeUpdate | src/ionic-audio-web-track.ts:60-63 | progress and ratio change only while playing on a positive time, to that time and its truncated ratio; one POSITION emission follows; reading the element without one while playing throws |
| WebTrack.WebAudioTrack.OnError | src/ionic-audio-web-track.ts:65-69 | playing cleared and ERROR emitted |
| WebTrack.WebAudioTrack.OnCanPlay | src/ionic-audio-web-track.ts:71-75 | loading cleared, loaded set, STARTING emitted |
| WebTrack.WebAudioTrack.OnPlaying | src/ionic-audio-web-track.ts:77-82 | finished cleared, playing set, RUNNING emitted |
| WebTrack.WebAudioTrack.OnPauseEvent | src/ionic-audio-web-track.ts:84-86 | only PAUSED emitted; playing untouched |
| WebTrack.WebAudioTrack.OnEnded | src/ionic-audio-web-track.ts:89-99 | playing cleared, finished set, progress, ratio and loaded reset, STOPPED emitted, the element kept |
| WebTrack.WebAudioTrack.OnDurationChange | src/ionic-audio-web-track.ts:101-104 | the duration becomes the firing element's, emitted with no valid status |
| WebTrack.WebAudioTrack.OnProgress | src/ionic-audio-web-track.ts:106-108 | only PROGRESS emitted |
| WebTrack.WebAudioTrack.OnSuspend | src/ionic-audio-web-track.ts:110-112 | only SUSPEND emitted |
| WebTrack.WebAudioTrack.SetId | src/ionic-audio-web-track.ts:146-148 | the id is stored |
| WebTrack.WebAudioTrack.CanPlay | src/ionic-audio-web-track.ts:201-204 | playable exactly when the element's answer for the probed format is non-empty; without an element it throws |
| WebTrack.WebAudioTrack.Play | src/ionic-audio-web-track.ts:246-259 | an element and observable are built only if none is held; loading set unless loaded; the element plays |
| WebTrack.WebAudioTrack.Pause | src/ionic-audio-web-track.ts:266-271 | nothing unless playing; otherwise the element pauses, then playing is cleared; without an element it throws with playing still set |
| WebTrack.WebAudioTrack.Stop | src/ionic-audio-web-track.ts:278-284 | nothing without an element; otherwise paused if playing, then finished set |
| WebTrack.WebAudioTrack.SeekTo | src/ionic-audio-web-track.ts:293-297 | nothing without an element; otherwise SEEKTO with the time is emitted before the element's position is set to it |
| WebTrack.WebAudioTrack.SetVolume | src/ionic-audio-web-track.ts:306-310 | the clamped volume goes to the element and nothing is stored; without an element it throws |
| WebTrack.WebAudioTrack.Destroy | src/ionic-audio-web-track.ts:318-321 | the element is dropped and no other field changes |

## Left out

- RxJS delivery (`Subject`, `Observable`, subscribers), `NgZone.run` and `console.log` are left out. Each emission is an append to the track's log.
- The web track's observable wiring makes the next-callback call itself once subscribed. This is not reproduced: an emission is one log entry. Once someone subscribes, every emission recurses until the stack overflows and throws, so for instance `seekTo` never reaches the line that sets `currentTime`. The model describes a track nobody has subscribed to. Only the number of observables built is kept.
- Default arguments are ordinary parameters: the web constructor's `preload` (default "none") and the Cordova `seekTo`'s `byPercent` (default false) must be passed.
- Timer scheduling is left out. `setInterval`/`clearInterval` become the boolean `timer`, and the asynchronous `getCurrentPosition` result becomes the separate method `OnPosition`. Any interleaving of ticks, position results and callbacks is a sequence of method calls.
- CordovaTrack.CordovaAudioTrack.Play: a second `play()` starts another interval without clearing the first. The boolean timer does not record the leaked interval. `Tick` does not ask for the timer, so a leaked interval still ticks.
- The native `Media` object and `HTMLAudioElement` are foreign code. Their readings are parameters and their commands are log entries. `Media.MEDIA_STATE_ERROR` is not defined in this repository, so it is the constructor's `stateError` parameter.
- Floating point: numbers are unbounded reals, with `Math.round` as floor(x+0.5) and `Math.trunc` toward zero. NaN durations and NaN seek targets become `None`; an infinite stream duration is not modelled.
- The Cordova constructor's check for `window.cordova`/`window.Media`, and the `window.AudioContext` shim of the web track.
- The `removeEventListener` in the web track's `stop` passes a fresh closure and removes nothing, so it is not modelled.
- The plain getters (`progress`, `completed`, `isLoading`, `hasLoaded`, `volume`, `id`, `observer`, `subscribe`, the web `duration`) are field reads. The web `error` getter returns the element's own error object, which is not modelled.
- `IAudioProvider`, `ITrackConstraint` and the rest of `ionic-audio-interfaces.ts` hold no behaviour.
- Messages.CreateMessage: requires a status in 0..11; outside it JavaScript yields an undefined name.
- CordovaTrack.CordovaAudioTrack.OnStatus: requires a status in 0..11, for the message it appends.
- WebTrack.WebAudioTrack: `_isLoading` and `_hasLoaded` start undefined; they are false here, which has the same truthiness.
- WebTrack.WebAudioTrack.CanPlay: the element's `src` is the resolved URL of the track's source. The model probes the source string itself.
- CordovaTrack.CordovaAudioTrack: handle calls and messages are two logs, so the order of a call and a message within one command is not recorded. `seekTo` calls the handle before it emits.
