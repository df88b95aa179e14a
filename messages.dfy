/** The status enumeration shared by both tracks, its name table and the
    message constructor the Cordova track uses for every emission. */
module Messages {
  import opened Runtime

  // STATUS_MEDIA: a dense enumeration, in this order.
  const MediaNone := 0
  const MediaStarting := 1
  const MediaRunning := 2
  const MediaPaused := 3
  const MediaStopped := 4
  const MediaPosition := 5
  const MediaProgress := 6
  const MediaSuspend := 7
  const MediaSeekTo := 8
  const MediaError := 9
  const MediaDurationChange := 10
  const MediaProgressEnable := 11

  /** Every STATUS_MEDIA member, in declaration order. */
  const StatusCodes: seq<int> := [MediaNone, MediaStarting, MediaRunning, MediaPaused, MediaStopped,
                                  MediaPosition, MediaProgress, MediaSuspend, MediaSeekTo, MediaError,
                                  MediaDurationChange, MediaProgressEnable]

  /** STATUS_MEDIA_MSG: entry i is the name of status code i. */
  const StatusMediaMsg: seq<string> := ["None", "Starting", "Running", "Paused", "Stopped",
                                        "Position", "Progress", "Suspend", "Seek", "Error",
                                        "DurationChange", "ProgressEnabled"]

  /** A code for which the name table has an entry. */
  predicate IsStatus(status: int)
  {
    0 <= status < |StatusMediaMsg|
  }

  /** The payloads the tracks put in a message's `value`. */
  datatype Value =
    | Null                                          // JavaScript null
    | Undefined                                     // JavaScript undefined
    | MediaHandle                                   // the track's native handle object
    | Number(n: real)                               // a seek time, a completed ratio
    | NativeError(code: int)                        // the error object of the native layer
    | BufferedProgress(rangeEnd: real, fraction: real)
      // `{event: null, buffered: <one range from 0 to rangeEnd>, bufferedPercent: fraction}`
    | DomEvent(kind: string)                        // the event object of an audio element event

  /** What createMessage returns: `{value, status, eventName}`. */
  datatype Message = Message(value: Value, status: int, eventName: string)

  /** A message whose name is the table's entry for its status. */
  predicate WellFormed(m: Message)
  {
    IsStatus(m.status) && m.eventName == StatusMediaMsg[m.status]
  }

  /** The messages a track may put on its channel. */
  type NamedMessage = m: Message | WellFormed(m) witness Message(Null, MediaNone, "None")

  /** createMessage: copies value and status; the name always comes from the
      table, the caller has no way to pass one. */
  function CreateMessage(value: Value, status: int): (m: NamedMessage)
    requires IsStatus(status)
    ensures m.value == value && m.status == status
    ensures WellFormed(m)
  {
    Message(value, status, StatusMediaMsg[status])
  }

  /** The first status at or after `from` whose table name is `name`. */
  function FindStatus(name: string, from: nat): (r: Option<int>)
    requires from <= |StatusMediaMsg|
    ensures r.Some? ==> from <= r.value && IsStatus(r.value) && StatusMediaMsg[r.value] == name
    ensures r.Some? ==> forall j :: from <= j < r.value ==> StatusMediaMsg[j] != name
    ensures r.None? ==> forall j :: from <= j < |StatusMediaMsg| ==> StatusMediaMsg[j] != name
    decreases |StatusMediaMsg| - from
  {
    if from == |StatusMediaMsg| then None
    else if StatusMediaMsg[from] == name then Some(from)
    else FindStatus(name, from + 1)
  }

  /** The status code an event name stands for, if any. */
  function StatusOfName(name: string): (r: Option<int>)
  {
    FindStatus(name, 0)
  }

  /** The codes are dense and ordered: the i-th member of STATUS_MEDIA is i,
      from MEDIA_NONE = 0 to MEDIA_PROGRESS_ENABLE = 11, and the name table
      has exactly one entry per code. */
  lemma StatusCodesDense()
    ensures |StatusCodes| == |StatusMediaMsg| == 12
    ensures forall i :: 0 <= i < |StatusCodes| ==> StatusCodes[i] == i
    ensures forall s :: IsStatus(s) <==> s in StatusCodes
  {
  }

  /** No two codes share a name. */
  lemma NamesDistinct()
    ensures forall i, j :: 0 <= i < j < |StatusMediaMsg| ==> StatusMediaMsg[i] != StatusMediaMsg[j]
  {
    forall i, j | 0 <= i < j < |StatusMediaMsg|
      ensures StatusMediaMsg[i] != StatusMediaMsg[j]
    {
      var a, b := StatusMediaMsg[i], StatusMediaMsg[j];
      assert |a| != |b| || a[0] != b[0] || a[1] != b[1] || a[|a| - 1] != b[|b| - 1];
    }
  }

  /** A message's event name gives back its status: the name is a faithful
      projection of the code. */
  lemma {:induction false} EventNameDeterminesStatus(value: Value, status: int)
    requires IsStatus(status)
    ensures StatusOfName(CreateMessage(value, status).eventName) == Some(status)
  {
    NamesDistinct();
  }

  /** Two messages with the same name carry the same status. */
  lemma SameNameSameStatus(v: Value, s: int, w: Value, t: int)
    requires IsStatus(s) && IsStatus(t)
    requires CreateMessage(v, s).eventName == CreateMessage(w, t).eventName
    ensures s == t
  {
    EventNameDeterminesStatus(v, s);
    EventNameDeterminesStatus(w, t);
  }

  /** The statuses of a log's messages, in order. */
  function Statuses(log: seq<Message>): (r: seq<int>)
    ensures |r| == |log| && forall i :: 0 <= i < |log| ==> r[i] == log[i].status
  {
    seq(|log|, i requires 0 <= i < |log| => log[i].status)
  }

  /** How many messages of a log carry the given status. */
  function CountStatus(log: seq<Message>, status: int): (n: nat)
    ensures n <= |log|
  {
    multiset(Statuses(log))[status]
  }

  /** Counts add up over concatenated logs. */
  lemma CountStatusConcat(log: seq<Message>, more: seq<Message>, status: int)
    ensures CountStatus(log + more, status) == CountStatus(log, status) + CountStatus(more, status)
  {
    assert Statuses(log + more) == Statuses(log) + Statuses(more);
  }

  /** Sample names: Seek for MEDIA_SEEKTO, DurationChange for
      MEDIA_DURATION_CHANGE, ProgressEnabled for MEDIA_PROGRESS_ENABLE. */
  lemma CreateMessageNames(value: Value)
    ensures CreateMessage(value, MediaSeekTo).eventName == "Seek"
    ensures CreateMessage(value, MediaDurationChange).eventName == "DurationChange"
    ensures CreateMessage(value, MediaProgressEnable).eventName == "ProgressEnabled"
    ensures CreateMessage(value, MediaNone).eventName == "None"
  {
  }
}
