/** What the three recorder hooks share: media tracks and streams, the
    RecordRTC recorder seen as a small state machine, the values a finished
    recording yields, the configuration object, and the rules the
    elapsed-time effect applies after every change of the elapsed seconds. */
module Media {
  import opened Js
  import Utils

  datatype TrackKind = Audio | Video

  /** A MediaStreamTrack, identified by its id. */
  datatype Track = Track(id: nat, kind: TrackKind)

  /** A MediaStream: its tracks in `getTracks()` order. */
  datatype MediaStream = MediaStream(tracks: seq<Track>)

  function TrackSet(tracks: seq<Track>): set<Track>
  {
    set t | t in tracks
  }

  /** `tracks.forEach((track) => track.stop())`: the set of stopped tracks
      grows by exactly the tracks of the list. */
  method StopTracks(stopped: set<Track>, tracks: seq<Track>) returns (r: set<Track>)
    ensures r == stopped + TrackSet(tracks)
  {
    r := stopped;
    for i := 0 to |tracks|
      invariant r == stopped + TrackSet(tracks[..i])
    {
      assert TrackSet(tracks[..i + 1]) == TrackSet(tracks[..i]) + {tracks[i]} by {
        assert tracks[..i + 1] == tracks[..i] + [tracks[i]];
      }
      r := r + {tracks[i]};
    }
    assert tracks[..|tracks|] == tracks;
  }

  /** `if (ref.current) ref.current.getTracks().forEach(stop)`: a held
      stream has its tracks stopped, a missing one changes nothing. */
  function Release(stopped: set<Track>, stream: Option<MediaStream>): set<Track>
  {
    if stream.Some? then stopped + TrackSet(stream.value.tracks) else stopped
  }

  /** The same guard, run: the tracks of a held stream are stopped one by
      one. */
  method ReleaseStream(stopped: set<Track>, stream: Option<MediaStream>) returns (r: set<Track>)
    ensures r == Release(stopped, stream)
  {
    r := stopped;
    if stream.Some? {
      r := StopTracks(stopped, stream.value.tracks);
    }
  }

  /** `getVideoTracks()`: the video tracks, in order. */
  function VideoTracks(tracks: seq<Track>): (r: seq<Track>)
    ensures forall t :: t in r <==> t in tracks && t.kind == Video
  {
    if tracks == [] then []
    else (if tracks[0].kind == Video then [tracks[0]] else []) + VideoTracks(tracks[1..])
  }

  /** `new MediaStream([...a.getTracks(), ...b.getTracks()])`. */
  function Mix(a: MediaStream, b: MediaStream): (m: MediaStream)
    ensures TrackSet(m.tracks) == TrackSet(a.tracks) + TrackSet(b.tracks)
    ensures |m.tracks| == |a.tracks| + |b.tracks|
    ensures m.tracks[..|a.tracks|] == a.tracks && m.tracks[|a.tracks|..] == b.tracks
  {
    MediaStream(a.tracks + b.tracks)
  }

  /** RecordRTC's `getState()`. */
  datatype RecorderState = Inactive | Recording | Paused | Stopped

  /** A RecordRTC instance: the stream it records and its state. */
  datatype Recorder = Recorder(source: MediaStream, state: RecorderState)

  /** `new RecordRTC(stream, ...)` starts out inactive. */
  function NewRecorder(m: MediaStream): Recorder
  {
    Recorder(m, Inactive)
  }

  /** `recorderRef.current ? recorderRef.current.getState() : 'inactive'`. */
  function StateOf(r: Option<Recorder>): RecorderState
  {
    if r.Some? then r.value.state else Inactive
  }

  function StartRec(r: Recorder): Recorder
  {
    r.(state := Recording)
  }

  /** RecordRTC pauses only a recording in progress and otherwise only warns. */
  function PauseRec(r: Recorder): Recorder
  {
    if r.state == Recording then r.(state := Paused) else r
  }

  /** RecordRTC resumes only a paused recording and otherwise only warns. */
  function ResumeRec(r: Recorder): Recorder
  {
    if r.state == Paused then r.(state := Recording) else r
  }

  function StopRec(r: Recorder): Recorder
  {
    r.(state := Stopped)
  }

  /** Pausing and then resuming a recorder that records gives it back unchanged. */
  lemma ResumeUndoesPause(r: Recorder)
    requires r.state == Recording
    ensures PauseRec(r).state == Paused && ResumeRec(PauseRec(r)) == r
  {
  }

  /** An opaque recorded Blob. */
  datatype Blob = Blob(id: nat)

  /** One call of the hook's `afterStopRecording(recordingData)`: with no
      argument, or with `{ blob, url }`. */
  datatype StopData = NoData | Data(blob: Blob, url: string)

  /** The configuration after merging with the defaults. */
  datatype Config = Config(
    maxRecordLength: JsValue,
    alertTimeBeforeStop: JsValue,
    resolution: JsValue,
    afterStopRecording: JsValue)

  /** The argument a hook is called with: a plain value, or an object given by
      its own enumerable properties. (`Plain(Object)` is an object without
      properties.) */
  datatype ConfigArg = Plain(v: JsValue) | ObjectArg(props: map<string, JsValue>)

  function Prop(props: map<string, JsValue>, name: string, default: JsValue): JsValue
  {
    if name in props then props[name] else default
  }

  /** `(config && typeof config === 'object') ? { ...defaults, ...config } : defaults`. */
  function ResolveConfig(d: Config, arg: ConfigArg): Config
  {
    match arg
    case Plain(_) => d
    case ObjectArg(p) =>
      Config(Prop(p, "maxRecordLength", d.maxRecordLength),
             Prop(p, "alertTimeBeforeStop", d.alertTimeBeforeStop),
             Prop(p, "resolution", d.resolution),
             Prop(p, "afterStopRecording", d.afterStopRecording))
  }

  /** A configuration written out as an object. */
  function ConfigProps(c: Config): map<string, JsValue>
  {
    map["maxRecordLength" := c.maxRecordLength, "alertTimeBeforeStop" := c.alertTimeBeforeStop,
        "resolution" := c.resolution, "afterStopRecording" := c.afterStopRecording]
  }

  /** Every field is overridable: an object naming all four fields yields
      exactly those values, whatever the defaults; a non-object, and an object
      naming none of them, yields the defaults. */
  lemma ResolveConfigOverrides(d: Config, c: Config, v: JsValue, other: map<string, JsValue>)
    requires forall k :: k in other ==> k !in ConfigProps(c)
    ensures ResolveConfig(d, ObjectArg(ConfigProps(c))) == c
    ensures ResolveConfig(d, Plain(v)) == d
    ensures ResolveConfig(d, ObjectArg(other)) == d
  {
    var p := ConfigProps(c);
    assert "maxRecordLength" in p && "alertTimeBeforeStop" in p && "resolution" in p && "afterStopRecording" in p;
  }

  /** `afterStopRecording` passes its argument to the configuration's
      callback when that is a function, and does nothing otherwise. */
  predicate ForwardsToCallback(c: Config)
  {
    Truthy(c.afterStopRecording) && c.afterStopRecording == Function
  }

  /** `if (!config.maxRecordLength) return;`: 0 and null both mean no limit. */
  predicate LimitSet(c: Config)
  {
    Truthy(c.maxRecordLength)
  }

  /** `config.maxRecordLength - recordedTimeInSecond`, `None` for NaN. */
  function Remaining(c: Config, elapsed: int): Option<int>
  {
    var m := ToNumber(c.maxRecordLength);
    if m.Some? then Some(m.value - elapsed) else None
  }

  /** `reversedRecordedTimeInSecond() <= config.alertTimeBeforeStop`; every
      comparison with NaN is false. */
  predicate AlertDue(c: Config, elapsed: int)
  {
    var r := Remaining(c, elapsed);
    var a := ToNumber(c.alertTimeBeforeStop);
    r.Some? && a.Some? && r.value <= a.value
  }

  /** `recordedTimeInSecond >= config.maxRecordLength`. */
  predicate LimitReached(c: Config, elapsed: int)
  {
    var m := ToNumber(c.maxRecordLength);
    m.Some? && elapsed >= m.value
  }

  /** With a numeric limit, the alert and the stop are due from some second
      on and stay due: both conditions only get truer as time passes, and the
      stop is never due before the alert while the alert lead is not negative. */
  lemma EffectConditionsLatch(c: Config, e: int, e': int)
    requires e <= e'
    ensures AlertDue(c, e) ==> AlertDue(c, e')
    ensures LimitReached(c, e) ==> LimitReached(c, e')
    ensures (LimitReached(c, e) && ToNumber(c.alertTimeBeforeStop).Some?
             && ToNumber(c.alertTimeBeforeStop).value >= 0) ==> AlertDue(c, e)
  {
  }

  /** The number getCountDown hands to `formatSecondsAsCountdown`: the
      elapsed seconds while no limit is set or before the first second has
      passed, the seconds remaining otherwise (`None` for NaN). */
  function CountDownArgument(c: Config, elapsed: int): (r: Option<int>)
    ensures !LimitSet(c) || elapsed < 1 ==> r == Some(elapsed)
    ensures LimitSet(c) && elapsed >= 1 ==> (r.None? <==> ToNumber(c.maxRecordLength).None?)
    ensures LimitSet(c) && elapsed >= 1 && r.Some? ==>
              r.value + elapsed == ToNumber(c.maxRecordLength).value
              && (r.value <= 0 <==> LimitReached(c, elapsed))
  {
    if !LimitSet(c) || elapsed < 1 then Some(elapsed) else Remaining(c, elapsed)
  }

  /** With a numeric limit the countdown starts at 0, jumps to `max - 1`
      after the first second and then goes down by one per second; the
      shown value plus the elapsed seconds is the limit. */
  lemma CountDownCountsDown(c: Config, m: int, e: int)
    requires c.maxRecordLength == Number(m) && m != 0 && e >= 1
    ensures CountDownArgument(c, 0) == Some(0)
    ensures CountDownArgument(c, 1) == Some(m - 1)
    ensures CountDownArgument(c, e + 1) == Some(CountDownArgument(c, e).value - 1)
    ensures CountDownArgument(c, e).value + e == m
  {
  }

  /** getRecordedTimeAsClock(): the elapsed seconds as a well-formed "mm:ss"
      that reads back as the seconds modulo an hour. */
  function RecordedTimeAsClock(elapsed: int): (r: string)
    requires Utils.FourDigitYear(elapsed)
    ensures Utils.ValidClock(r) && Utils.ParseClock(r) == Some(elapsed % 3600)
  {
    Utils.ClockRoundTrip(elapsed);
    Utils.FormatTimeAsClock(Number(elapsed))
  }
}
