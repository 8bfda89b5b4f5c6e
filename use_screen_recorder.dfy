/** useScreenRecorder: records the screen together with the microphone.
    The session state is `ScreenState`; each hook function is a step
    function on it, and `ScreenSession` is the same controller as an object.
    There is no pause, and stopRecording takes no options.

    As for the camera hook, browser outcomes and RecordRTC's blob and url
    are parameters, and RecordRTC's stop callback runs as soon as the code
    requesting the stop has finished. */
module ScreenRecorder {
  import opened Js
  import opened Media
  import Utils

  const Defaults: Config := Config(Null, Number(10), Undefined, Undefined)

  /** A missing or non-object configuration gives no limit and a 10 second
      alert lead. */
  lemma DefaultConfig(arg: ConfigArg)
    requires arg.Plain? || arg == ObjectArg(map[])
    ensures ResolveConfig(Defaults, arg) == Config(Null, Number(10), Undefined, Undefined)
    ensures !LimitSet(ResolveConfig(Defaults, arg))
  {
  }

  /** The hook's state. `screen` and `audio` are the two stream refs,
      `preview` the preview element's `srcObject`, `endedHandlers` the tracks
      whose `onended` is the hook's stopRecording. */
  datatype ScreenState = ScreenState(
    isRecording: bool,
    permissionDenied: bool,
    elapsed: int,
    blob: Option<Blob>,
    url: string,
    stopSoon: bool,
    recorder: Option<Recorder>,
    screen: Option<MediaStream>,
    audio: Option<MediaStream>,
    preview: Option<MediaStream>,
    endedHandlers: set<Track>,
    timerOn: bool,
    stopped: set<Track>,
    log: seq<StopData>)

  const Init: ScreenState := ScreenState(false, false, 0, None, "", false, None, None, None, None, {}, false, {}, [])

  /** requestPermission(). */
  function RequestPermissionStep(s: ScreenState, granted: bool): (ScreenState, bool)
  {
    if granted then (s, true) else (s.(permissionDenied := true), false)
  }

  /** setupStream(): `display` and `mic` are what getDisplayMedia and
      getUserMedia resolve with (`None` when they reject). Each ref is
      assigned as soon as its stream arrives; the recorder records the mixed
      stream, the screen's tracks first; the first video track of the screen
      gets stopRecording as `onended`, and a screen without one throws. */
  function SetupStreamStep(s: ScreenState, display: Option<MediaStream>, mic: Option<MediaStream>,
                           previewMounted: bool): (ScreenState, bool)
  {
    if display.None? then (s.(isRecording := false), false)
    else
      var s1 := s.(screen := display);
      if mic.None? then (s1.(isRecording := false), false)
      else
        var s2 := s1.(audio := mic, recorder := Some(NewRecorder(Mix(display.value, mic.value))));
        PreviewStep(s2, display.value, previewMounted)
  }

  /** The rest of setupStream() once the recorder exists: the preview element
      takes the screen stream (its old video tracks are stopped first), and the
      screen's first video track gets the `onended` handler. */
  function PreviewStep(s: ScreenState, display: MediaStream, previewMounted: bool): (ScreenState, bool)
  {
    if !previewMounted then (s.(isRecording := false), false)
    else
      var cleared := if s.preview.Some? then s.stopped + TrackSet(VideoTracks(s.preview.value.tracks))
                     else s.stopped;
      var s3 := s.(stopped := cleared, preview := Some(display));
      var v := VideoTracks(display.tracks);
      if v == [] then (s3.(isRecording := false), false)
      else (s3.(endedHandlers := s3.endedHandlers + {v[0]}), true)
  }

  /** startRecording(). */
  function StartStep(s: ScreenState): (ScreenState, bool)
  {
    if s.recorder.None? then (s, false)
    else (s.(recorder := Some(StartRec(s.recorder.value)), stopSoon := false, elapsed := 0,
             isRecording := true, timerOn := true), true)
  }

  /** The part of stopRecording() before RecordRTC's callback. */
  function StopRequest(s: ScreenState): ScreenState
  {
    var s1 := s.(timerOn := false);
    if StateOf(s1.recorder) == Inactive then
      s1.(stopped := Release(Release(s1.stopped, s1.screen), s1.audio), recorder := None, elapsed := 0,
          isRecording := false, log := s1.log + [NoData])
    else s1.(recorder := Some(StopRec(s1.recorder.value)))
  }

  /** RecordRTC's stop callback: the screen's tracks are stopped, then the
      microphone's (a missing stream throws at that point), and the recording
      is always handed to `afterStopRecording`. */
  function StopCallback(s: ScreenState, blob: Blob, url: string): ScreenState
  {
    if s.screen.None? then s
    else
      var s1 := s.(stopped := s.stopped + TrackSet(s.screen.value.tracks));
      if s1.audio.None? then s1
      else s1.(stopped := s1.stopped + TrackSet(s1.audio.value.tracks), stopSoon := false, blob := Some(blob),
               url := url, isRecording := false, log := s1.log + [Data(blob, url)])
  }

  /** stopRecording(). */
  function StopStep(s: ScreenState, blob: Blob, url: string): ScreenState
  {
    if StateOf(s.recorder) == Inactive then StopRequest(s)
    else StopCallback(StopRequest(s), blob, url)
  }

  /** The `ended` event of track `t` (the browser's "stop sharing" button). */
  function TrackEndedStep(s: ScreenState, t: Track, blob: Blob, url: string): ScreenState
  {
    if t in s.endedHandlers then StopStep(s, blob, url) else s
  }

  /** The effect on `recordedTimeInSecond`. */
  function ElapsedEffect(c: Config, s: ScreenState, blob: Blob, url: string): ScreenState
  {
    if !LimitSet(c) then s
    else
      var s1 := if AlertDue(c, s.elapsed) then s.(stopSoon := true) else s;
      if LimitReached(c, s1.elapsed) then StopStep(s1, blob, url) else s1
  }

  /** The interval's `setRecordedTimeInSecond(current + 1)`. */
  function Advance(s: ScreenState): ScreenState
  {
    s.(elapsed := s.elapsed + 1)
  }

  /** One firing of the interval, and the effect of the change. */
  function TickStep(c: Config, s: ScreenState, blob: Blob, url: string): ScreenState
  {
    ElapsedEffect(c, Advance(s), blob, url)
  }

  /** reset(): the three refs are dropped and the displayed values cleared;
      nothing is stopped, neither tracks nor recorder nor timer. */
  function ResetStep(s: ScreenState): ScreenState
  {
    s.(recorder := None, screen := None, audio := None, isRecording := false, elapsed := 0, blob := None, url := "")
  }

  datatype ScreenOp =
    | RequestPermission(granted: bool)
    | SetupStream(display: Option<MediaStream>, mic: Option<MediaStream>, previewMounted: bool)
    | Start
    | Stop(blob: Blob, url: string)
    | TrackEnded(track: Track, blob: Blob, url: string)
    | Effect(blob: Blob, url: string)
    | Tick(blob: Blob, url: string)
    | Reset

  function Step(c: Config, s: ScreenState, op: ScreenOp): ScreenState
  {
    match op
    case RequestPermission(g) => RequestPermissionStep(s, g).0
    case SetupStream(d, m, p) => SetupStreamStep(s, d, m, p).0
    case Start => StartStep(s).0
    case Stop(b, u) => StopStep(s, b, u)
    case TrackEnded(t, b, u) => TrackEndedStep(s, t, b, u)
    case Effect(b, u) => ElapsedEffect(c, s, b, u)
    case Tick(b, u) => TickStep(c, s, b, u)
    case Reset => ResetStep(s)
  }

  function Run(c: Config, s: ScreenState, ops: seq<ScreenOp>): ScreenState
    decreases |ops|
  {
    if ops == [] then s else Run(c, Step(c, s, ops[0]), ops[1..])
  }

  /** A bound recorder comes with both streams, and a session that says it
      records has a recorder. (The recorder need not record the current
      streams: a setup that fails after getDisplayMedia replaces the screen
      and keeps the old recorder.) */
  ghost predicate Inv(s: ScreenState)
  {
    (s.recorder.Some? ==> s.screen.Some? && s.audio.Some?)
    && (s.isRecording ==> s.recorder.Some?)
  }

  lemma StopKeepsInv(s: ScreenState, blob: Blob, url: string)
    requires Inv(s)
    ensures Inv(StopStep(s, blob, url))
  {
  }

  lemma EffectKeepsInv(c: Config, s: ScreenState, blob: Blob, url: string)
    requires Inv(s)
    ensures Inv(ElapsedEffect(c, s, blob, url))
  {
    if LimitSet(c) && AlertDue(c, s.elapsed) {
      StopKeepsInv(s.(stopSoon := true), blob, url);
    } else if LimitSet(c) {
      StopKeepsInv(s, blob, url);
    }
  }

  lemma SetupKeepsInv(s: ScreenState, display: Option<MediaStream>, mic: Option<MediaStream>, previewMounted: bool)
    requires Inv(s)
    ensures Inv(SetupStreamStep(s, display, mic, previewMounted).0)
  {
  }

  lemma StepKeepsInv(c: Config, s: ScreenState, op: ScreenOp)
    requires Inv(s)
    ensures Inv(Step(c, s, op))
  {
    match op
    case RequestPermission(g) =>
    case SetupStream(d, m, p) =>
      assert Step(c, s, op) == SetupStreamStep(s, d, m, p).0;
      SetupKeepsInv(s, d, m, p);
    case Start =>
    case Stop(b, u) =>
      assert Step(c, s, op) == StopStep(s, b, u);
      StopKeepsInv(s, b, u);
    case TrackEnded(t, b, u) =>
      assert Step(c, s, op) == TrackEndedStep(s, t, b, u);
      StopKeepsInv(s, b, u);
    case Effect(b, u) =>
      assert Step(c, s, op) == ElapsedEffect(c, s, b, u);
      EffectKeepsInv(c, s, b, u);
    case Tick(b, u) =>
      assert Step(c, s, op) == ElapsedEffect(c, Advance(s), b, u);
      EffectKeepsInv(c, Advance(s), b, u);
    case Reset =>
      assert Step(c, s, op) == ResetStep(s);
  }

  /** Every reachable session keeps the invariant, so the stop callback never
      meets a missing stream. */
  lemma {:induction false} RunKeepsInv(c: Config, s: ScreenState, ops: seq<ScreenOp>)
    requires Inv(s)
    ensures Inv(Run(c, s, ops))
    decreases |ops|
  {
    if ops != [] {
      StepKeepsInv(c, s, ops[0]);
      RunKeepsInv(c, Step(c, s, ops[0]), ops[1..]);
    }
  }

  ghost predicate Grows(s: ScreenState, t: ScreenState)
  {
    (s.permissionDenied ==> t.permissionDenied)
    && s.stopped <= t.stopped
    && s.log <= t.log && |t.log| <= |s.log| + 1
  }

  lemma StopGrows(s: ScreenState, blob: Blob, url: string)
    ensures Grows(s, StopStep(s, blob, url))
  {
  }

  lemma EffectGrows(c: Config, s: ScreenState, blob: Blob, url: string)
    ensures Grows(s, ElapsedEffect(c, s, blob, url))
  {
    if LimitSet(c) && AlertDue(c, s.elapsed) {
      StopGrows(s.(stopSoon := true), blob, url);
    } else if LimitSet(c) {
      StopGrows(s, blob, url);
    }
  }

  lemma SetupGrows(s: ScreenState, display: Option<MediaStream>, mic: Option<MediaStream>, previewMounted: bool)
    ensures Grows(s, SetupStreamStep(s, display, mic, previewMounted).0)
  {
  }

  lemma StepMonotone(c: Config, s: ScreenState, op: ScreenOp)
    ensures Grows(s, Step(c, s, op))
  {
    match op
    case RequestPermission(g) =>
    case SetupStream(d, m, p) =>
      assert Step(c, s, op) == SetupStreamStep(s, d, m, p).0;
      SetupGrows(s, d, m, p);
    case Start =>
    case Stop(b, u) =>
      assert Step(c, s, op) == StopStep(s, b, u);
      StopGrows(s, b, u);
    case TrackEnded(t, b, u) =>
      assert Step(c, s, op) == TrackEndedStep(s, t, b, u);
      StopGrows(s, b, u);
    case Effect(b, u) =>
      assert Step(c, s, op) == ElapsedEffect(c, s, b, u);
      EffectGrows(c, s, b, u);
    case Tick(b, u) =>
      assert Step(c, s, op) == ElapsedEffect(c, Advance(s), b, u);
      EffectGrows(c, Advance(s), b, u);
    case Reset =>
      assert Step(c, s, op) == ResetStep(s);
  }

  /** Over any run: a denial is sticky, stopped tracks stay stopped, and the
      log of `afterStopRecording` calls only grows, by at most one per step. */
  lemma {:induction false} RunMonotone(c: Config, s: ScreenState, ops: seq<ScreenOp>)
    ensures s.permissionDenied ==> Run(c, s, ops).permissionDenied
    ensures s.stopped <= Run(c, s, ops).stopped
    ensures s.log <= Run(c, s, ops).log && |Run(c, s, ops).log| <= |s.log| + |ops|
    decreases |ops|
  {
    if ops != [] {
      StepMonotone(c, s, ops[0]);
      RunMonotone(c, Step(c, s, ops[0]), ops[1..]);
    }
  }

  /** A refused permission sets the denial flag and reports false; a grant
      reports true and changes nothing. */
  lemma RequestPermissionSpec(s: ScreenState, granted: bool)
    ensures RequestPermissionStep(s, granted).1 == granted
    ensures RequestPermissionStep(s, granted).0.permissionDenied == (s.permissionDenied || !granted)
    ensures granted ==> RequestPermissionStep(s, granted).0 == s
  {
  }

  /** setupStream succeeds exactly when both streams arrive, the preview is
      mounted and the screen has a video track. Then the recorder records
      the screen's tracks followed by the microphone's, and the screen's
      first video track will stop the recording when it ends. Any failure
      clears the recording flag. */
  lemma SetupStreamSpec(s: ScreenState, display: Option<MediaStream>, mic: Option<MediaStream>, previewMounted: bool)
    ensures var (t, ok) := SetupStreamStep(s, display, mic, previewMounted);
            (ok <==> display.Some? && mic.Some? && previewMounted && VideoTracks(display.value.tracks) != [])
            && (!ok ==> !t.isRecording)
            && (ok ==> t.recorder.Some? && t.recorder.value.state == Inactive
                       && t.recorder.value.source.tracks == display.value.tracks + mic.value.tracks
                       && t.screen == display && t.audio == mic && t.preview == display
                       && VideoTracks(display.value.tracks)[0] in t.endedHandlers)
            && (display.Some? && mic.Some? ==> t.recorder == Some(NewRecorder(Mix(display.value, mic.value))))
  {
  }

  /** startRecording fails and changes nothing exactly when no recorder is
      bound; otherwise it starts recorder and timer from 0 seconds. */
  lemma StartSpec(s: ScreenState)
    ensures !StartStep(s).1 <==> s.recorder.None?
    ensures !StartStep(s).1 ==> StartStep(s).0 == s
    ensures StartStep(s).1 ==>
              var t := StartStep(s).0;
              t.elapsed == 0 && !t.stopSoon && t.isRecording && t.timerOn
              && StateOf(t.recorder) == Recording && t.log == s.log && t.stopped == s.stopped
              && t.recorder.value.source == s.recorder.value.source
              && t == s.(recorder := t.recorder, stopSoon := false, elapsed := 0, isRecording := true, timerOn := true)
  {
  }

  /** Every stop calls `afterStopRecording` exactly once: with no data when
      the recorder is absent or inactive (and then at 0 seconds), with the
      blob and url otherwise (keeping the elapsed seconds). Both streams'
      tracks end up stopped. */
  lemma StopSpec(s: ScreenState, blob: Blob, url: string)
    requires Inv(s)
    ensures var t := StopStep(s, blob, url);
            |t.log| == |s.log| + 1 && !t.isRecording && !t.timerOn
            && t.stopped == Release(Release(s.stopped, s.screen), s.audio)
            && (StateOf(s.recorder) == Inactive ==>
                  t.log[|s.log|] == NoData && t.elapsed == 0 && t.recorder.None? && t.stopSoon == s.stopSoon)
            && (StateOf(s.recorder) != Inactive ==>
                  t.log[|s.log|] == Data(blob, url) && t.elapsed == s.elapsed && t.blob == Some(blob)
                  && t.url == url && !t.stopSoon && StateOf(t.recorder) == Stopped)
  {
  }

  /** When the screen's video track ends during a recording, the recording
      stops and is handed over exactly as by stopRecording; the end of a
      track without the handler changes nothing. */
  lemma TrackEndedStops(s: ScreenState, t: Track, blob: Blob, url: string)
    ensures t in s.endedHandlers ==> TrackEndedStep(s, t, blob, url) == StopStep(s, blob, url)
    ensures t !in s.endedHandlers ==> TrackEndedStep(s, t, blob, url) == s
    ensures Inv(s) && t in s.endedHandlers && StateOf(s.recorder) == Recording ==>
              TrackEndedStep(s, t, blob, url).log == s.log + [Data(blob, url)]
              && !TrackEndedStep(s, t, blob, url).isRecording
  {
    if Inv(s) && t in s.endedHandlers && StateOf(s.recorder) == Recording {
      StopSpec(s, blob, url);
    }
  }

  /** reset() releases nothing: no track is stopped, no call is logged, the
      timer and the stop-soon flag stay as they were; only the refs and the
      displayed values are cleared. */
  lemma ResetSpec(s: ScreenState)
    ensures var t := ResetStep(s);
            !t.isRecording && t.elapsed == 0 && t.blob.None? && t.url == ""
            && t.recorder.None? && t.screen.None? && t.audio.None?
            && t.stopped == s.stopped && t.log == s.log && t.timerOn == s.timerOn
            && t.stopSoon == s.stopSoon && t.permissionDenied == s.permissionDenied
            && t.endedHandlers == s.endedHandlers
  {
  }

  /** After a reset during a recording the interval keeps running, and once
      a positive limit is reached the effect finds no recorder: it calls
      `afterStopRecording` without data, the blob is never delivered and no
      track is stopped. */
  lemma ResetLeavesTimerToStopWithoutData(c: Config, s: ScreenState, m: int, a: int, blob: Blob, url: string)
    requires c.maxRecordLength == Number(m) && ToNumber(c.alertTimeBeforeStop) == Some(a)
    requires 1 <= m && s.timerOn
    ensures ResetStep(s).timerOn
    ensures var t := Ticks(c, ResetStep(s), m, blob, url);
            t.log == s.log + [NoData] && t.blob.None? && !t.timerOn && t.stopped == s.stopped
  {
    TicksToLimit(c, ResetStep(s), m, a, blob, url);
  }

  function Ticks(c: Config, s: ScreenState, n: nat, blob: Blob, url: string): ScreenState
  {
    if n == 0 then s else TickStep(c, Ticks(c, s, n - 1, blob, url), blob, url)
  }

  /** Below the limit, ticks only advance time and latch the stop-soon flag. */
  lemma {:induction false} TicksBeforeLimit(c: Config, s: ScreenState, m: int, a: int, k: nat, blob: Blob, url: string)
    requires c.maxRecordLength == Number(m) && ToNumber(c.alertTimeBeforeStop) == Some(a)
    requires 0 <= s.elapsed < m && k < m - s.elapsed
    ensures Ticks(c, s, k, blob, url)
            == s.(elapsed := s.elapsed + k, stopSoon := s.stopSoon || (k > 0 && m - (s.elapsed + k) <= a))
  {
    if k > 0 {
      TicksBeforeLimit(c, s, m, a, k - 1, blob, url);
      var prev := Ticks(c, s, k - 1, blob, url);
      EarlyTick(c, prev, m, a, s.(elapsed := s.elapsed + k, stopSoon := s.stopSoon || m - (s.elapsed + k) <= a),
                blob, url);
      assert Ticks(c, s, k, blob, url) == TickStep(c, prev, blob, url);
    }
  }

  /** A tick that stays below the limit advances time and latches the
      stop-soon flag once `m - elapsed <= alert`, reaching `next`. */
  lemma EarlyTick(c: Config, s: ScreenState, m: int, a: int, next: ScreenState, blob: Blob, url: string)
    requires c.maxRecordLength == Number(m) && ToNumber(c.alertTimeBeforeStop) == Some(a)
    requires 0 <= s.elapsed && s.elapsed + 1 < m
    requires next == s.(elapsed := s.elapsed + 1, stopSoon := s.stopSoon || m - (s.elapsed + 1) <= a)
    ensures TickStep(c, s, blob, url) == next
  {
    var t := Advance(s);
    assert LimitSet(c) && !LimitReached(c, t.elapsed);
    assert AlertDue(c, t.elapsed) <==> m - t.elapsed <= a;
  }

  /** The session the last tick before the limit hands to the stop: the
      limit reached and the stop-soon flag latched. */
  function AtLimit(s: ScreenState, m: int, a: int): ScreenState
  {
    s.(elapsed := m, stopSoon := s.stopSoon || 0 <= a)
  }

  /** The tick that reaches the limit latches the stop-soon flag and stops
      the session `at`, which is at the limit. */
  lemma LimitTick(c: Config, s: ScreenState, m: int, a: int, at: ScreenState, blob: Blob, url: string)
    requires c.maxRecordLength == Number(m) && ToNumber(c.alertTimeBeforeStop) == Some(a)
    requires 1 <= m && s.elapsed == m - 1 && at == s.(elapsed := m, stopSoon := s.stopSoon || 0 <= a)
    ensures TickStep(c, s, blob, url) == StopStep(at, blob, url)
  {
    LimitEffect(c, Advance(s), m, a, at, blob, url);
  }

  /** The effect at the limit latches the stop-soon flag and stops. */
  lemma LimitEffect(c: Config, s: ScreenState, m: int, a: int, at: ScreenState, blob: Blob, url: string)
    requires c.maxRecordLength == Number(m) && ToNumber(c.alertTimeBeforeStop) == Some(a)
    requires 1 <= m && s.elapsed == m && at == s.(stopSoon := s.stopSoon || 0 <= a)
    ensures ElapsedEffect(c, s, blob, url) == StopStep(at, blob, url)
  {
    assert LimitSet(c) && LimitReached(c, s.elapsed);
    assert AlertDue(c, s.elapsed) <==> 0 <= a;
    var latched := if AlertDue(c, s.elapsed) then s.(stopSoon := true) else s;
    assert latched == at;
  }

  /** Ticking up to the limit ends in one stop of the session at the
      limit. */
  lemma TicksToLimit(c: Config, s: ScreenState, m: int, a: int, blob: Blob, url: string)
    requires c.maxRecordLength == Number(m) && ToNumber(c.alertTimeBeforeStop) == Some(a)
    requires 0 <= s.elapsed < m
    ensures Ticks(c, s, m - s.elapsed, blob, url) == StopStep(AtLimit(s, m, a), blob, url)
  {
    var k := m - s.elapsed - 1;
    TicksBeforeLimit(c, s, m, a, k, blob, url);
    var before := Ticks(c, s, k, blob, url);
    LimitTick(c, before, m, a, AtLimit(s, m, a), blob, url);
    assert Ticks(c, s, k + 1, blob, url) == TickStep(c, before, blob, url);
  }

  /** Auto-stop: `m - e` seconds after second `e` of a recording with limit
      `m`, the recording is handed over once and the session stops. */
  lemma AutoStopAtLimit(c: Config, s: ScreenState, m: int, a: int, blob: Blob, url: string)
    requires c.maxRecordLength == Number(m) && ToNumber(c.alertTimeBeforeStop) == Some(a)
    requires 0 <= s.elapsed < m && Inv(s) && StateOf(s.recorder) == Recording && s.isRecording
    ensures var t := Ticks(c, s, m - s.elapsed, blob, url);
            t.log == s.log + [Data(blob, url)] && !t.isRecording && !t.timerOn && !t.stopSoon
            && t.elapsed == m && t.blob == Some(blob) && t.url == url
            && t.stopped == s.stopped + TrackSet(s.screen.value.tracks) + TrackSet(s.audio.value.tracks)
  {
    TicksToLimit(c, s, m, a, blob, url);
    var at := AtLimit(s, m, a);
    assert StateOf(at.recorder) == Recording && at.screen == s.screen && at.audio == s.audio && Inv(at);
    StopSpec(at, blob, url);
  }

  /** The hook as an object. */
  class ScreenSession {
    const config: Config
    var isRecording: bool
    var permissionDenied: bool
    var elapsed: int
    var blob: Option<Blob>
    var url: string
    var stopSoon: bool
    var recorder: Option<Recorder>
    var screen: Option<MediaStream>
    var audio: Option<MediaStream>
    var preview: Option<MediaStream>
    var endedHandlers: set<Track>
    var timerOn: bool
    var stopped: set<Track>
    ghost var log: seq<StopData>

    ghost function State(): ScreenState
      reads this
    {
      ScreenState(isRecording, permissionDenied, elapsed, blob, url, stopSoon, recorder,
                  screen, audio, preview, endedHandlers, timerOn, stopped, log)
    }

    /** useScreenRecorder(config). */
    constructor (arg: ConfigArg)
      ensures config == ResolveConfig(Defaults, arg) && State() == Init
    {
      config := ResolveConfig(Defaults, arg);
      isRecording, permissionDenied, elapsed := false, false, 0;
      blob, url, stopSoon := None, "", false;
      recorder, screen, audio, preview := None, None, None, None;
      endedHandlers, timerOn, stopped, log := {}, false, {}, [];
    }

    method RequestPermission(granted: bool) returns (ok: bool)
      modifies this
      ensures (State(), ok) == RequestPermissionStep(old(State()), granted)
    {
      if granted {
        return true;
      }
      permissionDenied := true;
      return false;
    }

    method SetupStream(display: Option<MediaStream>, mic: Option<MediaStream>, previewMounted: bool)
      returns (ok: bool)
      modifies this
      ensures (State(), ok) == SetupStreamStep(old(State()), display, mic, previewMounted)
    {
      if display.None? {
        isRecording := false;
        return false;
      }
      screen := display;
      if mic.None? {
        isRecording := false;
        return false;
      }
      audio := mic;
      recorder := Some(NewRecorder(Mix(display.value, mic.value)));
      ok := AttachPreview(display.value, previewMounted);
    }

    method AttachPreview(display: MediaStream, previewMounted: bool) returns (ok: bool)
      modifies this
      ensures (State(), ok) == PreviewStep(old(State()), display, previewMounted)
    {
      if !previewMounted {
        isRecording := false;
        return false;
      }
      if preview.Some? {
        stopped := StopTracks(stopped, VideoTracks(preview.value.tracks));
      }
      preview := Some(display);
      var v := VideoTracks(display.tracks);
      if v == [] {
        isRecording := false;
        return false;
      }
      endedHandlers := endedHandlers + {v[0]};
      return true;
    }

    method StartRecording() returns (ok: bool)
      modifies this
      ensures (State(), ok) == StartStep(old(State()))
    {
      if recorder.None? {
        return false;
      }
      recorder := Some(StartRec(recorder.value));
      stopSoon := false;
      elapsed := 0;
      isRecording := true;
      timerOn := true;
      return true;
    }

    method RequestStop() returns (pending: bool)
      modifies this
      ensures State() == StopRequest(old(State()))
      ensures pending == (StateOf(old(recorder)) != Inactive)
    {
      timerOn := false;
      if StateOf(recorder) == Inactive {
        Discard();
        return false;
      }
      recorder := Some(StopRec(recorder.value));
      return true;
    }

    /** The branch of stopRecording for an inactive recorder: both streams'
        tracks are stopped, the recorder is dropped, the time and the flag
        reset and `afterStopRecording` called without data. */
    method Discard()
      modifies this
      ensures State() == old(State()).(stopped := Release(Release(old(stopped), old(screen)), old(audio)),
                                       recorder := None, elapsed := 0, isRecording := false,
                                       log := old(log) + [NoData])
    {
      var st := ReleaseStream(stopped, screen);
      st := ReleaseStream(st, audio);
      stopped := st;
      recorder := None;
      elapsed := 0;
      isRecording := false;
      log := log + [NoData];
    }

    method OnStopped(b: Blob, u: string)
      modifies this
      ensures State() == StopCallback(old(State()), b, u)
    {
      if screen.None? {
        return;
      }
      var st := StopTracks(stopped, screen.value.tracks);
      if audio.None? {
        stopped := st;
        return;
      }
      st := StopTracks(st, audio.value.tracks);
      stopped := st;
      Publish(b, u);
    }

    /** The end of RecordRTC's callback: the recording is kept and handed to
        `afterStopRecording`. */
    method Publish(b: Blob, u: string)
      modifies this
      ensures State() == old(State()).(stopSoon := false, blob := Some(b), url := u, isRecording := false,
                                       log := old(log) + [Data(b, u)])
    {
      stopSoon := false;
      blob := Some(b);
      url := u;
      isRecording := false;
      log := log + [Data(b, u)];
    }

    method StopRecording(b: Blob, u: string)
      modifies this
      ensures State() == StopStep(old(State()), b, u)
    {
      var pending := RequestStop();
      if pending {
        OnStopped(b, u);
      }
    }

    method TrackEnded(t: Track, b: Blob, u: string)
      modifies this
      ensures State() == TrackEndedStep(old(State()), t, b, u)
    {
      if t in endedHandlers {
        StopRecording(b, u);
      }
    }

    method RunElapsedEffect(b: Blob, u: string)
      modifies this
      ensures State() == ElapsedEffect(config, old(State()), b, u)
    {
      if !LimitSet(config) {
        return;
      }
      if AlertDue(config, elapsed) {
        stopSoon := true;
      }
      if LimitReached(config, elapsed) {
        StopRecording(b, u);
      }
    }

    method Tick(b: Blob, u: string)
      requires timerOn
      modifies this
      ensures State() == TickStep(config, old(State()), b, u)
    {
      elapsed := elapsed + 1;
      assert State() == Advance(old(State()));
      RunElapsedEffect(b, u);
    }

    method Reset()
      modifies this
      ensures State() == ResetStep(old(State()))
    {
      recorder := None;
      screen := None;
      audio := None;
      ClearResult();
    }

    /** The state setters of reset(). */
    method ClearResult()
      modifies this
      ensures State() == old(State()).(isRecording := false, elapsed := 0, blob := None, url := "")
    {
      isRecording := false;
      elapsed := 0;
      blob := None;
      url := "";
    }

    /** getCountDown(): the number handed to `formatSecondsAsCountdown`. Without
        a limit, or before the first second, it is the elapsed seconds; from
        then on it is NaN exactly when the limit is, and otherwise the seconds
        left, which added to the elapsed ones give the limit and fall to 0 or
        below exactly when the limit is reached. */
    function CountDown(): (r: Option<int>)
      reads this
      ensures !LimitSet(config) || elapsed < 1 ==> r == Some(elapsed)
      ensures LimitSet(config) && elapsed >= 1 ==> (r.None? <==> ToNumber(config.maxRecordLength).None?)
      ensures LimitSet(config) && elapsed >= 1 && r.Some? ==>
                r.value + elapsed == ToNumber(config.maxRecordLength).value
                && (r.value <= 0 <==> LimitReached(config, elapsed))
    {
      CountDownArgument(config, elapsed)
    }

    /** getRecordedTimeAsClock(). */
    function RecordedTimeAsClock(): (r: string)
      reads this
      requires Utils.FourDigitYear(elapsed)
      ensures Utils.ParseClock(r) == Some(elapsed % 3600)
    {
      Media.RecordedTimeAsClock(elapsed)
    }
  }
}
