/** useVideoRecorder: a camera-and-microphone recording session. The hook's
    state (React state and refs) is `VideoState`; each hook function is a
    step function on it, and `VideoSession` is the same controller as an
    object whose methods update its fields in place.

    Outcomes the browser decides (permission, the stream getUserMedia
    resolves with, whether a preview element is mounted, the blob and url
    RecordRTC produces) are parameters. RecordRTC's stop callback runs as
    soon as the code that requested the stop has finished: at once in
    `stopRecording`, and after `reset` has finished when `reset` requests it
    (JavaScript code runs to completion before any callback). */
module VideoRecorder {
  import opened Js
  import opened Media
  import Utils
  import VideoResolution

  /** The hook's default configuration. */
  const Defaults: Config := Config(Null, Number(10), Null, Undefined)

  /** A missing or non-object configuration gives no limit, a 10 second
      alert lead and no resolution; an object overrides field by field. */
  lemma DefaultConfig(arg: ConfigArg, p: map<string, JsValue>)
    requires arg.Plain? || arg == ObjectArg(map[])
    ensures ResolveConfig(Defaults, arg) == Config(Null, Number(10), Null, Undefined)
    ensures !LimitSet(ResolveConfig(Defaults, arg))
    ensures ResolveConfig(Defaults, ObjectArg(p)).maxRecordLength
            == if "maxRecordLength" in p then p["maxRecordLength"] else Null
  {
  }

  /** getResolution(): the table entry named by `config.resolution` when that
      is truthy, numeric and, written as a string, a key of the table. */
  function GetResolution(c: Config): Option<VideoResolution.Resolution>
  {
    var r := c.resolution;
    if Truthy(r) && !IsNaN(r) then
      var key := TemplateString(r);
      if Truthy(Str(key)) && key in VideoResolution.ObjectKeys() then VideoResolution.Lookup(key) else None
    else None
  }

  /** getResolution selects exactly the table entry of a key given as a
      number or as its decimal string, and nothing for any other value. */
  lemma GetResolutionSelectsEntry(c: Config)
    ensures GetResolution(c) ==
      match c.resolution
      case Number(n) => if n in VideoResolution.Table then Some(VideoResolution.Table[n]) else None
      case Str(s) => VideoResolution.Lookup(s)
      case _ => None
  {
    match c.resolution
    case Number(n) => GetResolutionOfNumber(c, n);
    case Str(s) => GetResolutionOfString(c, s);
    case _ => GetResolutionOfOther(c);
  }

  lemma GetResolutionOfNumber(c: Config, n: int)
    requires c.resolution == Number(n)
    ensures GetResolution(c) == if n in VideoResolution.Table then Some(VideoResolution.Table[n]) else None
  {
    var key := IntToString(n);
    if n != 0 {
      assert Truthy(c.resolution) && !IsNaN(c.resolution) && TemplateString(c.resolution) == key;
      assert Truthy(Str(key));
      VideoResolution.ListedIffFound(key);
      VideoResolution.LookupOfIntToString(n);
      if n in VideoResolution.Table {
        VideoResolution.LookupOfNatToString(n);
        assert key == NatToString(n);
      }
    }
  }

  lemma GetResolutionOfString(c: Config, s: string)
    requires c.resolution == Str(s)
    ensures GetResolution(c) == VideoResolution.Lookup(s)
  {
    VideoResolution.ListedIffFound(s);
    if s == [] {
      assert VideoResolution.Lookup(s).None?;
    }
  }

  lemma GetResolutionOfOther(c: Config)
    requires !c.resolution.Number? && !c.resolution.Str?
    ensures GetResolution(c).None?
  {
    if c.resolution.Bool? {
      var key := if c.resolution.b then "true" else "false";
      VideoResolution.ListedIffFound(key);
      assert LeadingDigits(key) == [];
    }
  }

  /** The hook's state. `permissionDenied` false stands for its initial null;
      `timerOn` is whether an interval increments the elapsed seconds;
      `preview` is the preview element's `srcObject`; `stopped` holds every
      track stopped so far; `log` lists the calls of `afterStopRecording`. */
  datatype VideoState = VideoState(
    isRecording: bool,
    isPaused: bool,
    permissionDenied: bool,
    elapsed: int,
    blob: Option<Blob>,
    url: string,
    stopSoon: bool,
    recorder: Option<Recorder>,
    stream: Option<MediaStream>,
    preview: Option<MediaStream>,
    timerOn: bool,
    stopped: set<Track>,
    log: seq<StopData>)

  const Init: VideoState := VideoState(false, false, false, 0, None, "", false, None, None, None, false, {}, [])

  /** requestPermission(): a refusal sets the denial flag and returns false;
      a grant returns true and leaves the flag as it was. */
  function RequestPermissionStep(s: VideoState, granted: bool): (VideoState, bool)
  {
    if granted then (s, true) else (s.(permissionDenied := true), false)
  }

  /** setupStream(): `acquired` is the stream getUserMedia resolves with
      (`None` when it rejects), `previewMounted` whether the preview element
      exists. The stream and a fresh recorder are bound before the preview is
      touched, so a missing preview element fails with both bound. */
  function SetupStreamStep(s: VideoState, acquired: Option<MediaStream>, previewMounted: bool): (VideoState, bool)
  {
    match acquired
    case None => (s.(isRecording := false), false)
    case Some(m) =>
      var bound := s.(stream := Some(m), recorder := Some(NewRecorder(m)));
      if !previewMounted then (bound.(isRecording := false), false)
      else
        var cleared := if bound.preview.Some? then bound.stopped + TrackSet(VideoTracks(bound.preview.value.tracks))
                       else bound.stopped;
        (bound.(stopped := cleared, preview := Some(m)), true)
  }

  /** startRecording(). */
  function StartStep(s: VideoState): (VideoState, bool)
  {
    if s.recorder.None? then (s, false)
    else (s.(recorder := Some(StartRec(s.recorder.value)), stopSoon := false, elapsed := 0,
             isRecording := true, timerOn := true), true)
  }

  /** pauseRecording(). */
  function PauseStep(s: VideoState): (VideoState, bool)
  {
    if s.recorder.None? then (s, false)
    else if s.isRecording then
      (s.(recorder := Some(PauseRec(s.recorder.value)), isRecording := false, isPaused := true, timerOn := false), true)
    else (s, true)
  }

  /** resumeRecording(): does not look at `isPaused`. */
  function ResumeStep(s: VideoState): (VideoState, bool)
  {
    if s.recorder.None? then (s, false)
    else (s.(recorder := Some(ResumeRec(s.recorder.value)), isRecording := true, isPaused := false, timerOn := true), true)
  }

  /** The part of stopRecording(args) that runs before RecordRTC's callback:
      the pause flag is cleared and the timer stopped; an absent or inactive
      recorder is finished off at once, whatever `terminate` says; an active
      one is asked to stop. */
  function StopRequest(s: VideoState): VideoState
  {
    var s1 := s.(isPaused := false, timerOn := false);
    if StateOf(s1.recorder) == Inactive then
      s1.(stopped := Release(s1.stopped, s1.stream), recorder := None, elapsed := 0,
          isRecording := false, log := s1.log + [NoData])
    else s1.(recorder := Some(StopRec(s1.recorder.value)))
  }

  /** RecordRTC's stop callback with the recorded `blob` and `url`. Without a
      stream `streamRef.current.getTracks()` throws and nothing more happens. */
  function StopCallback(s: VideoState, terminate: bool, blob: Blob, url: string): VideoState
  {
    if s.stream.None? then s
    else s.(stopped := s.stopped + TrackSet(s.stream.value.tracks), stopSoon := false, blob := Some(blob),
            url := url, isRecording := false, log := if terminate then s.log else s.log + [Data(blob, url)])
  }

  /** stopRecording(args), `terminate` being the truthiness of `args.terminate`. */
  function StopStep(s: VideoState, terminate: bool, blob: Blob, url: string): VideoState
  {
    if StateOf(s.recorder) == Inactive then StopRequest(s)
    else StopCallback(StopRequest(s), terminate, blob, url)
  }

  /** The effect on `recordedTimeInSecond`, run after a render in which it
      changed; a stop it triggers uses `blob` and `url`. */
  function ElapsedEffect(c: Config, s: VideoState, blob: Blob, url: string): VideoState
  {
    if !LimitSet(c) then s
    else
      var s1 := if AlertDue(c, s.elapsed) then s.(stopSoon := true) else s;
      if LimitReached(c, s1.elapsed) then StopStep(s1, false, blob, url) else s1
  }

  /** The interval's `setRecordedTimeInSecond(current + 1)`. */
  function Advance(s: VideoState): VideoState
  {
    s.(elapsed := s.elapsed + 1)
  }

  /** One firing of the interval, and the effect of the change. */
  function TickStep(c: Config, s: VideoState, blob: Blob, url: string): VideoState
  {
    ElapsedEffect(c, Advance(s), blob, url)
  }

  /** reset(). A session that records is stopped with `terminate`; the
      callback of an active recorder comes after reset has cleared the
      recorder reference, throws at `getBlob` and so changes nothing. The
      interval reference is dropped without clearing the interval. */
  function ResetStep(s: VideoState): VideoState
  {
    var s1 := if s.isRecording then StopRequest(s) else s;
    s1.(stopped := Release(s1.stopped, s1.stream), recorder := None, stream := None,
        isRecording := false, elapsed := 0, blob := None, url := "")
  }

  /** Everything that can happen to a session. */
  datatype VideoOp =
    | RequestPermission(granted: bool)
    | SetupStream(acquired: Option<MediaStream>, previewMounted: bool)
    | Start
    | Pause
    | Resume
    | Stop(terminate: bool, blob: Blob, url: string)
    | Effect(blob: Blob, url: string)
    | Tick(blob: Blob, url: string)
    | Reset

  function Step(c: Config, s: VideoState, op: VideoOp): VideoState
  {
    match op
    case RequestPermission(g) => RequestPermissionStep(s, g).0
    case SetupStream(a, p) => SetupStreamStep(s, a, p).0
    case Start => StartStep(s).0
    case Pause => PauseStep(s).0
    case Resume => ResumeStep(s).0
    case Stop(t, b, u) => StopStep(s, t, b, u)
    case Effect(b, u) => ElapsedEffect(c, s, b, u)
    case Tick(b, u) => TickStep(c, s, b, u)
    case Reset => ResetStep(s)
  }

  function Run(c: Config, s: VideoState, ops: seq<VideoOp>): VideoState
    decreases |ops|
  {
    if ops == [] then s else Run(c, Step(c, s, ops[0]), ops[1..])
  }

  /** A bound recorder records the bound stream, and a session that says it
      records has a recorder. */
  ghost predicate Inv(s: VideoState)
  {
    (s.recorder.Some? ==> s.stream.Some? && s.recorder.value.source == s.stream.value)
    && (s.isRecording ==> s.recorder.Some?)
  }

  lemma StopKeepsInv(s: VideoState, terminate: bool, blob: Blob, url: string)
    requires Inv(s)
    ensures Inv(StopStep(s, terminate, blob, url))
  {
  }

  lemma EffectKeepsInv(c: Config, s: VideoState, blob: Blob, url: string)
    requires Inv(s)
    ensures Inv(ElapsedEffect(c, s, blob, url))
  {
    if LimitSet(c) && AlertDue(c, s.elapsed) {
      StopKeepsInv(s.(stopSoon := true), false, blob, url);
    } else if LimitSet(c) {
      StopKeepsInv(s, false, blob, url);
    }
  }

  lemma SetupKeepsInv(s: VideoState, acquired: Option<MediaStream>, previewMounted: bool)
    requires Inv(s)
    ensures Inv(SetupStreamStep(s, acquired, previewMounted).0)
  {
  }

  lemma ResetKeepsInv(s: VideoState)
    requires Inv(s)
    ensures Inv(ResetStep(s))
  {
  }

  lemma StepKeepsInv(c: Config, s: VideoState, op: VideoOp)
    requires Inv(s)
    ensures Inv(Step(c, s, op))
  {
    match op
    case RequestPermission(g) =>
    case SetupStream(m, p) =>
      assert Step(c, s, op) == SetupStreamStep(s, m, p).0;
      SetupKeepsInv(s, m, p);
    case Start =>
    case Pause =>
    case Resume =>
    case Stop(t, b, u) =>
      assert Step(c, s, op) == StopStep(s, t, b, u);
      StopKeepsInv(s, t, b, u);
    case Effect(b, u) =>
      assert Step(c, s, op) == ElapsedEffect(c, s, b, u);
      EffectKeepsInv(c, s, b, u);
    case Tick(b, u) =>
      assert Step(c, s, op) == ElapsedEffect(c, Advance(s), b, u);
      EffectKeepsInv(c, Advance(s), b, u);
    case Reset =>
      assert Step(c, s, op) == ResetStep(s);
      ResetKeepsInv(s);
  }

  /** Every session reachable from the initial state keeps the invariant, so
      the stop callback always finds the stream (its throwing branch is dead). */
  lemma {:induction false} RunKeepsInv(c: Config, s: VideoState, ops: seq<VideoOp>)
    requires Inv(s)
    ensures Inv(Run(c, s, ops))
    decreases |ops|
  {
    if ops != [] {
      StepKeepsInv(c, s, ops[0]);
      RunKeepsInv(c, Step(c, s, ops[0]), ops[1..]);
    }
  }

  /** One step: the denial flag is never cleared, stopped tracks stay
      stopped, and the log is only extended, by at most one call. */
  ghost predicate Grows(s: VideoState, t: VideoState)
  {
    (s.permissionDenied ==> t.permissionDenied)
    && s.stopped <= t.stopped
    && s.log <= t.log && |t.log| <= |s.log| + 1
  }

  lemma StopGrows(s: VideoState, terminate: bool, blob: Blob, url: string)
    ensures Grows(s, StopStep(s, terminate, blob, url))
  {
  }

  lemma EffectGrows(c: Config, s: VideoState, blob: Blob, url: string)
    ensures Grows(s, ElapsedEffect(c, s, blob, url))
  {
    if LimitSet(c) && AlertDue(c, s.elapsed) {
      StopGrows(s.(stopSoon := true), false, blob, url);
    } else if LimitSet(c) {
      StopGrows(s, false, blob, url);
    }
  }

  lemma SetupGrows(s: VideoState, acquired: Option<MediaStream>, previewMounted: bool)
    ensures Grows(s, SetupStreamStep(s, acquired, previewMounted).0)
  {
  }

  lemma ResetGrows(s: VideoState)
    ensures Grows(s, ResetStep(s))
  {
    var s1 := if s.isRecording then StopRequest(s) else s;
    assert Grows(s, s1);
  }

  lemma StepMonotone(c: Config, s: VideoState, op: VideoOp)
    ensures Grows(s, Step(c, s, op))
  {
    match op
    case RequestPermission(g) =>
    case SetupStream(m, p) =>
      assert Step(c, s, op) == SetupStreamStep(s, m, p).0;
      SetupGrows(s, m, p);
    case Start =>
    case Pause =>
    case Resume =>
    case Stop(t, b, u) =>
      assert Step(c, s, op) == StopStep(s, t, b, u);
      StopGrows(s, t, b, u);
    case Effect(b, u) =>
      assert Step(c, s, op) == ElapsedEffect(c, s, b, u);
      EffectGrows(c, s, b, u);
    case Tick(b, u) =>
      assert Step(c, s, op) == ElapsedEffect(c, Advance(s), b, u);
      EffectGrows(c, Advance(s), b, u);
    case Reset =>
      assert Step(c, s, op) == ResetStep(s);
      ResetGrows(s);
  }

  /** The same over any run: a denial is sticky, tracks are never restarted,
      and `afterStopRecording` calls are never taken back. */
  lemma {:induction false} RunMonotone(c: Config, s: VideoState, ops: seq<VideoOp>)
    ensures s.permissionDenied ==> Run(c, s, ops).permissionDenied
    ensures s.stopped <= Run(c, s, ops).stopped
    ensures s.log <= Run(c, s, ops).log && |Run(c, s, ops).log| <= |s.log| + |ops|
    decreases |ops|
  {
    if ops != [] {
      StepMonotone(c, s, ops[0]);
      RunMonotone(c, Step(c, s, ops[0]), ops[1..]);
    }
  }

  /** The stop-soon flag is raised only by the elapsed-time effect, and
      lowered only by startRecording and by an active stop (also one the
      effect triggers); reset leaves it alone. */
  lemma StopSoonChanges(c: Config, s: VideoState, op: VideoOp)
    ensures !s.stopSoon && Step(c, s, op).stopSoon ==> op.Effect? || op.Tick?
    ensures s.stopSoon && !Step(c, s, op).stopSoon ==>
              op.Start? || ((op.Stop? || op.Effect? || op.Tick?) && StateOf(s.recorder) != Inactive)
    ensures ResetStep(s).stopSoon == s.stopSoon
  {
  }

  /** startRecording fails and changes nothing exactly when no recorder is
      bound; otherwise it starts the recorder and the timer from 0 seconds. */
  lemma StartSpec(s: VideoState)
    ensures !StartStep(s).1 <==> s.recorder.None?
    ensures !StartStep(s).1 ==> StartStep(s).0 == s
    ensures StartStep(s).1 ==>
              var t := StartStep(s).0;
              t.elapsed == 0 && !t.stopSoon && t.isRecording && t.timerOn
              && StateOf(t.recorder) == Recording && t.log == s.log && t.stopped == s.stopped
              && t.recorder.value.source == s.recorder.value.source
              && t == s.(recorder := t.recorder, stopSoon := false, elapsed := 0, isRecording := true, timerOn := true)
  {
  }

  /** A failed setupStream reports false and clears the recording flag; it
      can fail with a fresh recorder bound (a missing preview element). A
      successful one binds a fresh inactive recorder on the new stream and
      previews it. */
  lemma SetupStreamSpec(s: VideoState, acquired: Option<MediaStream>, previewMounted: bool)
    ensures var (t, ok) := SetupStreamStep(s, acquired, previewMounted);
            (ok <==> acquired.Some? && previewMounted)
            && (!ok ==> !t.isRecording)
            && (acquired.Some? ==> t.recorder == Some(NewRecorder(acquired.value)) && t.stream == acquired)
            && (ok ==> t.preview == acquired && t.isRecording == s.isRecording)
            && (acquired.None? ==> t == s.(isRecording := false))
  {
  }

  /** Pausing a running session and resuming it gives the session back; the
      elapsed seconds are untouched by the pause. Pausing twice is pausing once. */
  lemma PauseResumeRoundTrip(s: VideoState)
    requires s.recorder.Some? && s.recorder.value.state == Recording
    requires s.isRecording && !s.isPaused && s.timerOn
    ensures PauseStep(s).1 && PauseStep(s).0.elapsed == s.elapsed
    ensures PauseStep(s).0.isPaused && !PauseStep(s).0.isRecording && !PauseStep(s).0.timerOn
    ensures ResumeStep(PauseStep(s).0) == (s, true)
    ensures PauseStep(PauseStep(s).0.(elapsed := s.elapsed)).0 == PauseStep(s).0
  {
  }

  /** Pausing with a recorder bound but no recording in progress reports
      true and changes nothing. */
  lemma PauseWhileNotRecording(s: VideoState)
    requires s.recorder.Some? && !s.isRecording
    ensures PauseStep(s) == (s, true)
  {
  }

  /** Resuming with a recorder bound reports true and marks the session as
      recording whether or not it was paused; RecordRTC itself resumes only a
      paused recorder. */
  lemma ResumeIgnoresPaused(s: VideoState)
    requires s.recorder.Some?
    ensures ResumeStep(s).1
    ensures var t := ResumeStep(s).0;
            t.isRecording && !t.isPaused && t.timerOn && t.elapsed == s.elapsed
            && t.log == s.log && t.stopped == s.stopped && t.stream == s.stream
            && t.recorder.Some? && t.recorder.value.source == s.recorder.value.source
            && t.recorder.value.state == (if s.recorder.value.state == Paused then Recording else s.recorder.value.state)
  {
  }

  /** Without a recorder, pause and resume report false and change nothing. */
  lemma PauseResumeWithoutRecorder(s: VideoState)
    requires s.recorder.None?
    ensures PauseStep(s) == (s, false) && ResumeStep(s) == (s, false)
  {
  }

  /** stopRecording calls `afterStopRecording` exactly when the recorder is
      absent or inactive (with no data, even when terminating) or when it is
      not terminating (with the blob and url); an active stop keeps the
      elapsed seconds, an inactive one zeroes them. */
  lemma StopSpec(s: VideoState, terminate: bool, blob: Blob, url: string)
    requires Inv(s)
    ensures var t := StopStep(s, terminate, blob, url);
            (|t.log| == |s.log| + 1 <==> StateOf(s.recorder) == Inactive || !terminate)
            && !t.isRecording && !t.isPaused && !t.timerOn
            && t.stopped == Release(s.stopped, s.stream)
            && (StateOf(s.recorder) == Inactive ==>
                  t.log == s.log + [NoData] && t.elapsed == 0 && t.recorder.None? && t.stopSoon == s.stopSoon)
            && (StateOf(s.recorder) != Inactive ==>
                  t.log == s.log + (if terminate then [] else [Data(blob, url)])
                  && t.elapsed == s.elapsed && t.blob == Some(blob) && t.url == url && !t.stopSoon
                  && StateOf(t.recorder) == Stopped)
  {
  }

  /** reset() leaves a session that is not recording, at 0 seconds, without
      blob, url, recorder or stream, with the stream's tracks stopped; it
      keeps the denial and stop-soon flags and the timer flag of a session
      that was not recording. It calls `afterStopRecording` only when it
      finds a session that records on an inactive recorder. */
  lemma ResetSpec(s: VideoState)
    requires Inv(s)
    ensures var t := ResetStep(s);
            !t.isRecording && t.elapsed == 0 && t.blob.None? && t.url == ""
            && t.recorder.None? && t.stream.None?
            && t.stopped == Release(s.stopped, s.stream)
            && t.permissionDenied == s.permissionDenied && t.stopSoon == s.stopSoon
            && (!s.isRecording ==> t.timerOn == s.timerOn && t.isPaused == s.isPaused)
            && t.log == s.log + (if s.isRecording && StateOf(s.recorder) == Inactive then [NoData] else [])
  {
  }

  /** `n` firings of the interval, each stop they trigger yielding `blob`
      and `url`. */
  function Ticks(c: Config, s: VideoState, n: nat, blob: Blob, url: string): VideoState
  {
    if n == 0 then s else TickStep(c, Ticks(c, s, n - 1, blob, url), blob, url)
  }

  /** A session `e` seconds into a recording with a numeric limit `m > e`:
      for the next `m - e - 1` seconds time only advances and the stop-soon
      flag latches once `m - elapsed <= alert`. */
  lemma {:induction false} TicksBeforeLimit(c: Config, s: VideoState, m: int, a: int, k: nat, blob: Blob, url: string)
    requires c.maxRecordLength == Number(m) && ToNumber(c.alertTimeBeforeStop) == Some(a)
    requires 0 <= s.elapsed < m && k < m - s.elapsed
    ensures Ticks(c, s, k, blob, url)
            == s.(elapsed := s.elapsed + k, stopSoon := s.stopSoon || (k > 0 && m - (s.elapsed + k) <= a))
  {
    if k > 0 {
      TicksBeforeLimit(c, s, m, a, k - 1, blob, url);
      var prev := Ticks(c, s, k - 1, blob, url);
      EarlyTick(c, prev, m, a, s.(elapsed := s.elapsed + k, stopSoon := s.stopSoon || m - (s.elapsed + k) <= a),
                blob, url);
      assert Ticks(c, s, k, blob, url) == TickStep(c, prev, blob, url);
    }
  }

  /** A tick that stays below the limit advances time and latches the
      stop-soon flag once `m - elapsed <= alert`, reaching `next`. */
  lemma EarlyTick(c: Config, s: VideoState, m: int, a: int, next: VideoState, blob: Blob, url: string)
    requires c.maxRecordLength == Number(m) && ToNumber(c.alertTimeBeforeStop) == Some(a)
    requires 0 <= s.elapsed && s.elapsed + 1 < m
    requires next == s.(elapsed := s.elapsed + 1, stopSoon := s.stopSoon || m - (s.elapsed + 1) <= a)
    ensures TickStep(c, s, blob, url) == next
  {
    var t := Advance(s);
    assert LimitSet(c) && !LimitReached(c, t.elapsed);
    assert AlertDue(c, t.elapsed) <==> m - t.elapsed <= a;
  }

  /** The session the last tick before the limit hands to the stop: the
      limit reached and the stop-soon flag latched. */
  function AtLimit(s: VideoState, m: int, a: int): VideoState
  {
    s.(elapsed := m, stopSoon := s.stopSoon || 0 <= a)
  }

  /** The tick that reaches the limit latches the stop-soon flag and stops,
      with `terminate` unset. */
  lemma LimitTick(c: Config, s: VideoState, m: int, a: int, at: VideoState, blob: Blob, url: string)
    requires c.maxRecordLength == Number(m) && ToNumber(c.alertTimeBeforeStop) == Some(a)
    requires 1 <= m && s.elapsed == m - 1 && at == s.(elapsed := m, stopSoon := s.stopSoon || 0 <= a)
    ensures TickStep(c, s, blob, url) == StopStep(at, false, blob, url)
  {
    LimitEffect(c, Advance(s), m, a, at, blob, url);
  }

  /** The effect at the limit latches the stop-soon flag and stops. */
  lemma LimitEffect(c: Config, s: VideoState, m: int, a: int, at: VideoState, blob: Blob, url: string)
    requires c.maxRecordLength == Number(m) && ToNumber(c.alertTimeBeforeStop) == Some(a)
    requires 1 <= m && s.elapsed == m && at == s.(stopSoon := s.stopSoon || 0 <= a)
    ensures ElapsedEffect(c, s, blob, url) == StopStep(at, false, blob, url)
  {
    assert LimitSet(c) && LimitReached(c, s.elapsed);
    assert AlertDue(c, s.elapsed) <==> 0 <= a;
    var latched := if AlertDue(c, s.elapsed) then s.(stopSoon := true) else s;
    assert latched == at;
  }

  /** Ticking up to the limit ends in one stop, with `terminate` unset, of
      the session at the limit. */
  lemma TicksToLimit(c: Config, s: VideoState, m: int, a: int, blob: Blob, url: string)
    requires c.maxRecordLength == Number(m) && ToNumber(c.alertTimeBeforeStop) == Some(a)
    requires 0 <= s.elapsed < m
    ensures Ticks(c, s, m - s.elapsed, blob, url) == StopStep(AtLimit(s, m, a), false, blob, url)
  {
    var k := m - s.elapsed - 1;
    TicksBeforeLimit(c, s, m, a, k, blob, url);
    var before := Ticks(c, s, k, blob, url);
    LimitTick(c, before, m, a, AtLimit(s, m, a), blob, url);
    assert Ticks(c, s, k + 1, blob, url) == TickStep(c, before, blob, url);
  }

  /** Auto-stop: after `m - e` seconds the effect stops an active recording
      by itself: exactly one `{ blob, url }` call is logged, the tracks are
      stopped, the timer is off and the elapsed seconds stay at the limit. */
  lemma AutoStopAtLimit(c: Config, s: VideoState, m: int, a: int, blob: Blob, url: string)
    requires c.maxRecordLength == Number(m) && ToNumber(c.alertTimeBeforeStop) == Some(a)
    requires 0 <= s.elapsed < m && Inv(s) && StateOf(s.recorder) == Recording && s.isRecording
    ensures var t := Ticks(c, s, m - s.elapsed, blob, url);
            t.log == s.log + [Data(blob, url)] && !t.isRecording && !t.timerOn && !t.stopSoon
            && t.elapsed == m && t.blob == Some(blob) && t.url == url
            && t.stopped == s.stopped + TrackSet(s.stream.value.tracks)
            && StateOf(t.recorder) == Stopped
  {
    TicksToLimit(c, s, m, a, blob, url);
    var at := AtLimit(s, m, a);
    assert StateOf(at.recorder) == Recording && at.stream == s.stream && Inv(at);
    StopSpec(at, false, blob, url);
  }

  /** The hook as an object: a field per piece of React state and per ref. */
  class VideoSession {
    const config: Config
    var isRecording: bool
    var isPaused: bool
    var permissionDenied: bool
    var elapsed: int
    var blob: Option<Blob>
    var url: string
    var stopSoon: bool
    var recorder: Option<Recorder>
    var stream: Option<MediaStream>
    var preview: Option<MediaStream>
    var timerOn: bool
    var stopped: set<Track>
    ghost var log: seq<StopData>

    ghost function State(): VideoState
      reads this
    {
      VideoState(isRecording, isPaused, permissionDenied, elapsed, blob, url, stopSoon,
                 recorder, stream, preview, timerOn, stopped, log)
    }

    /** useVideoRecorder(config): defaults merged, nothing recorded yet. */
    constructor (arg: ConfigArg)
      ensures config == ResolveConfig(Defaults, arg) && State() == Init
    {
      config := ResolveConfig(Defaults, arg);
      isRecording, isPaused, permissionDenied := false, false, false;
      elapsed, blob, url, stopSoon := 0, None, "", false;
      recorder, stream, preview, timerOn := None, None, None, false;
      stopped, log := {}, [];
    }

    method RequestPermission(granted: bool) returns (ok: bool)
      modifies this
      ensures (State(), ok) == RequestPermissionStep(old(State()), granted)
    {
      if granted {
        return true;
      }
      permissionDenied := true;
      return false;
    }

    method SetupStream(acquired: Option<MediaStream>, previewMounted: bool) returns (ok: bool)
      modifies this
      ensures (State(), ok) == SetupStreamStep(old(State()), acquired, previewMounted)
    {
      if acquired.None? {
        isRecording := false;
        return false;
      }
      var m := acquired.value;
      stream := Some(m);
      recorder := Some(NewRecorder(m));
      if !previewMounted {
        isRecording := false;
        return false;
      }
      if preview.Some? {
        stopped := StopTracks(stopped, VideoTracks(preview.value.tracks));
      }
      preview := Some(m);
      return true;
    }

    method StartRecording() returns (ok: bool)
      modifies this
      ensures (State(), ok) == StartStep(old(State()))
    {
      if recorder.None? {
        return false;
      }
      recorder := Some(StartRec(recorder.value));
      stopSoon := false;
      elapsed := 0;
      isRecording := true;
      timerOn := true;
      return true;
    }

    method PauseRecording() returns (ok: bool)
      modifies this
      ensures (State(), ok) == PauseStep(old(State()))
    {
      if recorder.None? {
        return false;
      }
      if isRecording {
        recorder := Some(PauseRec(recorder.value));
        isRecording := false;
        isPaused := true;
        timerOn := false;
      }
      return true;
    }

    method ResumeRecording() returns (ok: bool)
      modifies this
      ensures (State(), ok) == ResumeStep(old(State()))
    {
      if recorder.None? {
        return false;
      }
      recorder := Some(ResumeRec(recorder.value));
      isRecording := true;
      isPaused := false;
      timerOn := true;
      return true;
    }

    /** The synchronous part of stopRecording; `pending` says whether
        RecordRTC's callback is still to come. */
    method RequestStop() returns (pending: bool)
      modifies this
      ensures State() == StopRequest(old(State()))
      ensures pending == (StateOf(old(recorder)) != Inactive)
    {
      isPaused := false;
      timerOn := false;
      if StateOf(recorder) == Inactive {
        Discard();
        return false;
      }
      recorder := Some(StopRec(recorder.value));
      return true;
    }

    /** The branch of stopRecording for an inactive recorder: the stream's
        tracks are stopped, the recorder is dropped, the time and the flag
        reset and `afterStopRecording` called without data. */
    method Discard()
      modifies this
      ensures State() == old(State()).(stopped := Release(old(stopped), old(stream)), recorder := None,
                                       elapsed := 0, isRecording := false, log := old(log) + [NoData])
    {
      stopped := ReleaseStream(stopped, stream);
      recorder := None;
      elapsed := 0;
      isRecording := false;
      log := log + [NoData];
    }

    method OnStopped(terminate: bool, b: Blob, u: string)
      modifies this
      ensures State() == StopCallback(old(State()), terminate, b, u)
    {
      if stream.None? {
        return;
      }
      stopped := StopTracks(stopped, stream.value.tracks);
      Publish(terminate, b, u);
    }

    /** The end of RecordRTC's callback: the recording is kept and, unless
        the stop terminates, handed to `afterStopRecording`. */
    method Publish(terminate: bool, b: Blob, u: string)
      modifies this
      ensures State() == old(State()).(stopSoon := false, blob := Some(b), url := u, isRecording := false,
                                       log := if terminate then old(log) else old(log) + [Data(b, u)])
    {
      stopSoon := false;
      blob := Some(b);
      url := u;
      isRecording := false;
      if !terminate {
        log := log + [Data(b, u)];
      }
    }

    method StopRecording(terminate: bool, b: Blob, u: string)
      modifies this
      ensures State() == StopStep(old(State()), terminate, b, u)
    {
      var pending := RequestStop();
      if pending {
        OnStopped(terminate, b, u);
      }
    }

    method RunElapsedEffect(b: Blob, u: string)
      modifies this
      ensures State() == ElapsedEffect(config, old(State()), b, u)
    {
      if !LimitSet(config) {
        return;
      }
      if AlertDue(config, elapsed) {
        stopSoon := true;
      }
      if LimitReached(config, elapsed) {
        StopRecording(false, b, u);
      }
    }

    /** The interval fires only while it is set. */
    method Tick(b: Blob, u: string)
      requires timerOn
      modifies this
      ensures State() == TickStep(config, old(State()), b, u)
    {
      elapsed := elapsed + 1;
      assert State() == Advance(old(State()));
      RunElapsedEffect(b, u);
    }

    method Reset()
      modifies this
      ensures State() == ResetStep(old(State()))
    {
      if isRecording {
        var _ := RequestStop();
      }
      stopped := ReleaseStream(stopped, stream);
      recorder := None;
      stream := None;
      ClearResult();
    }

    /** The state setters of reset(). */
    method ClearResult()
      modifies this
      ensures State() == old(State()).(isRecording := false, elapsed := 0, blob := None, url := "")
    {
      isRecording := false;
      elapsed := 0;
      blob := None;
      url := "";
    }

    /** getCountDown(): the number handed to `formatSecondsAsCountdown`. Without
        a limit, or before the first second, it is the elapsed seconds; from
        then on it is NaN exactly when the limit is, and otherwise the seconds
        left, which added to the elapsed ones give the limit and fall to 0 or
        below exactly when the limit is reached. */
    function CountDown(): (r: Option<int>)
      reads this
      ensures !LimitSet(config) || elapsed < 1 ==> r == Some(elapsed)
      ensures LimitSet(config) && elapsed >= 1 ==> (r.None? <==> ToNumber(config.maxRecordLength).None?)
      ensures LimitSet(config) && elapsed >= 1 && r.Some? ==>
                r.value + elapsed == ToNumber(config.maxRecordLength).value
                && (r.value <= 0 <==> LimitReached(config, elapsed))
    {
      CountDownArgument(config, elapsed)
    }

    /** getRecordedTimeAsClock(). */
    function RecordedTimeAsClock(): (r: string)
      reads this
      requires Utils.FourDigitYear(elapsed)
      ensures Utils.ParseClock(r) == Some(elapsed % 3600)
    {
      Media.RecordedTimeAsClock(elapsed)
    }
  }
}
