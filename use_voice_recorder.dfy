/** useVoiceRecorder: records the microphone. The session state is
    `VoiceState`; each hook function is a step function on it, and
    `VoiceSession` is the same controller as an object. startRecording sets
    the stream up by itself, and no operation ever stops the microphone's
    tracks or drops the stream.

    As for the camera hook, browser outcomes and RecordRTC's blob and url
    are parameters, and RecordRTC's stop callback runs as soon as the code
    requesting the stop has finished. */
module VoiceRecorder {
  import opened Js
  import opened Media
  import Utils

  const Defaults: Config := Config(Null, Number(10), Undefined, Undefined)

  /** A missing or non-object configuration gives no limit and a 10 second
      alert lead. */
  lemma DefaultConfig(arg: ConfigArg)
    requires arg.Plain? || arg == ObjectArg(map[])
    ensures ResolveConfig(Defaults, arg) == Config(Null, Number(10), Undefined, Undefined)
    ensures !LimitSet(ResolveConfig(Defaults, arg))
  {
  }

  /** The hook's state; `stopped` holds the tracks stopped so far. */
  datatype VoiceState = VoiceState(
    isRecording: bool,
    isPaused: bool,
    permissionDenied: bool,
    elapsed: int,
    blob: Option<Blob>,
    url: string,
    stopSoon: bool,
    recorder: Option<Recorder>,
    stream: Option<MediaStream>,
    timerOn: bool,
    stopped: set<Track>,
    log: seq<StopData>)

  const Init: VoiceState := VoiceState(false, false, false, 0, None, "", false, None, None, false, {}, [])

  /** requestPermission(). */
  function RequestPermissionStep(s: VoiceState, granted: bool): (VoiceState, bool)
  {
    if granted then (s, true) else (s.(permissionDenied := true), false)
  }

  /** setupStream(): `mic` is what getUserMedia resolves with. */
  function SetupStreamStep(s: VoiceState, mic: Option<MediaStream>): (VoiceState, bool)
  {
    if mic.None? then (s.(isRecording := false), false)
    else (s.(stream := mic, recorder := Some(NewRecorder(mic.value))), true)
  }

  /** startRecording(): setupStream first, then a start on whatever
      recorder is bound, even one left from an earlier setup. */
  function StartStep(s: VoiceState, mic: Option<MediaStream>): (VoiceState, bool)
  {
    var s1 := SetupStreamStep(s, mic).0;
    if s1.recorder.None? then (s1, false)
    else (s1.(recorder := Some(StartRec(s1.recorder.value)), stopSoon := false, elapsed := 0,
              isRecording := true, timerOn := true), true)
  }

  /** pauseRecording(). */
  function PauseStep(s: VoiceState): (VoiceState, bool)
  {
    if s.recorder.None? then (s, false)
    else if s.isRecording then
      (s.(recorder := Some(PauseRec(s.recorder.value)), isRecording := false, isPaused := true, timerOn := false), true)
    else (s, true)
  }

  /** resumeRecording(): does not look at `isPaused`. */
  function ResumeStep(s: VoiceState): (VoiceState, bool)
  {
    if s.recorder.None? then (s, false)
    else (s.(recorder := Some(ResumeRec(s.recorder.value)), isRecording := true, isPaused := false, timerOn := true), true)
  }

  /** The part of stopRecording(args) before RecordRTC's callback; no track
      is stopped, not even on the inactive branch. */
  function StopRequest(s: VoiceState): VoiceState
  {
    var s1 := s.(isPaused := false, timerOn := false);
    if StateOf(s1.recorder) == Inactive then
      s1.(recorder := None, elapsed := 0, isRecording := false, log := s1.log + [NoData])
    else s1.(recorder := Some(StopRec(s1.recorder.value)))
  }

  /** RecordRTC's stop callback. */
  function StopCallback(s: VoiceState, terminate: bool, blob: Blob, url: string): VoiceState
  {
    s.(stopSoon := false, blob := Some(blob), url := url, isRecording := false,
       log := if terminate then s.log else s.log + [Data(blob, url)])
  }

  /** stopRecording(args), `terminate` being the truthiness of `args.terminate`. */
  function StopStep(s: VoiceState, terminate: bool, blob: Blob, url: string): VoiceState
  {
    if StateOf(s.recorder) == Inactive then StopRequest(s)
    else StopCallback(StopRequest(s), terminate, blob, url)
  }

  /** The effect on `recordedTimeInSecond`. */
  function ElapsedEffect(c: Config, s: VoiceState, blob: Blob, url: string): VoiceState
  {
    if !LimitSet(c) then s
    else
      var s1 := if AlertDue(c, s.elapsed) then s.(stopSoon := true) else s;
      if LimitReached(c, s1.elapsed) then StopStep(s1, false, blob, url) else s1
  }

  /** The interval's `setRecordedTimeInSecond(current + 1)`. */
  function Advance(s: VoiceState): VoiceState
  {
    s.(elapsed := s.elapsed + 1)
  }

  /** One firing of the interval, and the effect of the change. */
  function TickStep(c: Config, s: VoiceState, blob: Blob, url: string): VoiceState
  {
    ElapsedEffect(c, Advance(s), blob, url)
  }

  /** reset(): a session that records is stopped with `terminate` (an active
      recorder's callback then throws on the cleared recorder reference);
      the recorder reference is dropped, the stream reference kept. */
  function ResetStep(s: VoiceState): VoiceState
  {
    var s1 := if s.isRecording then StopRequest(s) else s;
    s1.(recorder := None, isRecording := false, elapsed := 0, blob := None, url := "")
  }

  datatype VoiceOp =
    | RequestPermission(granted: bool)
    | Start(mic: Option<MediaStream>)
    | Pause
    | Resume
    | Stop(terminate: bool, blob: Blob, url: string)
    | Effect(blob: Blob, url: string)
    | Tick(blob: Blob, url: string)
    | Reset

  function Step(c: Config, s: VoiceState, op: VoiceOp): VoiceState
  {
    match op
    case RequestPermission(g) => RequestPermissionStep(s, g).0
    case Start(m) => StartStep(s, m).0
    case Pause => PauseStep(s).0
    case Resume => ResumeStep(s).0
    case Stop(t, b, u) => StopStep(s, t, b, u)
    case Effect(b, u) => ElapsedEffect(c, s, b, u)
    case Tick(b, u) => TickStep(c, s, b, u)
    case Reset => ResetStep(s)
  }

  function Run(c: Config, s: VoiceState, ops: seq<VoiceOp>): VoiceState
    decreases |ops|
  {
    if ops == [] then s else Run(c, Step(c, s, ops[0]), ops[1..])
  }

  /** A bound recorder records the bound stream, and a session that says it
      records has a recorder. */
  ghost predicate Inv(s: VoiceState)
  {
    (s.recorder.Some? ==> s.stream.Some? && s.recorder.value.source == s.stream.value)
    && (s.isRecording ==> s.recorder.Some?)
  }

  /** What no step changes: the denial flag once set, the stopped tracks,
      a held stream, and the past calls of `afterStopRecording`. */
  ghost predicate Keeps(s: VoiceState, t: VoiceState)
  {
    (s.permissionDenied ==> t.permissionDenied)
    && t.stopped == s.stopped
    && (s.stream.Some? ==> t.stream.Some?)
    && s.log <= t.log && |t.log| <= |s.log| + 1
  }

  lemma StopKeeps(s: VoiceState, terminate: bool, blob: Blob, url: string)
    ensures Keeps(s, StopStep(s, terminate, blob, url))
    ensures Inv(s) ==> Inv(StopStep(s, terminate, blob, url))
  {
  }

  lemma EffectKeeps(c: Config, s: VoiceState, blob: Blob, url: string)
    ensures Keeps(s, ElapsedEffect(c, s, blob, url))
    ensures Inv(s) ==> Inv(ElapsedEffect(c, s, blob, url))
  {
    if LimitSet(c) && AlertDue(c, s.elapsed) {
      StopKeeps(s.(stopSoon := true), false, blob, url);
    } else if LimitSet(c) {
      StopKeeps(s, false, blob, url);
    }
  }

  lemma StartKeeps(s: VoiceState, mic: Option<MediaStream>)
    ensures Keeps(s, StartStep(s, mic).0)
    ensures Inv(s) ==> Inv(StartStep(s, mic).0)
  {
  }

  lemma ResetKeeps(s: VoiceState)
    ensures Keeps(s, ResetStep(s))
    ensures Inv(s) ==> Inv(ResetStep(s))
  {
    var s1 := if s.isRecording then StopRequest(s) else s;
    assert Keeps(s, s1);
  }

  /** No operation changes what `Keeps` fixes. */
  lemma StepKeeps(c: Config, s: VoiceState, op: VoiceOp)
    ensures Keeps(s, Step(c, s, op))
  {
    match op
    case RequestPermission(g) =>
    case Start(m) => StartKeeps(s, m);
    case Pause =>
    case Resume =>
    case Stop(t, b, u) =>
      assert Step(c, s, op) == StopStep(s, t, b, u);
      StopKeeps(s, t, b, u);
    case Effect(b, u) =>
      assert Step(c, s, op) == ElapsedEffect(c, s, b, u);
      EffectKeeps(c, s, b, u);
    case Tick(b, u) =>
      assert Step(c, s, op) == ElapsedEffect(c, Advance(s), b, u);
      EffectKeeps(c, Advance(s), b, u);
    case Reset =>
      assert Step(c, s, op) == ResetStep(s);
      ResetKeeps(s);
  }

  /** Every operation preserves the invariant. */
  lemma StepKeepsInv(c: Config, s: VoiceState, op: VoiceOp)
    requires Inv(s)
    ensures Inv(Step(c, s, op))
  {
    match op
    case RequestPermission(g) =>
    case Start(m) => StartKeeps(s, m);
    case Pause =>
    case Resume =>
    case Stop(t, b, u) =>
      assert Step(c, s, op) == StopStep(s, t, b, u);
      StopKeeps(s, t, b, u);
    case Effect(b, u) =>
      assert Step(c, s, op) == ElapsedEffect(c, s, b, u);
      EffectKeeps(c, s, b, u);
    case Tick(b, u) =>
      assert Step(c, s, op) == ElapsedEffect(c, Advance(s), b, u);
      EffectKeeps(c, Advance(s), b, u);
    case Reset =>
      assert Step(c, s, op) == ResetStep(s);
      ResetKeeps(s);
  }

  /** Over any run: the microphone's tracks are never stopped and its stream,
      once held, never dropped; a denial is sticky; the log only grows; and
      the invariant holds throughout. */
  lemma {:induction false} RunKeeps(c: Config, s: VoiceState, ops: seq<VoiceOp>)
    ensures Run(c, s, ops).stopped == s.stopped
    ensures s.stream.Some? ==> Run(c, s, ops).stream.Some?
    ensures s.permissionDenied ==> Run(c, s, ops).permissionDenied
    ensures s.log <= Run(c, s, ops).log && |Run(c, s, ops).log| <= |s.log| + |ops|
    ensures Inv(s) ==> Inv(Run(c, s, ops))
    decreases |ops|
  {
    if ops != [] {
      StepKeeps(c, s, ops[0]);
      if Inv(s) {
        StepKeepsInv(c, s, ops[0]);
      }
      RunKeeps(c, Step(c, s, ops[0]), ops[1..]);
    }
  }

  /** A refused permission sets the denial flag and reports false; a grant
      reports true and changes nothing. */
  lemma RequestPermissionSpec(s: VoiceState, granted: bool)
    ensures RequestPermissionStep(s, granted).1 == granted
    ensures RequestPermissionStep(s, granted).0.permissionDenied == (s.permissionDenied || !granted)
    ensures granted ==> RequestPermissionStep(s, granted).0 == s
  {
  }

  /** startRecording reports false exactly when neither the new setup nor an
      earlier one left a recorder; a failed setup with an earlier recorder
      still starts that recorder, on the earlier stream. */
  lemma StartSpec(s: VoiceState, mic: Option<MediaStream>)
    ensures StartStep(s, mic).1 <==> mic.Some? || s.recorder.Some?
    ensures !StartStep(s, mic).1 ==> StartStep(s, mic).0 == s.(isRecording := false)
    ensures StartStep(s, mic).1 ==>
              var t := StartStep(s, mic).0;
              t.elapsed == 0 && !t.stopSoon && t.isRecording && t.timerOn
              && StateOf(t.recorder) == Recording
              && t.recorder.value.source == (if mic.Some? then mic.value else s.recorder.value.source)
              && t.log == s.log
  {
  }

  /** Pausing a running session and resuming it gives the session back. */
  lemma PauseResumeRoundTrip(s: VoiceState)
    requires s.recorder.Some? && s.recorder.value.state == Recording
    requires s.isRecording && !s.isPaused && s.timerOn
    ensures PauseStep(s).1 && PauseStep(s).0.elapsed == s.elapsed
    ensures PauseStep(s).0.isPaused && !PauseStep(s).0.isRecording && !PauseStep(s).0.timerOn
    ensures ResumeStep(PauseStep(s).0) == (s, true)
  {
  }

  /** Pausing with a recorder bound but no recording in progress reports
      true and changes nothing. */
  lemma PauseWhileNotRecording(s: VoiceState)
    requires s.recorder.Some? && !s.isRecording
    ensures PauseStep(s) == (s, true)
  {
  }

  /** Resuming with a recorder bound reports true and marks the session as
      recording whether or not it was paused; RecordRTC itself resumes only a
      paused recorder. */
  lemma ResumeIgnoresPaused(s: VoiceState)
    requires s.recorder.Some?
    ensures ResumeStep(s).1
    ensures var t := ResumeStep(s).0;
            t.isRecording && !t.isPaused && t.timerOn && t.elapsed == s.elapsed
            && t.log == s.log && t.stream == s.stream
            && t.recorder.Some? && t.recorder.value.source == s.recorder.value.source
            && t.recorder.value.state == (if s.recorder.value.state == Paused then Recording else s.recorder.value.state)
  {
  }

  /** Without a recorder, pause and resume report false and change nothing. */
  lemma PauseResumeWithoutRecorder(s: VoiceState)
    requires s.recorder.None?
    ensures PauseStep(s) == (s, false) && ResumeStep(s) == (s, false)
  {
  }

  /** `terminate` suppresses only the active branch's call: an absent or
      inactive recorder always logs a call without data and zeroes the
      elapsed seconds; an active one logs the blob and url unless
      terminating and keeps the elapsed seconds. */
  lemma StopSpec(s: VoiceState, terminate: bool, blob: Blob, url: string)
    ensures var t := StopStep(s, terminate, blob, url);
            (|t.log| == |s.log| + 1 <==> StateOf(s.recorder) == Inactive || !terminate)
            && !t.isRecording && !t.isPaused && !t.timerOn && t.stream == s.stream
            && (StateOf(s.recorder) == Inactive ==>
                  t.log == s.log + [NoData] && t.elapsed == 0 && t.recorder.None?)
            && (StateOf(s.recorder) != Inactive ==>
                  t.log == s.log + (if terminate then [] else [Data(blob, url)])
                  && t.elapsed == s.elapsed && t.blob == Some(blob) && t.url == url && !t.stopSoon)
  {
  }

  /** reset() ends at 0 seconds without blob, url or recorder, not
      recording, with the stream kept; a paused session is not stopped and
      stays paused. */
  lemma ResetSpec(s: VoiceState)
    ensures var t := ResetStep(s);
            !t.isRecording && t.elapsed == 0 && t.blob.None? && t.url == "" && t.recorder.None?
            && t.stream == s.stream && t.stopped == s.stopped && t.stopSoon == s.stopSoon
            && (!s.isRecording ==> t.isPaused == s.isPaused && t.log == s.log && t.timerOn == s.timerOn)
            && (s.isRecording ==> !t.isPaused && !t.timerOn)
  {
  }

  function Ticks(c: Config, s: VoiceState, n: nat, blob: Blob, url: string): VoiceState
  {
    if n == 0 then s else TickStep(c, Ticks(c, s, n - 1, blob, url), blob, url)
  }

  /** Below the limit, ticks only advance time and latch the stop-soon flag. */
  lemma {:induction false} TicksBeforeLimit(c: Config, s: VoiceState, m: int, a: int, k: nat, blob: Blob, url: string)
    requires c.maxRecordLength == Number(m) && ToNumber(c.alertTimeBeforeStop) == Some(a)
    requires 0 <= s.elapsed < m && k < m - s.elapsed
    ensures Ticks(c, s, k, blob, url)
            == s.(elapsed := s.elapsed + k, stopSoon := s.stopSoon || (k > 0 && m - (s.elapsed + k) <= a))
  {
    if k > 0 {
      TicksBeforeLimit(c, s, m, a, k - 1, blob, url);
      var prev := Ticks(c, s, k - 1, blob, url);
      EarlyTick(c, prev, m, a, s.(elapsed := s.elapsed + k, stopSoon := s.stopSoon || m - (s.elapsed + k) <= a),
                blob, url);
      assert Ticks(c, s, k, blob, url) == TickStep(c, prev, blob, url);
    }
  }

  /** A tick that stays below the limit advances time and latches the
      stop-soon flag once `m - elapsed <= alert`, reaching `next`. */
  lemma EarlyTick(c: Config, s: VoiceState, m: int, a: int, next: VoiceState, blob: Blob, url: string)
    requires c.maxRecordLength == Number(m) && ToNumber(c.alertTimeBeforeStop) == Some(a)
    requires 0 <= s.elapsed && s.elapsed + 1 < m
    requires next == s.(elapsed := s.elapsed + 1, stopSoon := s.stopSoon || m - (s.elapsed + 1) <= a)
    ensures TickStep(c, s, blob, url) == next
  {
    var t := Advance(s);
    assert LimitSet(c) && !LimitReached(c, t.elapsed);
    assert AlertDue(c, t.elapsed) <==> m - t.elapsed <= a;
  }

  /** The session the last tick before the limit hands to the stop: the
      limit reached and the stop-soon flag latched. */
  function AtLimit(s: VoiceState, m: int, a: int): VoiceState
  {
    s.(elapsed := m, stopSoon := s.stopSoon || 0 <= a)
  }

  /** The tick that reaches the limit latches the stop-soon flag and stops,
      with `terminate` unset. */
  lemma LimitTick(c: Config, s: VoiceState, m: int, a: int, at: VoiceState, blob: Blob, url: string)
    requires c.maxRecordLength == Number(m) && ToNumber(c.alertTimeBeforeStop) == Some(a)
    requires 1 <= m && s.elapsed == m - 1 && at == s.(elapsed := m, stopSoon := s.stopSoon || 0 <= a)
    ensures TickStep(c, s, blob, url) == StopStep(at, false, blob, url)
  {
    LimitEffect(c, Advance(s), m, a, at, blob, url);
  }

  /** The effect at the limit latches the stop-soon flag and stops. */
  lemma LimitEffect(c: Config, s: VoiceState, m: int, a: int, at: VoiceState, blob: Blob, url: string)
    requires c.maxRecordLength == Number(m) && ToNumber(c.alertTimeBeforeStop) == Some(a)
    requires 1 <= m && s.elapsed == m && at == s.(stopSoon := s.stopSoon || 0 <= a)
    ensures ElapsedEffect(c, s, blob, url) == StopStep(at, false, blob, url)
  {
    assert LimitSet(c) && LimitReached(c, s.elapsed);
    assert AlertDue(c, s.elapsed) <==> 0 <= a;
    var latched := if AlertDue(c, s.elapsed) then s.(stopSoon := true) else s;
    assert latched == at;
  }

  /** Ticking up to the limit ends in one stop, with `terminate` unset, of
      the session at the limit. */
  lemma TicksToLimit(c: Config, s: VoiceState, m: int, a: int, blob: Blob, url: string)
    requires c.maxRecordLength == Number(m) && ToNumber(c.alertTimeBeforeStop) == Some(a)
    requires 0 <= s.elapsed < m
    ensures Ticks(c, s, m - s.elapsed, blob, url) == StopStep(AtLimit(s, m, a), false, blob, url)
  {
    var k := m - s.elapsed - 1;
    TicksBeforeLimit(c, s, m, a, k, blob, url);
    var before := Ticks(c, s, k, blob, url);
    LimitTick(c, before, m, a, AtLimit(s, m, a), blob, url);
    assert Ticks(c, s, k + 1, blob, url) == TickStep(c, before, blob, url);
  }

  /** Auto-stop: at the limit the recording is handed over once. */
  lemma AutoStopAtLimit(c: Config, s: VoiceState, m: int, a: int, blob: Blob, url: string)
    requires c.maxRecordLength == Number(m) && ToNumber(c.alertTimeBeforeStop) == Some(a)
    requires 0 <= s.elapsed < m && StateOf(s.recorder) == Recording
    ensures var t := Ticks(c, s, m - s.elapsed, blob, url);
            t.log == s.log + [Data(blob, url)] && !t.isRecording && !t.timerOn && !t.stopSoon
            && t.elapsed == m && t.blob == Some(blob) && t.url == url && t.stopped == s.stopped
  {
    TicksToLimit(c, s, m, a, blob, url);
    var at := AtLimit(s, m, a);
    assert StateOf(at.recorder) == Recording;
    StopSpec(at, false, blob, url);
    StopKeeps(at, false, blob, url);
  }

  /** The hook as an object. */
  class VoiceSession {
    const config: Config
    var isRecording: bool
    var isPaused: bool
    var permissionDenied: bool
    var elapsed: int
    var blob: Option<Blob>
    var url: string
    var stopSoon: bool
    var recorder: Option<Recorder>
    var stream: Option<MediaStream>
    var timerOn: bool
    var stopped: set<Track>
    ghost var log: seq<StopData>

    ghost function State(): VoiceState
      reads this
    {
      VoiceState(isRecording, isPaused, permissionDenied, elapsed, blob, url, stopSoon,
                 recorder, stream, timerOn, stopped, log)
    }

    /** useVoiceRecorder(config). */
    constructor (arg: ConfigArg)
      ensures config == ResolveConfig(Defaults, arg) && State() == Init
    {
      config := ResolveConfig(Defaults, arg);
      isRecording, isPaused, permissionDenied := false, false, false;
      elapsed, blob, url, stopSoon := 0, None, "", false;
      recorder, stream, timerOn := None, None, false;
      stopped, log := {}, [];
    }

    method RequestPermission(granted: bool) returns (ok: bool)
      modifies this
      ensures (State(), ok) == RequestPermissionStep(old(State()), granted)
    {
      if granted {
        return true;
      }
      permissionDenied := true;
      return false;
    }

    method SetupStream(mic: Option<MediaStream>) returns (ok: bool)
      modifies this
      ensures (State(), ok) == SetupStreamStep(old(State()), mic)
    {
      if mic.None? {
        isRecording := false;
        return false;
      }
      stream := mic;
      recorder := Some(NewRecorder(mic.value));
      return true;
    }

    method StartRecording(mic: Option<MediaStream>) returns (ok: bool)
      modifies this
      ensures (State(), ok) == StartStep(old(State()), mic)
    {
      var _ := SetupStream(mic);
      if recorder.None? {
        return false;
      }
      recorder := Some(StartRec(recorder.value));
      stopSoon := false;
      elapsed := 0;
      isRecording := true;
      timerOn := true;
      return true;
    }

    method PauseRecording() returns (ok: bool)
      modifies this
      ensures (State(), ok) == PauseStep(old(State()))
    {
      if recorder.None? {
        return false;
      }
      if isRecording {
        recorder := Some(PauseRec(recorder.value));
        isRecording := false;
        isPaused := true;
        timerOn := false;
      }
      return true;
    }

    method ResumeRecording() returns (ok: bool)
      modifies this
      ensures (State(), ok) == ResumeStep(old(State()))
    {
      if recorder.None? {
        return false;
      }
      recorder := Some(ResumeRec(recorder.value));
      isRecording := true;
      isPaused := false;
      timerOn := true;
      return true;
    }

    method RequestStop() returns (pending: bool)
      modifies this
      ensures State() == StopRequest(old(State()))
      ensures pending == (StateOf(old(recorder)) != Inactive)
    {
      isPaused := false;
      timerOn := false;
      if StateOf(recorder) == Inactive {
        Discard();
        return false;
      }
      recorder := Some(StopRec(recorder.value));
      return true;
    }

    /** The branch of stopRecording for an inactive recorder: the recorder
        is dropped, the time and the flag reset and `afterStopRecording`
        called without data. */
    method Discard()
      modifies this
      ensures State() == old(State()).(recorder := None, elapsed := 0, isRecording := false,
                                       log := old(log) + [NoData])
    {
      recorder := None;
      elapsed := 0;
      isRecording := false;
      log := log + [NoData];
    }

    method OnStopped(terminate: bool, b: Blob, u: string)
      modifies this
      ensures State() == StopCallback(old(State()), terminate, b, u)
    {
      stopSoon := false;
      blob := Some(b);
      url := u;
      isRecording := false;
      if !terminate {
        log := log + [Data(b, u)];
      }
    }

    method StopRecording(terminate: bool, b: Blob, u: string)
      modifies this
      ensures State() == StopStep(old(State()), terminate, b, u)
    {
      var pending := RequestStop();
      if pending {
        OnStopped(terminate, b, u);
      }
    }

    method RunElapsedEffect(b: Blob, u: string)
      modifies this
      ensures State() == ElapsedEffect(config, old(State()), b, u)
    {
      if !LimitSet(config) {
        return;
      }
      if AlertDue(config, elapsed) {
        stopSoon := true;
      }
      if LimitReached(config, elapsed) {
        StopRecording(false, b, u);
      }
    }

    method Tick(b: Blob, u: string)
      requires timerOn
      modifies this
      ensures State() == TickStep(config, old(State()), b, u)
    {
      elapsed := elapsed + 1;
      assert State() == Advance(old(State()));
      RunElapsedEffect(b, u);
    }

    method Reset()
      modifies this
      ensures State() == ResetStep(old(State()))
    {
      if isRecording {
        var _ := RequestStop();
      }
      recorder := None;
      ClearResult();
    }

    /** The state setters of reset(). */
    method ClearResult()
      modifies this
      ensures State() == old(State()).(isRecording := false, elapsed := 0, blob := None, url := "")
    {
      isRecording := false;
      elapsed := 0;
      blob := None;
      url := "";
    }

    /** getCountDown(): the number handed to `formatSecondsAsCountdown`. Without
        a limit, or before the first second, it is the elapsed seconds; from
        then on it is NaN exactly when the limit is, and otherwise the seconds
        left, which added to the elapsed ones give the limit and fall to 0 or
        below exactly when the limit is reached. */
    function CountDown(): (r: Option<int>)
      reads this
      ensures !LimitSet(config) || elapsed < 1 ==> r == Some(elapsed)
      ensures LimitSet(config) && elapsed >= 1 ==> (r.None? <==> ToNumber(config.maxRecordLength).None?)
      ensures LimitSet(config) && elapsed >= 1 && r.Some? ==>
                r.value + elapsed == ToNumber(config.maxRecordLength).value
                && (r.value <= 0 <==> LimitReached(config, elapsed))
    {
      CountDownArgument(config, elapsed)
    }

    /** getRecordedTimeAsClock(). */
    function RecordedTimeAsClock(): (r: string)
      reads this
      requires Utils.FourDigitYear(elapsed)
      ensures Utils.ParseClock(r) == Some(elapsed % 3600)
    {
      Media.RecordedTimeAsClock(elapsed)
    }
  }
}
