# screencast media-recorder core, modelled in Dafny

The `media-recorder-rtc` library of screencast has three React hooks that drive a recording session:
- `useVideoRecorder` records the camera and microphone;
- `useScreenRecorder` records the screen together with the microphone;
- `useVoiceRecorder` records the microphone.

The library also has two pure helpers: the `mm:ss` clock formatter and the video-resolution table with its picker options.

The model has these modules, one per source file, plus two shared ones:
- `Js` (js.dfy): the part of JavaScript's semantics the library relies on. That is truthiness, ToNumber and `isNaN`, `${n}`, and `parseInt` with the round trip between the last two.
- `Utils` (utils.dfy): `formatTimeAsClock`, written as arithmetic on the seconds and proved equal to the ISO-8601 slice it takes.
- `VideoResolution` (video_resolution.dfy): the resolution table, `getLabel`, `parseOption` and `options`.
- `Media` (media.dfy): what the hooks share:
  - tracks and streams, and stopping a stream's tracks;
  - RecordRTC as a four-state recorder;
  - merging the configuration with the defaults;
  - the elapsed-time effect's alert and stop conditions;
  - the countdown argument and the clock.
- `VideoRecorder`, `ScreenRecorder` and `VoiceRecorder` (use_*.dfy): one module per hook. Each holds:
  - a state datatype with one field per piece of React state and per ref;
  - a step function per hook function;
  - an operation type and `Run`, for properties over every sequence of calls;
  - a class (`VideoSession`, `ScreenSession`, `VoiceSession`) with the same fields. Its methods update the fields in place, and each method's contract ties the new state to the step function.

How the environment is modelled:
- Anything the browser or RecordRTC decides is a parameter of the step:
  - whether permission is granted;
  - the stream `getUserMedia` or `getDisplayMedia` resolves with, or `None` when the promise rejects;
  - whether the preview `<video>` element is mounted;
  - the blob and url of a finished recording.
- One `Tick` is one firing of the one-second interval, followed by the effect on `recordedTimeInSecond`. `Effect` runs the effect alone, as React does after any render in which the elapsed seconds changed.
- RecordRTC's stop callback runs as soon as the code that asked for the stop has finished. In `stopRecording` that is immediately.
- In `reset`, the callback runs after `reset` completes, because JavaScript runs code to completion before any callback. By then the recorder reference is null, so the callback throws at `getBlob()` and changes nothing.
- The log records every call of the hook's own `afterStopRecording`. That call forwards its argument to `config.afterStopRecording` exactly when that is a function (`Media.ForwardsToCallback`).

The model follows the code as written, including its quirks:
- A stop on an absent or inactive recorder calls `afterStopRecording` with no data, even with `terminate`.
- The stop-soon flag is cleared only by `startRecording` and by an active stop.
- In the camera hook, `setupStream` binds the recorder before it touches the preview element. So a missing preview fails with a recorder bound.
- The screen hook's `reset` stops nothing. The recording and the interval keep running after it, and the auto-stop then finds no recorder.
- The voice hook never stops the microphone's tracks and never drops its stream.
- Two behaviours a reader might not expect:
  - a stop without a stream still calls `afterStopRecording`, with no argument;
  - a new `setupStream` does not release the stream held before.

RecordRTC's source is not part of this model. The recorder is assumed to behave as its documented state machine:
- `startRecording` makes it record;
- `pauseRecording` acts only while it records;
- `resumeRecording` acts only while it is paused;
- `stopRecording` leaves it `stopped`.

A recorder in the `stopped` state is not `inactive`, so a second stop takes the active branch again.

RecordRTC is also assumed to run the stop callback on every `stopRecording` that takes the active branch. That includes a second stop of a recorder already in the `stopped` state, which the model logs as a second `Data` call.

## Model

| member | source | states |
|---|---|---|
| Utils.FormatTimeAsClock | src/js/lib/media-recorder-rtc/utils.js:1-3 | a number gives five characters with ':' at index 2; any other value gives exactly "00:00" |
| Utils.IsoSlice | src/js/lib/media-recorder-rtc/utils.js:2 | for an instant with a four-digit year, the arithmetic clock equals characters 14 to 19 of the ISO-8601 string |
| Utils.MinuteOfHour | src/js/lib/media-recorder-rtc/utils.js:2 | the minute field of the ISO string, the whole minutes modulo 60, is the minute within the hour |
| Utils.ClockRoundTrip | src/js/lib/media-recorder-rtc/utils.js:2 | the clock of t is two digit pairs below 60 around a colon, and reads back as mm*60+ss == t mod 3600 |
| Utils.ClockOfParsed | src/js/lib/media-recorder-rtc/utils.js:2 | conversely, a well-formed clock is the clock of every instant whose remainder modulo an hour it shows |
| Utils.HoursDropped | src/js/lib/media-recorder-rtc/utils.js:2 | hours are dropped: f(t + 3600) == f(t) |
| Utils.ClockExamples | src/js/lib/media-recorder-rtc/utils.js:2 | f(0) is "00:00", f(65) is "01:05", f(3600) is "00:00", f(-5) is "59:55" (floor remainder before 1970), f("65") is "00:00" |
| Js.ParseIntOfNatToString | src/js/lib/media-recorder-rtc/video-resolution.js:22 | parseInt of the decimal text of a number gives the number back |
| Js.IntToStringInjective | src/js/lib/media-recorder-rtc/use-video-recorder.js:80 | `${n}` is injective on integers |
| Js.LeadingDigitsOfPrefix | src/js/lib/media-recorder-rtc/video-resolution.js:22 | parseInt's digit prefix ends at the first non-digit |
| VideoResolution.KeyHeightsSorted | src/js/lib/media-recorder-rtc/video-resolution.js:1-9 | the seven numeric keys, in ascending order, are keys of the table |
| VideoResolution.ListedIffFound | src/js/lib/media-recorder-rtc/video-resolution.js:25 | a string is listed by Object.keys iff looking it up finds an entry |
| VideoResolution.FoundIsListed | src/js/lib/media-recorder-rtc/video-resolution.js:25 | a string that finds an entry is listed by Object.keys |
| VideoResolution.ObjectKeysEnumerateTable | src/js/lib/media-recorder-rtc/video-resolution.js:25 | Object.keys lists the seven table keys once each in ascending order; a string names an entry iff it is one of them; each parses back to its number |
| VideoResolution.LookupOfNatToString | src/js/lib/media-recorder-rtc/video-resolution.js:1-9 | looking up the text of a number finds that number's entry, if any |
| VideoResolution.LookupOfIntToString | src/js/lib/media-recorder-rtc/video-resolution.js:1-9 | `${n}` names an entry iff n is a key of the table |
| VideoResolution.GetLabelHead | src/js/lib/media-recorder-rtc/video-resolution.js:11-14 | a label is the height's text followed by "p"; parseInt reads the height back; a space after the "p" iff the hdKey is shown, a colon otherwise |
| VideoResolution.GetLabelTail | src/js/lib/media-recorder-rtc/video-resolution.js:13 | a label ends with ": <width>x<height>" |
| VideoResolution.LabelsUseEntryHeight | src/js/lib/media-recorder-rtc/video-resolution.js:2-13 | every key other than 7680 equals its entry's height, so its label starts with the key; the 8K entry under 7680 has height 4320 |
| VideoResolution.EightKLabel | src/js/lib/media-recorder-rtc/video-resolution.js:8-13 | the 8K entry is labelled "4320p (8K): 7680x4320", its height first and its hdKey in parentheses |
| VideoResolution.EntriesAreLandscape | src/js/lib/media-recorder-rtc/video-resolution.js:2-8 | no entry is taller than it is wide |
| VideoResolution.ParseOptionUnknownKey | src/js/lib/media-recorder-rtc/video-resolution.js:16-22 | a key gives the sentinel { value: '', label: '' } exactly when `Object.keys(resolutions)` does not list it |
| VideoResolution.ParseOptionOfKey | src/js/lib/media-recorder-rtc/video-resolution.js:22 | a table key gives value parseInt(key) == the key and the label of its entry |
| VideoResolution.ReverseCons | src/js/lib/media-recorder-rtc/video-resolution.js:25 | reversing a non-empty list puts its first element behind the reversed rest |
| VideoResolution.ReversePermutes | src/js/lib/media-recorder-rtc/video-resolution.js:25 | reverse keeps every element with its multiplicity |
| VideoResolution.ReverseInvolutive | src/js/lib/media-recorder-rtc/video-resolution.js:25 | reversing twice gives the list back |
| VideoResolution.OptionsOfKeys | src/js/lib/media-recorder-rtc/video-resolution.js:18-25 | reversing the parsed texts of table keys gives, at position i, the option of the i-th key from the end: its number and its entry's label |
| VideoResolution.OptionOfKeyAt | src/js/lib/media-recorder-rtc/video-resolution.js:25 | position i of the reversed parsed list is parseOption of the i-th key from the end |
| VideoResolution.OptionsAreReversedTable | src/js/lib/media-recorder-rtc/video-resolution.js:25 | options lists all seven entries back to front, each valued by its key and labelled by its entry |
| VideoResolution.OptionsDescending | src/js/lib/media-recorder-rtc/video-resolution.js:25 | options has 7 entries, table keys in strictly descending order from 7680 to 360, none the sentinel |
| VideoResolution.OptionsCoverTable | src/js/lib/media-recorder-rtc/video-resolution.js:25 | every table key is the value of some option |
| VideoResolution.OptionsLabelled | src/js/lib/media-recorder-rtc/video-resolution.js:22 | every option is labelled by the entry its value names |
| VideoResolution.BuiltFromReversedKeys | src/js/lib/media-recorder-rtc/video-resolution.js:25 | a list built back to front from ascending keys has descending values, each placed at n-1-k |
| Media.StopTracks | src/js/lib/media-recorder-rtc/use-video-recorder.js:172 | `getTracks().forEach(stop)` adds exactly the stream's tracks to the stopped ones |
| Media.ReleaseStream | src/js/lib/media-recorder-rtc/use-video-recorder.js:171-173 | a held stream has exactly its tracks stopped; without one nothing is stopped |
| Media.VideoTracks | src/js/lib/media-recorder-rtc/use-video-recorder.js:120-127 | getVideoTracks() holds exactly the video tracks |
| Media.Mix | src/js/lib/media-recorder-rtc/use-screen-recorder.js:93-96 | the mixed stream is the screen's tracks followed by the microphone's |
| Media.ResumeUndoesPause | src/js/lib/media-recorder-rtc/use-video-recorder.js:208-223 | pausing a recorder that records and resuming it gives it back |
| Media.ResolveConfigOverrides | src/js/lib/media-recorder-rtc/use-video-recorder.js:13 | an object naming every field overrides every default; a non-object, or an object naming none, gives the defaults |
| Media.EffectConditionsLatch | src/js/lib/media-recorder-rtc/use-video-recorder.js:30-43 | once due, the alert and the stop stay due as seconds pass; the stop is never due before the alert while the lead is not negative |
| Media.CountDownArgument | src/js/lib/media-recorder-rtc/use-video-recorder.js:250-261 | the argument is the elapsed seconds when no limit is set or before the first second; from then on it is NaN exactly when the limit is, and otherwise it plus the elapsed seconds is the limit and it is at most 0 exactly when the limit is reached |
| Media.CountDownCountsDown | src/js/lib/media-recorder-rtc/use-video-recorder.js:250-261 | with a numeric limit the countdown shows 0, then max-1, then drops by one per second, and shown + elapsed == max |
| Media.RecordedTimeAsClock | src/js/lib/media-recorder-rtc/use-video-recorder.js:263-265 | the clock of the elapsed seconds is well formed and reads back as the seconds modulo an hour |
| VideoRecorder.DefaultConfig | src/js/lib/media-recorder-rtc/use-video-recorder.js:7-13 | no object gives maxRecordLength null, alertTimeBeforeStop 10, resolution null; an object's field overrides the default |
| VideoRecorder.GetResolutionSelectsEntry | src/js/lib/media-recorder-rtc/use-video-recorder.js:79-84 | getResolution gives the entry of a number that is a table key or of a string that is a key's text, and null for every other value |
| VideoRecorder.GetResolutionOfNumber | src/js/lib/media-recorder-rtc/use-video-recorder.js:79-84 | a number selects its entry when it is a table key and nothing otherwise (0 is falsy, negatives and other numbers are not keys) |
| VideoRecorder.GetResolutionOfString | src/js/lib/media-recorder-rtc/use-video-recorder.js:79-84 | a string selects the entry it names, and the empty string nothing |
| VideoRecorder.GetResolutionOfOther | src/js/lib/media-recorder-rtc/use-video-recorder.js:79-84 | in this model, undefined, null, booleans and objects select nothing |
| VideoRecorder.RunKeepsInv | src/js/lib/media-recorder-rtc/use-video-recorder.js:86-199 | over any run, a bound recorder records the bound stream and isRecording implies a bound recorder, so the stop callback always finds the stream |
| VideoRecorder.StepKeepsInv | src/js/lib/media-recorder-rtc/use-video-recorder.js:86-199 | every operation keeps that invariant |
| VideoRecorder.RunMonotone | src/js/lib/media-recorder-rtc/use-video-recorder.js:63-284 | over any run, permission denial is sticky, stopped tracks stay stopped and the log of afterStopRecording calls only grows, by at most one per step |
| VideoRecorder.StepMonotone | src/js/lib/media-recorder-rtc/use-video-recorder.js:63-284 | the same for one operation |
| VideoRecorder.StopSoonChanges | src/js/lib/media-recorder-rtc/use-video-recorder.js:23-199 | only the effect raises the stop-soon flag; only start and an active stop lower it; reset keeps it |
| VideoRecorder.StartSpec | src/js/lib/media-recorder-rtc/use-video-recorder.js:145-158 | start fails and changes nothing iff no recorder is bound; otherwise the bound recorder records, with 0 seconds, stop-soon off, recording and timer on, and every other field is kept, including the previous blob, url, stream, preview, paused flag and denial |
| VideoRecorder.SetupStreamSpec | src/js/lib/media-recorder-rtc/use-video-recorder.js:86-142 | setup succeeds iff the stream arrives and the preview is mounted; a missing preview fails with the new recorder bound; any failure clears isRecording |
| VideoRecorder.PauseResumeRoundTrip | src/js/lib/media-recorder-rtc/use-video-recorder.js:202-230 | pause keeps the seconds, sets paused and stops the timer; resume after pause gives the session back; a second pause changes nothing |
| VideoRecorder.PauseWhileNotRecording | src/js/lib/media-recorder-rtc/use-video-recorder.js:217-230 | with a recorder bound but no recording in progress, pause reports true and changes nothing |
| VideoRecorder.ResumeIgnoresPaused | src/js/lib/media-recorder-rtc/use-video-recorder.js:202-214 | with a recorder bound, resume reports true and sets recording, clears paused and starts the timer whether or not the session was paused; the recorder moves to recording only from paused |
| VideoRecorder.PauseResumeWithoutRecorder | src/js/lib/media-recorder-rtc/use-video-recorder.js:202-219 | without a recorder both report false and change nothing |
| VideoRecorder.StopSpec | src/js/lib/media-recorder-rtc/use-video-recorder.js:161-199 | a call is logged iff the recorder is absent or inactive (no data, even when terminating, seconds zeroed) or the stop does not terminate (blob and url, seconds kept) |
| VideoRecorder.ResetSpec | src/js/lib/media-recorder-rtc/use-video-recorder.js:267-284 | reset ends not recording at 0 s without blob, url, recorder or stream, with the stream's tracks stopped; it keeps denial and stop-soon |
| VideoRecorder.TicksBeforeLimit | src/js/lib/media-recorder-rtc/use-video-recorder.js:30-43 | below the limit each tick adds one second, and the stop-soon flag latches once max - elapsed <= alert |
| VideoRecorder.EarlyTick | src/js/lib/media-recorder-rtc/use-video-recorder.js:30-43 | a tick below the limit adds one second and latches the stop-soon flag once max - elapsed <= alert, and does nothing else |
| VideoRecorder.LimitEffect | src/js/lib/media-recorder-rtc/use-video-recorder.js:30-43 | the effect at the limit latches the stop-soon flag when the alert lead is not negative, then stops |
| VideoRecorder.LimitTick | src/js/lib/media-recorder-rtc/use-video-recorder.js:30-43 | the tick that reaches the limit is one stop of the session at the limit |
| VideoRecorder.TicksToLimit | src/js/lib/media-recorder-rtc/use-video-recorder.js:30-43 | ticking from e seconds up to the limit ends in a single stop of the session at the limit, stop-soon latched |
| VideoRecorder.AutoStopAtLimit | src/js/lib/media-recorder-rtc/use-video-recorder.js:30-43 | at the limit the effect stops the recording by itself: one {blob,url} call, tracks stopped, timer off |
| VideoRecorder.VideoSession.constructor | src/js/lib/media-recorder-rtc/use-video-recorder.js:6-28 | merged configuration; initial state |
| VideoRecorder.VideoSession.RequestPermission | src/js/lib/media-recorder-rtc/use-video-recorder.js:63-77 | new state and result are those of the requestPermission step |
| VideoRecorder.VideoSession.SetupStream | src/js/lib/media-recorder-rtc/use-video-recorder.js:86-142 | new state and result are those of the setupStream step |
| VideoRecorder.VideoSession.StartRecording | src/js/lib/media-recorder-rtc/use-video-recorder.js:145-158 | new state and result are those of the start step |
| VideoRecorder.VideoSession.PauseRecording | src/js/lib/media-recorder-rtc/use-video-recorder.js:217-230 | new state and result are those of the pause step |
| VideoRecorder.VideoSession.ResumeRecording | src/js/lib/media-recorder-rtc/use-video-recorder.js:202-214 | new state and result are those of the resume step |
| VideoRecorder.VideoSession.RequestStop | src/js/lib/media-recorder-rtc/use-video-recorder.js:161-182 | the synchronous part of stopRecording; reports whether a callback is pending |
| VideoRecorder.VideoSession.Discard | src/js/lib/media-recorder-rtc/use-video-recorder.js:170-181 | the inactive branch: the stream's tracks stopped, recorder dropped, 0 s, not recording, one call without data |
| VideoRecorder.VideoSession.OnStopped | src/js/lib/media-recorder-rtc/use-video-recorder.js:184-198 | the stop callback's state change |
| VideoRecorder.VideoSession.Publish | src/js/lib/media-recorder-rtc/use-video-recorder.js:189-196 | stop-soon off, blob and url kept, not recording, one call with them unless terminating |
| VideoRecorder.VideoSession.StopRecording | src/js/lib/media-recorder-rtc/use-video-recorder.js:161-199 | new state is that of the stop step |
| VideoRecorder.VideoSession.RunElapsedEffect | src/js/lib/media-recorder-rtc/use-video-recorder.js:30-43 | new state is that of the effect |
| VideoRecorder.VideoSession.Tick | src/js/lib/media-recorder-rtc/use-video-recorder.js:238-244 | one more second, then the effect |
| VideoRecorder.VideoSession.Reset | src/js/lib/media-recorder-rtc/use-video-recorder.js:267-284 | new state is that of the reset step |
| VideoRecorder.VideoSession.ClearResult | src/js/lib/media-recorder-rtc/use-video-recorder.js:280-283 | not recording, 0 s, no blob, empty url; nothing else changes |
| VideoRecorder.VideoSession.CountDown | src/js/lib/media-recorder-rtc/use-video-recorder.js:250-261 | the elapsed seconds without a limit or before the first second; then NaN exactly when the limit is, and otherwise the seconds left, which with the elapsed ones make the limit and reach 0 or below exactly when the limit is reached |
| VideoRecorder.VideoSession.RecordedTimeAsClock | src/js/lib/media-recorder-rtc/use-video-recorder.js:263-265 | the clock reads back as the elapsed seconds modulo an hour |
| ScreenRecorder.DefaultConfig | src/js/lib/media-recorder-rtc/use-screen-recorder.js:6-11 | no object gives maxRecordLength null and alertTimeBeforeStop 10 |
| ScreenRecorder.RequestPermissionSpec | src/js/lib/media-recorder-rtc/use-screen-recorder.js:62-78 | the result is the grant; a refusal sets the denial flag, a grant changes nothing |
| ScreenRecorder.SetupStreamSpec | src/js/lib/media-recorder-rtc/use-screen-recorder.js:80-131 | success iff both streams arrive, the preview is mounted and the screen has a video track; the recorder records screen then microphone tracks; the first video track gets the stop handler; failure clears isRecording |
| ScreenRecorder.StartSpec | src/js/lib/media-recorder-rtc/use-screen-recorder.js:134-147 | start fails and changes nothing iff no recorder is bound; otherwise the bound recorder records, with 0 seconds, stop-soon off, recording and timer on, and every other field is kept, including the previous blob, url, streams, ended handlers and denial |
| ScreenRecorder.StopSpec | src/js/lib/media-recorder-rtc/use-screen-recorder.js:150-185 | every stop logs exactly one call (no data when inactive, at 0 s; blob and url when active, seconds kept) and stops both streams' tracks |
| ScreenRecorder.TrackEndedStops | src/js/lib/media-recorder-rtc/use-screen-recorder.js:121 | the end of the screen's video track is a stopRecording; during a recording it hands over the blob and url |
| ScreenRecorder.ResetSpec | src/js/lib/media-recorder-rtc/use-screen-recorder.js:222-231 | reset clears refs and displayed values only: nothing stopped, nothing logged, timer and stop-soon kept |
| ScreenRecorder.ResetLeavesTimerToStopWithoutData | src/js/lib/media-recorder-rtc/use-screen-recorder.js:222-231 | after a reset during a recording with a positive limit m, the interval keeps running; m ticks later the auto-stop finds no recorder, logs one call without data, delivers no blob, stops no track and turns the timer off |
| ScreenRecorder.RunKeepsInv | src/js/lib/media-recorder-rtc/use-screen-recorder.js:80-185 | over any run, a bound recorder comes with both streams and isRecording implies a recorder |
| ScreenRecorder.StepKeepsInv | src/js/lib/media-recorder-rtc/use-screen-recorder.js:80-185 | every operation keeps that invariant |
| ScreenRecorder.RunMonotone | src/js/lib/media-recorder-rtc/use-screen-recorder.js:62-231 | over any run, denial is sticky, stopped tracks stay stopped, the log only grows |
| ScreenRecorder.StepMonotone | src/js/lib/media-recorder-rtc/use-screen-recorder.js:62-231 | the same for one operation |
| ScreenRecorder.TicksBeforeLimit | src/js/lib/media-recorder-rtc/use-screen-recorder.js:28-42 | below the limit each tick adds one second and the stop-soon flag latches |
| ScreenRecorder.EarlyTick | src/js/lib/media-recorder-rtc/use-screen-recorder.js:28-42 | a tick below the limit adds one second and latches the stop-soon flag once max - elapsed <= alert, and does nothing else |
| ScreenRecorder.LimitEffect | src/js/lib/media-recorder-rtc/use-screen-recorder.js:28-42 | the effect at the limit latches the stop-soon flag when the alert lead is not negative, then stops |
| ScreenRecorder.LimitTick | src/js/lib/media-recorder-rtc/use-screen-recorder.js:28-42 | the tick that reaches the limit is one stop of the session at the limit |
| ScreenRecorder.TicksToLimit | src/js/lib/media-recorder-rtc/use-screen-recorder.js:28-42 | ticking from e seconds up to the limit ends in a single stop of the session at the limit, stop-soon latched |
| ScreenRecorder.AutoStopAtLimit | src/js/lib/media-recorder-rtc/use-screen-recorder.js:28-42 | at the limit the recording is handed over once and both streams' tracks are stopped |
| ScreenRecorder.ScreenSession.constructor | src/js/lib/media-recorder-rtc/use-screen-recorder.js:5-26 | merged configuration; initial state |
| ScreenRecorder.ScreenSession.RequestPermission | src/js/lib/media-recorder-rtc/use-screen-recorder.js:62-78 | new state and result are those of the requestPermission step |
| ScreenRecorder.ScreenSession.SetupStream | src/js/lib/media-recorder-rtc/use-screen-recorder.js:80-131 | new state and result are those of the setupStream step |
| ScreenRecorder.ScreenSession.AttachPreview | src/js/lib/media-recorder-rtc/use-screen-recorder.js:106-123 | new state and result are those of the preview part of setupStream |
| ScreenRecorder.ScreenSession.StartRecording | src/js/lib/media-recorder-rtc/use-screen-recorder.js:134-147 | new state and result are those of the start step |
| ScreenRecorder.ScreenSession.RequestStop | src/js/lib/media-recorder-rtc/use-screen-recorder.js:150-171 | the synchronous part of stopRecording |
| ScreenRecorder.ScreenSession.Discard | src/js/lib/media-recorder-rtc/use-screen-recorder.js:155-170 | the inactive branch: both streams' tracks stopped, recorder dropped, 0 s, not recording, one call without data |
| ScreenRecorder.ScreenSession.OnStopped | src/js/lib/media-recorder-rtc/use-screen-recorder.js:173-184 | the stop callback's state change |
| ScreenRecorder.ScreenSession.Publish | src/js/lib/media-recorder-rtc/use-screen-recorder.js:179-183 | stop-soon off, blob and url kept, not recording, one call with them |
| ScreenRecorder.ScreenSession.StopRecording | src/js/lib/media-recorder-rtc/use-screen-recorder.js:150-185 | new state is that of the stop step |
| ScreenRecorder.ScreenSession.TrackEnded | src/js/lib/media-recorder-rtc/use-screen-recorder.js:121 | new state is that of the track-ended step |
| ScreenRecorder.ScreenSession.RunElapsedEffect | src/js/lib/media-recorder-rtc/use-screen-recorder.js:28-42 | new state is that of the effect |
| ScreenRecorder.ScreenSession.Tick | src/js/lib/media-recorder-rtc/use-screen-recorder.js:193-199 | one more second, then the effect |
| ScreenRecorder.ScreenSession.Reset | src/js/lib/media-recorder-rtc/use-screen-recorder.js:222-231 | new state is that of the reset step |
| ScreenRecorder.ScreenSession.ClearResult | src/js/lib/media-recorder-rtc/use-screen-recorder.js:227-230 | not recording, 0 s, no blob, empty url; nothing else changes |
| ScreenRecorder.ScreenSession.CountDown | src/js/lib/media-recorder-rtc/use-screen-recorder.js:205-216 | the elapsed seconds without a limit or before the first second; then NaN exactly when the limit is, and otherwise the seconds left, which with the elapsed ones make the limit and reach 0 or below exactly when the limit is reached |
| ScreenRecorder.ScreenSession.RecordedTimeAsClock | src/js/lib/media-recorder-rtc/use-screen-recorder.js:218-220 | the clock reads back as the elapsed seconds modulo an hour |
| VoiceRecorder.DefaultConfig | src/js/lib/media-recorder-rtc/use-voice-recorder.js:6-11 | no object gives maxRecordLength null and alertTimeBeforeStop 10 |
| VoiceRecorder.RequestPermissionSpec | src/js/lib/media-recorder-rtc/use-voice-recorder.js:60-73 | the result is the grant; a refusal sets the denial flag, a grant changes nothing |
| VoiceRecorder.StartSpec | src/js/lib/media-recorder-rtc/use-voice-recorder.js:105-120 | start reports false iff neither this setup nor an earlier one left a recorder; a failed setup with an earlier recorder starts that one |
| VoiceRecorder.PauseResumeRoundTrip | src/js/lib/media-recorder-rtc/use-voice-recorder.js:158-185 | pause keeps the seconds; resume after pause gives the session back |
| VoiceRecorder.PauseResumeWithoutRecorder | src/js/lib/media-recorder-rtc/use-voice-recorder.js:158-185 | without a recorder both report false and change nothing |
| VoiceRecorder.PauseWhileNotRecording | src/js/lib/media-recorder-rtc/use-voice-recorder.js:172-185 | with a recorder bound but no recording in progress, pause reports true and changes nothing |
| VoiceRecorder.ResumeIgnoresPaused | src/js/lib/media-recorder-rtc/use-voice-recorder.js:158-169 | with a recorder bound, resume reports true and sets recording, clears paused and starts the timer whether or not the session was paused; the recorder moves to recording only from paused |
| VoiceRecorder.StopSpec | src/js/lib/media-recorder-rtc/use-voice-recorder.js:123-155 | a call is logged iff the recorder is absent or inactive (no data, 0 s) or the stop does not terminate (blob and url, seconds kept); the stream is kept |
| VoiceRecorder.ResetSpec | src/js/lib/media-recorder-rtc/use-voice-recorder.js:221-233 | reset ends not recording at 0 s without blob, url or recorder, stream kept; a paused session is not stopped and stays paused |
| VoiceRecorder.RunKeeps | src/js/lib/media-recorder-rtc/use-voice-recorder.js:75-233 | over any run no track is stopped, a held stream is never dropped, denial is sticky, the log only grows and the invariant holds |
| VoiceRecorder.StepKeeps | src/js/lib/media-recorder-rtc/use-voice-recorder.js:75-233 | one operation stops no track, keeps a held stream, keeps the denial and only extends the log |
| VoiceRecorder.StepKeepsInv | src/js/lib/media-recorder-rtc/use-voice-recorder.js:75-233 | every operation keeps the invariant that isRecording implies a recorder |
| VoiceRecorder.TicksBeforeLimit | src/js/lib/media-recorder-rtc/use-voice-recorder.js:27-40 | below the limit each tick adds one second and the stop-soon flag latches |
| VoiceRecorder.EarlyTick | src/js/lib/media-recorder-rtc/use-voice-recorder.js:27-40 | a tick below the limit adds one second and latches the stop-soon flag once max - elapsed <= alert, and does nothing else |
| VoiceRecorder.LimitEffect | src/js/lib/media-recorder-rtc/use-voice-recorder.js:27-40 | the effect at the limit latches the stop-soon flag when the alert lead is not negative, then stops |
| VoiceRecorder.LimitTick | src/js/lib/media-recorder-rtc/use-voice-recorder.js:27-40 | the tick that reaches the limit is one stop of the session at the limit |
| VoiceRecorder.TicksToLimit | src/js/lib/media-recorder-rtc/use-voice-recorder.js:27-40 | ticking from e seconds up to the limit ends in a single stop of the session at the limit, stop-soon latched |
| VoiceRecorder.AutoStopAtLimit | src/js/lib/media-recorder-rtc/use-voice-recorder.js:27-40 | at the limit the recording is handed over once; no track is stopped |
| VoiceRecorder.VoiceSession.constructor | src/js/lib/media-recorder-rtc/use-voice-recorder.js:5-25 | merged configuration; initial state |
| VoiceRecorder.VoiceSession.RequestPermission | src/js/lib/media-recorder-rtc/use-voice-recorder.js:60-73 | new state and result are those of the requestPermission step |
| VoiceRecorder.VoiceSession.SetupStream | src/js/lib/media-recorder-rtc/use-voice-recorder.js:75-102 | new state and result are those of the setupStream step |
| VoiceRecorder.VoiceSession.StartRecording | src/js/lib/media-recorder-rtc/use-voice-recorder.js:105-120 | new state and result are those of the start step |
| VoiceRecorder.VoiceSession.PauseRecording | src/js/lib/media-recorder-rtc/use-voice-recorder.js:172-185 | new state and result are those of the pause step |
| VoiceRecorder.VoiceSession.ResumeRecording | src/js/lib/media-recorder-rtc/use-voice-recorder.js:158-169 | new state and result are those of the resume step |
| VoiceRecorder.VoiceSession.RequestStop | src/js/lib/media-recorder-rtc/use-voice-recorder.js:123-140 | the synchronous part of stopRecording |
| VoiceRecorder.VoiceSession.Discard | src/js/lib/media-recorder-rtc/use-voice-recorder.js:132-139 | the inactive branch: recorder dropped, 0 s, not recording, one call without data |
| VoiceRecorder.VoiceSession.OnStopped | src/js/lib/media-recorder-rtc/use-voice-recorder.js:142-154 | the stop callback's state change |
| VoiceRecorder.VoiceSession.StopRecording | src/js/lib/media-recorder-rtc/use-voice-recorder.js:123-155 | new state is that of the stop step |
| VoiceRecorder.VoiceSession.RunElapsedEffect | src/js/lib/media-recorder-rtc/use-voice-recorder.js:27-40 | new state is that of the effect |
| VoiceRecorder.VoiceSession.Tick | src/js/lib/media-recorder-rtc/use-voice-recorder.js:193-199 | one more second, then the effect |
| VoiceRecorder.VoiceSession.Reset | src/js/lib/media-recorder-rtc/use-voice-recorder.js:221-233 | new state is that of the reset step |
| VoiceRecorder.VoiceSession.ClearResult | src/js/lib/media-recorder-rtc/use-voice-recorder.js:229-232 | not recording, 0 s, no blob, empty url; nothing else changes |
| VoiceRecorder.VoiceSession.CountDown | src/js/lib/media-recorder-rtc/use-voice-recorder.js:205-215 | the elapsed seconds without a limit or before the first second; then NaN exactly when the limit is, and otherwise the seconds left, which with the elapsed ones make the limit and reach 0 or below exactly when the limit is reached |
| VoiceRecorder.VoiceSession.RecordedTimeAsClock | src/js/lib/media-recorder-rtc/use-voice-recorder.js:217-219 | the clock reads back as the elapsed seconds modulo an hour |

## Left out

- `hasPermission` in all three hooks. It only wraps `navigator.permissions.query` and touches no hook state.
- Media constraints (echo cancellation, noise suppression, facing mode, the ideal width and height taken from `getResolution`), mime types and codecs. They shape what the browser records, not the session's state. `getResolution` itself is modelled.
- The preview `<video>` element's removal of tracks and its `play()` call. Only the stopping of the preview's video tracks, and the failure when no element is mounted, are modelled.
- `formatSecondsAsCountdown` is called by `getCountDown` but defined nowhere, so it is not part of this model. Only the number `getCountDown` would pass to it is modelled (`CountDownArgument`).
- formatTimeAsClock: NaN (a RangeError in the source), fractional seconds, and instants outside the four-digit-year range are not modelled. Outside that range `toISOString` writes an expanded year and the slice shifts. JavaScript numbers are integers here throughout.
- Real time and scheduling. The interval is one `Tick` at a time, and React batching is taken as direct assignment.
- Only one interval is tracked (`timerOn`). A second interval started by `resumeRecording` or `startRecording` while one runs is not modelled. Neither is the fact that, after `reset` drops the interval reference, a later `stopTimer` cannot clear it.
- Async interleavings other than the two callback orders described above: a `setupStream` resolving late, and a stop callback that finds a later session.
- JavaScript details: property names inherited from Object.prototype, and parseInt's acceptance of white space, signs and hex prefixes.
- Js.ToNumber: objects, including arrays, and strings other than plain digit runs are taken as NaN. In JavaScript "-3", " 30", "3e1" and "0x1E" are numbers, so a `maxRecordLength` or `alertTimeBeforeStop` given as such a string behaves differently; an empty array converts to 0 and a one-element array to its element.
- VideoRecorder.GetResolutionOfOther: an array is an object here, so it selects nothing. In JavaScript `resolution: [720]` or `["720"]` passes the `isNaN` test and `${…}` gives "720", so `getResolution` returns the 720 entry.
- The camera hook's preview element is assumed never to be re-created. When `setupStream` finds no element mounted the model keeps the previous `srcObject`, so a later setup with a mounted element stops the video tracks of that stream; a re-created element would have a null `srcObject`.
- Media.VideoTracks: states which tracks `getVideoTracks()` yields, not their order.
- src/js/apps/screen-cast/App.jsx (UI composition), src/js/apps/demo/index.jsx (React bootstrap) and vite.config.js (build configuration) are not part of this model.
