# Audio recorder plugin controller, in Dafny

A model of the Android side of the `audio_recorder` Flutter plugin: the controller class
`AudioRecorderPlugin`, which answers the method-channel calls `start`, `stop`,
`isRecording`, `requestPermissions` and `hasPermissions`, and receives the OS callback
`onRequestPermissionsResult`.

The controller is an immutable record, `PluginState.Plugin`, holding the class's fields:
- `isRecording`;
- the `MediaRecorder` it holds, as `Option<RecorderConfig>` (output format and output file);
- `mFilePath`, `startTime` and `mExtension`;
- the pending slot `mMethodCall`/`mPendingResult`.

Each event is a pure function that returns the new record and the reply. A call that
parks its caller, or drops it, has no reply. What the Java code reads from the platform is
an `Env` argument: the clock in milliseconds, whether a foreground activity exists,
whether RECORD_AUDIO is granted, and the external storage directory. Replies are the
`Reply` datatype (`Success` with a payload, `Error`, `NotImplemented`). An answer delivered
later to a parked caller is an `Answer` naming that caller.

Modules:
- `Wrappers`: the `Option` type.
- `Decimal`: `String.valueOf(long)` and a parser that undoes it.
- `PluginState`: fields, calls, replies, constants.
- `Recording`: `start`, `stop`, `isRecording`, `stopRecording`, `getOutputFormatFromString`.
- `Permissions`: `requestPermissions`, `hasPermissions`, the pending-slot helpers and
  `onRequestPermissionsResult`.
- `Dispatch`: `onMethodCall`.
- `Traces`: sequences of events, and what holds in every reachable state.

## Behaviour kept as the code has it

The code does not enforce several rules one might expect of a recorder controller. The
model keeps the code's behaviour:
- `start` while recording is not refused. Path, extension, start time and recorder are
  overwritten. The old recorder is never released.
- `stop` does not check `isRecording`. Before any `start` it dereferences a null
  `startTime`, so `Recording.Stop` requires a start time, and `Traces.Apply` has no
  next state for that event. After an earlier `start`, a repeated `stop` reports the last
  session again, with the duration measured from its start.
- An `IOException` from `prepare()` is caught and only logged. What the unprepared
  recorder's `start()` does next is device behaviour, outside the model.
- Permission results are matched by the fixed request code 2366, not by a per-request
  token. A second `requestPermissions` while one is parked still triggers the OS prompt,
  but its caller is never answered.
- Nothing empties the pending slot except a result carrying code 2366.

## Model

| member | source | states |
|---|---|---|
| Decimal.LongToString | android/src/main/java/com/jordanalcaraz/audiorecorder/audiorecorder/AudioRecorderPlugin.java:67 | the file-name stem is a non-empty decimal numeral, with a leading '-' exactly for negative times, in Java's form: no leading zero and no "-0" |
| Decimal.CanonicalLongUnique | android/src/main/java/com/jordanalcaraz/audiorecorder/audiorecorder/AudioRecorderPlugin.java:67 | the only string in Java's form that parses to a number is that number's rendering |
| Decimal.LongRoundTrip | android/src/main/java/com/jordanalcaraz/audiorecorder/audiorecorder/AudioRecorderPlugin.java:67 | parsing the stem gives back the start time, so the stem determines the time |
| Recording.WrapLong | android/src/main/java/com/jordanalcaraz/audiorecorder/audiorecorder/AudioRecorderPlugin.java:78 | Java `long` arithmetic: the result agrees with the exact value modulo 2^64 and equals it when that value fits in a long |
| Recording.Duration | android/src/main/java/com/jordanalcaraz/audiorecorder/audiorecorder/AudioRecorderPlugin.java:78 | for non-negative clock readings the duration is exactly stop time minus start time, and it is non-negative when the clock did not go back |
| Recording.DurationWraps | android/src/main/java/com/jordanalcaraz/audiorecorder/audiorecorder/AudioRecorderPlugin.java:78 | the `long` subtraction does wrap for readings far enough apart |
| Recording.OutputFormatFromString | android/src/main/java/com/jordanalcaraz/audiorecorder/audiorecorder/AudioRecorderPlugin.java:161-170 | every extension, recognised or not, selects MPEG_4 |
| Recording.DefaultPathDecodes | android/src/main/java/com/jordanalcaraz/audiorecorder/audiorecorder/AudioRecorderPlugin.java:66-69 | a synthesized path lies in the storage directory, ends with the extension, and its stem is the start millis in Java's decimal form |
| Recording.DefaultPathInjective | android/src/main/java/com/jordanalcaraz/audiorecorder/audiorecorder/AudioRecorderPlugin.java:66-69 | recordings started at different milliseconds get different default paths |
| Recording.NamesStartTimeExactly | android/src/main/java/com/jordanalcaraz/audiorecorder/audiorecorder/AudioRecorderPlugin.java:66-69 | a path in the storage directory, with the extension, whose stem is a Java-form numeral of the start millis, is exactly the path the code builds |
| Recording.StopRecording | android/src/main/java/com/jordanalcaraz/audiorecorder/audiorecorder/AudioRecorderPlugin.java:152-159 | a recorder is released exactly when one is held; afterwards none is held and nothing else changed |
| Recording.StopRecordingTwice | android/src/main/java/com/jordanalcaraz/audiorecorder/audiorecorder/AudioRecorderPlugin.java:152-159 | a second `stopRecording` releases nothing and changes nothing |
| Recording.Start | android/src/main/java/com/jordanalcaraz/audiorecorder/audiorecorder/AudioRecorderPlugin.java:59-74 | afterwards recording is on, the reply is success with no payload, the start time and extension are the call's, an explicit path is kept verbatim and a missing one names the start time; the recorder writes MPEG_4 to that path; the pending slot is untouched |
| Recording.StartIgnoresEarlierRecording | android/src/main/java/com/jordanalcaraz/audiorecorder/audiorecorder/AudioRecorderPlugin.java:59-74 | `start` has no guard: its outcome depends only on the pending slot, not on an active recording |
| Recording.Stop | android/src/main/java/com/jordanalcaraz/audiorecorder/audiorecorder/AudioRecorderPlugin.java:75-86 | needs a start time; afterwards not recording and no recorder held; the reply carries the stored path and extension and the `long` difference between stop and start times; path, extension, start time and slot are kept |
| Recording.IsRecording | android/src/main/java/com/jordanalcaraz/audiorecorder/audiorecorder/AudioRecorderPlugin.java:87-90 | replies with the recording flag and changes nothing |
| Recording.StartThenStop | android/src/main/java/com/jordanalcaraz/audiorecorder/audiorecorder/AudioRecorderPlugin.java:59-86 | `stop` after `start` reports the path and extension `start` stored and the time between the two calls |
| Recording.StartThenStopDefaultPath | android/src/main/java/com/jordanalcaraz/audiorecorder/audiorecorder/AudioRecorderPlugin.java:61-86 | with no explicit path, the path `stop` reports names the start time under the storage directory with the extension, and the duration is the elapsed time |
| Recording.StopTwice | android/src/main/java/com/jordanalcaraz/audiorecorder/audiorecorder/AudioRecorderPlugin.java:75-86 | a repeated `stop` reports the same path and extension, with the duration counted from the same start |
| Permissions.SetPendingMethodCallAndResult | android/src/main/java/com/jordanalcaraz/audiorecorder/audiorecorder/AudioRecorderPlugin.java:172-182 | returns true exactly when the slot was free; then it holds the new call and caller, otherwise nothing changes |
| Permissions.ClearMethodCallAndResult | android/src/main/java/com/jordanalcaraz/audiorecorder/audiorecorder/AudioRecorderPlugin.java:184-187 | empties both halves of the slot and keeps the recording fields |
| Permissions.FlushRequestPermissionsResult | android/src/main/java/com/jordanalcaraz/audiorecorder/audiorecorder/AudioRecorderPlugin.java:189-195 | a parked `requestPermissions` caller is answered with the value and the slot is emptied; otherwise nothing happens |
| Permissions.FlushTwice | android/src/main/java/com/jordanalcaraz/audiorecorder/audiorecorder/AudioRecorderPlugin.java:189-195 | a second flush answers nobody and changes nothing |
| Permissions.OnRequestPermissionsResult | android/src/main/java/com/jordanalcaraz/audiorecorder/audiorecorder/AudioRecorderPlugin.java:197-212 | returns true exactly for code 2366; other codes change nothing; for 2366 the parked caller, if any, is answered with "results non-empty and the first is GRANTED", and the slot is emptied |
| Permissions.RepeatedResultIsNoOp | android/src/main/java/com/jordanalcaraz/audiorecorder/audiorecorder/AudioRecorderPlugin.java:197-212 | a repeated delivery of code 2366 answers nobody and changes nothing |
| Permissions.RequestPermissions | android/src/main/java/com/jordanalcaraz/audiorecorder/audiorecorder/AudioRecorderPlugin.java:91-108 | no activity: `no_activity` error, nothing changed; already granted: `true`, nothing changed; otherwise the OS prompt is triggered, the call is left unanswered, and the caller is parked only if the slot was free |
| Permissions.HasPermissions | android/src/main/java/com/jordanalcaraz/audiorecorder/audiorecorder/AudioRecorderPlugin.java:109-120 | replies with the permission, or `no_activity` without an activity; changes nothing |
| Permissions.SecondRequestIsDropped | android/src/main/java/com/jordanalcaraz/audiorecorder/audiorecorder/AudioRecorderPlugin.java:99-106 | two requests while not granted both prompt; only the first caller is parked and answered, and a repeat result answers nobody |
| Dispatch.Unknown | android/src/main/java/com/jordanalcaraz/audiorecorder/audiorecorder/AudioRecorderPlugin.java:121-123 | an unknown method is answered "not implemented" and changes nothing |
| Dispatch.OnMethodCall | android/src/main/java/com/jordanalcaraz/audiorecorder/audiorecorder/AudioRecorderPlugin.java:57-125 | `isRecording`, `hasPermissions` and unknown methods leave the state unchanged; only `start`/`stop` touch recording fields; only `requestPermissions` touches the slot or prompts, and only it can leave a call unanswered; the flag is set by `start`, cleared by `stop`, kept otherwise |
| Traces.Apply | android/src/main/java/com/jordanalcaraz/audiorecorder/audiorecorder/AudioRecorderPlugin.java:75-78 | an event has no next state exactly when it is a `stop` with no start time |
| Traces.InitialInv | android/src/main/java/com/jordanalcaraz/audiorecorder/audiorecorder/AudioRecorderPlugin.java:32-40 | the field initialisers satisfy the controller invariant |
| Traces.ApplyPreservesInv | android/src/main/java/com/jordanalcaraz/audiorecorder/audiorecorder/AudioRecorderPlugin.java:57-212 | every call and callback keeps the invariant: slot halves set together and only for `requestPermissions`; recorder held exactly while recording, writing to the current path; start time exactly when a path |
| Traces.RunPreservesInv | android/src/main/java/com/jordanalcaraz/audiorecorder/audiorecorder/AudioRecorderPlugin.java:57-212 | the invariant holds after any trace that starts in it |
| Traces.ResultAnswersParkedCaller | android/src/main/java/com/jordanalcaraz/audiorecorder/audiorecorder/AudioRecorderPlugin.java:189-211 | in any reachable state, a result with code 2366 answers someone exactly when a caller is parked |
| Traces.SlotKeepsFirstCaller | android/src/main/java/com/jordanalcaraz/audiorecorder/audiorecorder/AudioRecorderPlugin.java:172-182 | while a caller is parked, only a code-2366 result can change the slot; a later requester cannot replace it |
| Traces.IsRecordingTracksLastLifecycle | android/src/main/java/com/jordanalcaraz/audiorecorder/audiorecorder/AudioRecorderPlugin.java:72-80 | after any trace, `isRecording` is true exactly when the last `start` was not followed by a `stop` |
| Traces.LastStartDeterminesSession | android/src/main/java/com/jordanalcaraz/audiorecorder/audiorecorder/AudioRecorderPlugin.java:59-69 | path, extension and start time are those given by the most recent `start` |
| Traces.StopReportsLastStart | android/src/main/java/com/jordanalcaraz/audiorecorder/audiorecorder/AudioRecorderPlugin.java:75-86 | a `stop` after a trace with a `start` reports that start's path and extension and the time since it |
| Traces.StartTimeOnceStarted | android/src/main/java/com/jordanalcaraz/audiorecorder/audiorecorder/AudioRecorderPlugin.java:63-78 | once any `start` has run, a start time exists from then on |
| Traces.RunCompletes | android/src/main/java/com/jordanalcaraz/audiorecorder/audiorecorder/AudioRecorderPlugin.java:75-78 | a trace whose every `stop` comes after a `start` runs to completion |

## Left out

- `MediaRecorder` device calls are not modelled: `setAudioSource`, `setAudioEncoder`,
  `prepare`, `start`, `stop`, `reset` and `release`. They are platform I/O. Only the held
  handle and its output format and file are kept, so device exceptions are outside the
  model. That includes `prepare()`'s swallowed `IOException` and the exceptions `start()`
  or `stop()` can throw.
- `ContextCompat.checkSelfPermission`, `ActivityCompat.requestPermissions` and
  `registrar.activity()` are platform calls. They become the `Env` booleans and the
  `prompted` flag of a `Step`.
- `Environment.getExternalStorageDirectory()`, `Calendar`/`Date` clock reads and `Log`
  are platform I/O. The directory and clock arrive in `Env`, and logging is dropped.
- `registerWith` and the constructor are method-channel plumbing, as are
  `call.argument` unmarshalling and `Result` delivery. Calls are `MethodCall` values and
  replies are `Reply`/`Answer` values.
- A missing `extension` argument makes `mExtension` null, and the `switch` in
  `getOutputFormatFromString` then throws. The model takes the extension as a string, so
  this argument-unmarshalling failure is not represented.
- The `permissions` array of `onRequestPermissionsResult` is ignored by the code. The model
  omits it.
- `mFilePath` is static, so two plugin instances would share it. The model has one
  instance.
- Threading and the timing of asynchronous delivery are not modelled. Events are applied
  one at a time in the order given.
