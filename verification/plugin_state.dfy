/**
  The data of the Android audio-recorder plugin: the controller's fields, the method calls
  that reach it over the method channel, the replies it sends back, and the facts about the
  outside world (clock, foreground activity, permission, storage directory) that its code
  reads from the platform and that this model takes as inputs instead.
 */
module PluginState {
  import opened Wrappers

  /** Java `long`, the type of `Date.getTime()` and of the reported duration. */
  type Long = x: int | -0x8000_0000_0000_0000 <= x <= 0x7FFF_FFFF_FFFF_FFFF

  const LONG_MIN: int := -0x8000_0000_0000_0000
  const LONG_MAX: int := 0x7FFF_FFFF_FFFF_FFFF

  /** The request code the plugin hands to the OS prompt and expects back. */
  const REQUEST_RECORD_AUDIO_PERMISSION: int := 2366

  /** Android's `PackageManager.PERMISSION_GRANTED`. */
  const PERMISSION_GRANTED: int := 0

  /** Android's `MediaRecorder.OutputFormat.MPEG_4`. */
  const MPEG_4: int := 2

  const NO_ACTIVITY: string := "no_activity"
  const NO_ACTIVITY_MESSAGE: string := "audio_recorder plugin requires a foreground activity."

  const START: string := "start"
  const STOP: string := "stop"
  const IS_RECORDING: string := "isRecording"
  const REQUEST_PERMISSIONS: string := "requestPermissions"
  const HAS_PERMISSIONS: string := "hasPermissions"

  /** The identity of the channel `Result` object through which a call is answered. */
  type CallerId = nat

  /**
    A method call from the Dart side: its method name (`call.method`) and the two arguments `start` reads.
    A missing `path` argument is `None`.
   */
  datatype MethodCall = MethodCall(name: string, path: Option<string>, extension: string)

  /** What the code reads from the platform while handling one call. */
  datatype Env = Env(now: Long, hasActivity: bool, permissionGranted: bool, storageDir: string)

  /** The payload of a successful reply. */
  datatype Value =
    | Null
    | Bool(b: bool)
    | RecordingResult(duration: Long, path: Option<string>, audioOutputFormat: string)

  datatype Reply = Success(value: Value) | Error(code: string, message: string) | NotImplemented

  /** A reply delivered later to a caller whose call was parked in the pending slot. */
  datatype Answer = Answer(caller: CallerId, reply: Reply)

  /** What the plugin configured on the `MediaRecorder` it holds. */
  datatype RecorderConfig = RecorderConfig(outputFormat: int, outputFile: string)

  /**
    The controller's fields. `recorder` is `None` when `mRecorder` is null; `filePath` and
    `startTime` are `None` until the first `start`; the pending slot is the pair
    `pendingCall`/`pendingResult`.
   */
  datatype Plugin = Plugin(
    isRecording: bool,
    recorder: Option<RecorderConfig>,
    filePath: Option<string>,
    startTime: Option<Long>,
    extension: string,
    pendingCall: Option<MethodCall>,
    pendingResult: Option<CallerId>)

  /** The field initialisers of a freshly registered plugin. */
  const Initial: Plugin := Plugin(false, None, None, None, "", None, None)

  /**
    The outcome of one method call: the new fields, the reply sent to the caller during the
    call (`None` when the call is left unanswered), and whether the OS permission prompt was
    triggered.
   */
  datatype Step = Step(state: Plugin, reply: Option<Reply>, prompted: bool)

  /** Every field except the pending slot is the same in both states. */
  predicate SameRecording(a: Plugin, b: Plugin) {
    && a.isRecording == b.isRecording
    && a.recorder == b.recorder
    && a.filePath == b.filePath
    && a.startTime == b.startTime
    && a.extension == b.extension
  }

  /** The pending slot is the same in both states. */
  predicate SameSlot(a: Plugin, b: Plugin) {
    a.pendingCall == b.pendingCall && a.pendingResult == b.pendingResult
  }
}
