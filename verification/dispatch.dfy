/** `onMethodCall`: dispatch on the method name of an incoming call. */
module Dispatch {
  import opened Wrappers
  import opened PluginState
  import Recording
  import Permissions

  predicate IsKnownMethod(name: string) {
    name in [START, STOP, IS_RECORDING, REQUEST_PERMISSIONS, HAS_PERMISSIONS]
  }

  /** The default branch: answers "not implemented" and changes nothing. */
  function Unknown(s: Plugin): (r: Step)
    ensures r.state == s && r.reply == Some(NotImplemented) && !r.prompted
  {
    Step(s, Some(NotImplemented), false)
  }

  /**
    One incoming call. Only `start` and `stop` change the recording fields, only
    `requestPermissions` touches the pending slot or the OS prompt, and every call except a
    parked or dropped permission request is answered at once. A `stop` needs a start time.
   */
  function OnMethodCall(s: Plugin, call: MethodCall, caller: CallerId, env: Env): (r: Step)
    requires call.name == STOP ==> s.startTime.Some?
    ensures call.name == IS_RECORDING || call.name == HAS_PERMISSIONS || !IsKnownMethod(call.name) ==>
      r.state == s
    ensures !IsKnownMethod(call.name) ==> r.reply == Some(NotImplemented)
    ensures call.name != START && call.name != STOP ==> SameRecording(r.state, s)
    ensures call.name != REQUEST_PERMISSIONS ==> SameSlot(r.state, s) && !r.prompted && r.reply.Some?
    ensures r.reply.None? ==> r.prompted
    ensures r.state.isRecording ==
      if call.name == START then true else if call.name == STOP then false else s.isRecording
  {
    if call.name == START then Recording.Start(s, call.path, call.extension, env)
    else if call.name == STOP then Recording.Stop(s, env)
    else if call.name == IS_RECORDING then Recording.IsRecording(s)
    else if call.name == REQUEST_PERMISSIONS then Permissions.RequestPermissions(s, call, caller, env)
    else if call.name == HAS_PERMISSIONS then Permissions.HasPermissions(s, env)
    else Unknown(s)
  }
}
