/**
  Permission handling: the `requestPermissions` and `hasPermissions` branches of
  `onMethodCall`, the single pending slot (`mMethodCall`/`mPendingResult`) with its helpers
  `setPendingMethodCallAndResult`, `clearMethodCallAndResult` and
  `flushRequestPermissionsResult`, and the OS callback `onRequestPermissionsResult`.
  Whether an activity exists and whether RECORD_AUDIO is granted are inputs.
 */
module Permissions {
  import opened Wrappers
  import opened PluginState

  /**
    `setPendingMethodCallAndResult`: parks the call and its caller in the slot unless a
    caller is already parked, in which case the slot keeps the first one.
   */
  function SetPendingMethodCallAndResult(s: Plugin, call: MethodCall, caller: CallerId): (r: (Plugin, bool))
    ensures r.1 <==> s.pendingResult.None?
    ensures !r.1 ==> r.0 == s
    ensures r.1 ==> r.0.pendingCall == Some(call) && r.0.pendingResult == Some(caller)
    ensures SameRecording(r.0, s)
  {
    if s.pendingResult.Some? then (s, false)
    else (s.(pendingCall := Some(call), pendingResult := Some(caller)), true)
  }

  /** `clearMethodCallAndResult`: empties the slot and nothing else. */
  function ClearMethodCallAndResult(s: Plugin): (r: Plugin)
    ensures r.pendingCall.None? && r.pendingResult.None?
    ensures SameRecording(r, s)
  {
    s.(pendingCall := None, pendingResult := None)
  }

  /** The slot holds a parked `requestPermissions` call that is waiting for its answer. */
  predicate AwaitsPermission(s: Plugin) {
    s.pendingResult.Some? && s.pendingCall.Some? && s.pendingCall.value.name == REQUEST_PERMISSIONS
  }

  /**
    `flushRequestPermissionsResult`: answers the parked `requestPermissions` caller with
    `value` and empties the slot; does nothing when no such caller is parked.
   */
  function FlushRequestPermissionsResult(s: Plugin, value: bool): (r: (Plugin, Option<Answer>))
    ensures AwaitsPermission(s) ==>
      && r.1 == Some(Answer(s.pendingResult.value, Success(Bool(value))))
      && r.0.pendingCall.None? && r.0.pendingResult.None?
    ensures !AwaitsPermission(s) ==> r == (s, None)
    ensures SameRecording(r.0, s)
  {
    if !AwaitsPermission(s) then (s, None)
    else (ClearMethodCallAndResult(s), Some(Answer(s.pendingResult.value, Success(Bool(value)))))
  }

  /** Flushing twice answers at most once. */
  lemma FlushTwice(s: Plugin, v1: bool, v2: bool)
    ensures var first := FlushRequestPermissionsResult(s, v1);
      FlushRequestPermissionsResult(first.0, v2) == (first.0, None)
  {
  }

  /** "Granted" means at least one result and the first one is PERMISSION_GRANTED. */
  predicate PermissionGranted(grantResults: seq<int>) {
    |grantResults| > 0 && grantResults[0] == PERMISSION_GRANTED
  }

  /**
    The result of the OS callback: the new fields, the boolean the listener returns, and
    the answer delivered to a parked caller, if any.
   */
  datatype CallbackStep = CallbackStep(state: Plugin, handled: bool, answer: Option<Answer>)

  /**
    `onRequestPermissionsResult`: a foreign request code is declined and changes nothing;
    the plugin's code 2366 is claimed, and the parked caller, if any, learns whether the
    first grant result is PERMISSION_GRANTED.
   */
  function OnRequestPermissionsResult(s: Plugin, requestCode: int, grantResults: seq<int>): (r: CallbackStep)
    ensures r.handled <==> requestCode == REQUEST_RECORD_AUDIO_PERMISSION
    ensures !r.handled ==> r.state == s && r.answer.None?
    ensures r.answer.Some? <==> r.handled && AwaitsPermission(s)
    ensures r.answer.Some? ==>
      && r.answer.value.caller == s.pendingResult.value
      && r.answer.value.reply == Success(Bool(PermissionGranted(grantResults)))
      && r.state.pendingResult.None? && r.state.pendingCall.None?
    ensures r.answer.None? ==> r.state == s
    ensures SameRecording(r.state, s)
  {
    var permissionGranted := PermissionGranted(grantResults);
    if requestCode == REQUEST_RECORD_AUDIO_PERMISSION then
      var (flushed, answer) := FlushRequestPermissionsResult(s, permissionGranted);
      CallbackStep(flushed, true, answer)
    else
      CallbackStep(s, false, None)
  }

  /** A repeated delivery of the plugin's result answers nobody and changes nothing. */
  lemma RepeatedResultIsNoOp(s: Plugin, g1: seq<int>, g2: seq<int>)
    ensures var first := OnRequestPermissionsResult(s, REQUEST_RECORD_AUDIO_PERMISSION, g1);
      var second := OnRequestPermissionsResult(first.state, REQUEST_RECORD_AUDIO_PERMISSION, g2);
      second.state == first.state && second.answer.None? && second.handled
  {
  }

  /**
    The `requestPermissions` branch. Without an activity it replies `no_activity`; with the
    permission already granted it replies `true`; otherwise it parks the caller if the slot
    is free and triggers the OS prompt either way, leaving the call unanswered for now.
   */
  function RequestPermissions(s: Plugin, call: MethodCall, caller: CallerId, env: Env): (r: Step)
    ensures !env.hasActivity ==>
      r == Step(s, Some(Error(NO_ACTIVITY, NO_ACTIVITY_MESSAGE)), false)
    ensures env.hasActivity && env.permissionGranted ==>
      r == Step(s, Some(Success(Bool(true))), false)
    ensures env.hasActivity && !env.permissionGranted ==>
      && r.prompted && r.reply.None?
      && (s.pendingResult.Some? ==> r.state == s)
      && (s.pendingResult.None? ==> r.state.pendingCall == Some(call) && r.state.pendingResult == Some(caller))
    ensures SameRecording(r.state, s)
  {
    if !env.hasActivity then
      Step(s, Some(Error(NO_ACTIVITY, NO_ACTIVITY_MESSAGE)), false)
    else if env.permissionGranted then
      Step(s, Some(Success(Bool(true))), false)
    else
      var (parked, _) := SetPendingMethodCallAndResult(s, call, caller);
      Step(parked, None, true)
  }

  /** The `hasPermissions` branch: reports the permission, or `no_activity`; changes nothing. */
  function HasPermissions(s: Plugin, env: Env): (r: Step)
    ensures r.state == s && !r.prompted
    ensures env.hasActivity ==> r.reply == Some(Success(Bool(env.permissionGranted)))
    ensures !env.hasActivity ==> r.reply == Some(Error(NO_ACTIVITY, NO_ACTIVITY_MESSAGE))
  {
    if !env.hasActivity then Step(s, Some(Error(NO_ACTIVITY, NO_ACTIVITY_MESSAGE)), false)
    else Step(s, Some(Success(Bool(env.permissionGranted))), false)
  }

  /**
    Two callers ask while permission is missing: both trigger the prompt, only the first is
    parked, and the OS result answers the first caller only; the second is never answered.
   */
  lemma SecondRequestIsDropped(s: Plugin, call: MethodCall, first: CallerId, second: CallerId,
                               env1: Env, env2: Env, grantResults: seq<int>)
    requires s.pendingResult.None? && call.name == REQUEST_PERMISSIONS
    requires env1.hasActivity && !env1.permissionGranted
    requires env2.hasActivity && !env2.permissionGranted
    ensures var r1 := RequestPermissions(s, call, first, env1);
      var r2 := RequestPermissions(r1.state, call, second, env2);
      var cb := OnRequestPermissionsResult(r2.state, REQUEST_RECORD_AUDIO_PERMISSION, grantResults);
      && r1.prompted && r2.prompted
      && r1.reply.None? && r2.reply.None?
      && r2.state == r1.state
      && cb.answer == Some(Answer(first, Success(Bool(PermissionGranted(grantResults)))))
      && OnRequestPermissionsResult(cb.state, REQUEST_RECORD_AUDIO_PERMISSION, grantResults).answer.None?
  {
  }
}
