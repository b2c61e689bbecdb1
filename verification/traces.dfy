/**
  Sequences of events seen by one plugin instance: method calls from the Dart side and
  permission results from the OS, delivered one after the other. The lemmas here state what
  holds of every state reachable from the field initialisers.
 */
module Traces {
  import opened Wrappers
  import opened PluginState
  import Recording
  import Permissions
  import Dispatch

  datatype Event =
    | Call(call: MethodCall, caller: CallerId, env: Env)
    | PermissionResult(requestCode: int, grantResults: seq<int>)

  predicate IsStart(e: Event) {
    e.Call? && e.call.name == START
  }

  predicate IsStop(e: Event) {
    e.Call? && e.call.name == STOP
  }

  /**
    The state after one event; `None` for a `stop` with no start time, where the Java code
    dereferences a null `startTime` and the call does not complete.
   */
  function Apply(s: Plugin, e: Event): (r: Option<Plugin>)
    ensures r.None? <==> IsStop(e) && s.startTime.None?
  {
    match e
    case Call(call, caller, env) =>
      if call.name == STOP && s.startTime.None? then None
      else Some(Dispatch.OnMethodCall(s, call, caller, env).state)
    case PermissionResult(code, grants) =>
      Some(Permissions.OnRequestPermissionsResult(s, code, grants).state)
  }

  /** The state after a whole trace, applied from the first event to the last. */
  function Run(s: Plugin, t: seq<Event>): Option<Plugin>
    decreases |t|
  {
    if |t| == 0 then Some(s)
    else
      match Run(s, t[..|t| - 1])
      case None => None
      case Some(p) => Apply(p, t[|t| - 1])
  }

  /**
    What every reachable state satisfies: the two halves of the pending slot are set and
    cleared together and only ever hold a `requestPermissions` call; a recorder is held
    exactly while recording, writing to the current path; a start time exists exactly when
    a path does.
   */
  predicate Inv(s: Plugin) {
    && (s.pendingCall.Some? <==> s.pendingResult.Some?)
    && (s.pendingCall.Some? ==> s.pendingCall.value.name == REQUEST_PERMISSIONS)
    && (s.isRecording <==> s.recorder.Some?)
    && (s.recorder.Some? ==> s.filePath == Some(s.recorder.value.outputFile))
    && (s.startTime.Some? <==> s.filePath.Some?)
  }

  lemma InitialInv()
    ensures Inv(Initial)
  {
  }

  lemma ApplyPreservesInv(s: Plugin, e: Event)
    requires Inv(s)
    ensures Apply(s, e).Some? ==> Inv(Apply(s, e).value)
  {
  }

  lemma {:induction false} RunPreservesInv(s: Plugin, t: seq<Event>)
    requires Inv(s)
    ensures Run(s, t).Some? ==> Inv(Run(s, t).value)
    decreases |t|
  {
    if |t| > 0 {
      RunPreservesInv(s, t[..|t| - 1]);
      if Run(s, t[..|t| - 1]).Some? {
        ApplyPreservesInv(Run(s, t[..|t| - 1]).value, t[|t| - 1]);
      }
    }
  }

  /** In a reachable state a result with the plugin's code answers exactly when a caller is parked. */
  lemma ResultAnswersParkedCaller(t: seq<Event>, grantResults: seq<int>)
    requires Run(Initial, t).Some?
    ensures var s := Run(Initial, t).value;
      var cb := Permissions.OnRequestPermissionsResult(s, REQUEST_RECORD_AUDIO_PERMISSION, grantResults);
      cb.answer.Some? <==> s.pendingResult.Some?
  {
    InitialInv();
    RunPreservesInv(Initial, t);
  }

  /**
    While a caller is parked, no event other than a result with the plugin's request code
    replaces or removes it: a later requester cannot take its place.
   */
  lemma SlotKeepsFirstCaller(s: Plugin, e: Event)
    requires s.pendingResult.Some?
    requires Apply(s, e).Some?
    requires !(e.PermissionResult? && e.requestCode == REQUEST_RECORD_AUDIO_PERMISSION)
    ensures SameSlot(Apply(s, e).value, s)
  {
  }

  /** The last `start` or `stop` of a trace: `Some(true)` for a start, `None` when there is none. */
  function LastLifecycle(t: seq<Event>): Option<bool>
    decreases |t|
  {
    if |t| == 0 then None
    else if IsStart(t[|t| - 1]) then Some(true)
    else if IsStop(t[|t| - 1]) then Some(false)
    else LastLifecycle(t[..|t| - 1])
  }

  /**
    `isRecording` is true exactly when the last `start` of the trace has not been followed
    by a `stop`; with neither in the trace it keeps its earlier value.
   */
  lemma {:induction false} IsRecordingTracksLastLifecycle(s: Plugin, t: seq<Event>)
    requires Run(s, t).Some?
    ensures Run(s, t).value.isRecording ==
      match LastLifecycle(t)
      case Some(b) => b
      case None => s.isRecording
    decreases |t|
  {
    if |t| > 0 {
      IsRecordingTracksLastLifecycle(s, t[..|t| - 1]);
    }
  }

  /** The last `start` of a trace. */
  function LastStart(t: seq<Event>): (r: Option<Event>)
    ensures r.Some? ==> IsStart(r.value) && r.value in t
    decreases |t|
  {
    if |t| == 0 then None
    else if IsStart(t[|t| - 1]) then Some(t[|t| - 1])
    else LastStart(t[..|t| - 1])
  }

  /** The path, extension and start time are those given by the last `start`. */
  lemma {:induction false} LastStartDeterminesSession(s: Plugin, t: seq<Event>)
    requires Run(s, t).Some? && LastStart(t).Some?
    ensures var p := Run(s, t).value;
      var e := LastStart(t).value;
      && p.filePath == Some(Recording.EffectivePath(e.call.path, e.call.extension, e.env))
      && p.extension == e.call.extension
      && p.startTime == Some(e.env.now)
    decreases |t|
  {
    if !IsStart(t[|t| - 1]) {
      LastStartDeterminesSession(s, t[..|t| - 1]);
    }
  }

  /**
    A `stop` after a trace containing a `start` completes and reports the path and
    extension of the most recent `start`, with the time elapsed since it.
   */
  lemma StopReportsLastStart(s: Plugin, t: seq<Event>, stopEnv: Env)
    requires Run(s, t).Some? && LastStart(t).Some?
    ensures var p := Run(s, t).value;
      var e := LastStart(t).value;
      && p.startTime.Some?
      && Recording.Stop(p, stopEnv).reply == Some(Success(RecordingResult(
           Recording.Duration(stopEnv.now, e.env.now),
           Some(Recording.EffectivePath(e.call.path, e.call.extension, e.env)),
           e.call.extension)))
  {
    LastStartDeterminesSession(s, t);
  }

  /** Every `stop` of the trace has a `start` before it, or a start time already exists. */
  predicate StopsFollowStart(s: Plugin, t: seq<Event>) {
    forall i :: 0 <= i < |t| && IsStop(t[i]) ==>
      s.startTime.Some? || exists j :: 0 <= j < i && IsStart(t[j])
  }

  lemma {:induction false} StartTimeOnceStarted(s: Plugin, t: seq<Event>)
    requires Run(s, t).Some?
    requires s.startTime.Some? || exists j :: 0 <= j < |t| && IsStart(t[j])
    ensures Run(s, t).value.startTime.Some?
    decreases |t|
  {
    if |t| > 0 {
      var init := t[..|t| - 1];
      if !IsStart(t[|t| - 1]) {
        if !s.startTime.Some? {
          var j :| 0 <= j < |t| && IsStart(t[j]);
          assert j < |t| - 1 && init[j] == t[j];
        }
        StartTimeOnceStarted(s, init);
      }
    }
  }

  /** A trace whose every `stop` comes after a `start` runs to completion. */
  lemma {:induction false} RunCompletes(s: Plugin, t: seq<Event>)
    requires StopsFollowStart(s, t)
    ensures Run(s, t).Some?
    decreases |t|
  {
    if |t| > 0 {
      var init := t[..|t| - 1];
      assert StopsFollowStart(s, init) by {
        forall i | 0 <= i < |init| && IsStop(init[i])
          ensures s.startTime.Some? || exists j :: 0 <= j < i && IsStart(init[j])
        {
          assert IsStop(t[i]);
          if !s.startTime.Some? {
            var j :| 0 <= j < i && IsStart(t[j]);
            assert init[j] == t[j];
          }
        }
      }
      RunCompletes(s, init);
      if IsStop(t[|t| - 1]) {
        assert IsStop(t[|t| - 1]);
        if !s.startTime.Some? {
          var j :| 0 <= j < |t| - 1 && IsStart(t[j]);
          assert init[j] == t[j];
        }
        StartTimeOnceStarted(s, init);
      }
    }
  }
}
