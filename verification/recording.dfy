/**
  The recording lifecycle: the `start`, `stop` and `isRecording` branches of `onMethodCall`
  and the helpers `stopRecording` and `getOutputFormatFromString`. The `MediaRecorder`
  itself is platform I/O; the model keeps only whether one is held and what it was
  configured with.
 */
module Recording {
  import opened Wrappers
  import opened Decimal
  import opened PluginState

  /** Java `long` arithmetic: the exact result reduced to the 64-bit two's-complement range. */
  function WrapLong(x: int): (r: Long)
    ensures (r - x) % 0x1_0000_0000_0000_0000 == 0
    ensures LONG_MIN <= x <= LONG_MAX ==> r == x
  {
    (x - LONG_MIN) % 0x1_0000_0000_0000_0000 + LONG_MIN
  }

  /** `now.getTime() - startTime.getTime()`, a `long` subtraction. */
  function Duration(now: Long, start: Long): (d: Long)
    ensures 0 <= start && 0 <= now ==> d == now - start
    ensures 0 <= start <= now ==> d >= 0
  {
    WrapLong(now - start)
  }

  /** The subtraction does wrap when the clock readings are far enough apart. */
  lemma DurationWraps()
    ensures Duration(LONG_MAX, -1) == LONG_MIN
  {
  }

  predicate IsRecognisedExtension(ext: string) {
    ext == ".mp4" || ext == ".aac" || ext == ".m4a"
  }

  /** Recognised and unrecognised extensions alike select the MPEG-4 container. */
  function OutputFormatFromString(ext: string): (format: int)
    ensures format == MPEG_4
  {
    if IsRecognisedExtension(ext) then MPEG_4 else MPEG_4
  }

  /** The path used when the caller gives none: `<dir>/<start millis><extension>`. */
  function DefaultPath(dir: string, millis: Long, ext: string): string {
    dir + "/" + LongToString(millis) + ext
  }

  /**
    `p` lies in directory `dir`, ends with `ext`, and the file-name stem between the two
    is a decimal numeral in Java's form that decodes to `millis`.
   */
  predicate NamesStartTime(p: string, dir: string, millis: int, ext: string) {
    && |dir| + 1 <= |p| - |ext|
    && p[..|dir| + 1] == dir + "/"
    && p[|p| - |ext|..] == ext
    && IsCanonicalLong(p[|dir| + 1..|p| - |ext|])
    && ParseInt(p[|dir| + 1..|p| - |ext|]) == Some(millis)
  }

  /** A synthesized path names its start time. */
  lemma DefaultPathDecodes(dir: string, millis: Long, ext: string)
    ensures NamesStartTime(DefaultPath(dir, millis, ext), dir, millis, ext)
  {
    var p := DefaultPath(dir, millis, ext);
    var stem := LongToString(millis);
    assert p == (dir + "/") + stem + ext;
    assert p[..|dir| + 1] == dir + "/";
    assert p[|p| - |ext|..] == ext;
    assert p[|dir| + 1..|p| - |ext|] == stem;
    LongRoundTrip(millis);
  }

  /** Recordings started at different milliseconds get different default paths. */
  lemma DefaultPathInjective(dir: string, a: Long, b: Long, ext: string)
    ensures DefaultPath(dir, a, ext) == DefaultPath(dir, b, ext) ==> a == b
  {
    if DefaultPath(dir, a, ext) == DefaultPath(dir, b, ext) {
      DefaultPathDecodes(dir, a, ext);
      DefaultPathDecodes(dir, b, ext);
      LongToStringInjective(a, b);
    }
  }

  /** A path that names a start time is exactly the default path for that time. */
  lemma NamesStartTimeExactly(p: string, dir: string, millis: Long, ext: string)
    requires NamesStartTime(p, dir, millis, ext)
    ensures p == DefaultPath(dir, millis, ext)
  {
    var stem := p[|dir| + 1..|p| - |ext|];
    CanonicalLongUnique(stem, millis);
    assert p == p[..|dir| + 1] + stem + p[|p| - |ext|..];
  }

  /** The path `start` records: the `path` argument verbatim, otherwise a synthesized one. */
  function EffectivePath(path: Option<string>, ext: string, env: Env): string {
    match path
    case Some(p) => p
    case None => DefaultPath(env.storageDir, env.now, ext)
  }

  /**
    `stopRecording`: releases the held recorder, if any, and forgets it. The boolean says
    whether a recorder was released.
   */
  function StopRecording(s: Plugin): (r: (Plugin, bool))
    ensures r.0.recorder.None?
    ensures r.1 <==> s.recorder.Some?
    ensures r.0 == s.(recorder := None)
  {
    if s.recorder.Some? then (s.(recorder := None), true) else (s, false)
  }

  /** A second `stopRecording` releases nothing and changes nothing. */
  lemma StopRecordingTwice(s: Plugin)
    ensures var once := StopRecording(s).0;
      StopRecording(once) == (once, false)
  {
  }

  /**
    The `start` branch. No guard against an active recording: path, extension, start time
    and recorder are overwritten whatever the previous state, and the call always succeeds.
   */
  function Start(s: Plugin, path: Option<string>, ext: string, env: Env): (r: Step)
    ensures r.state.isRecording
    ensures r.reply == Some(Success(Null)) && !r.prompted
    ensures r.state.startTime == Some(env.now) && r.state.extension == ext
    ensures path.Some? ==> r.state.filePath == path
    ensures r.state.filePath.Some? && r.state.recorder.Some?
    ensures path.None? ==> NamesStartTime(r.state.filePath.value, env.storageDir, env.now, ext)
    ensures r.state.recorder.value.outputFile == r.state.filePath.value
    ensures r.state.recorder.value.outputFormat == MPEG_4
    ensures SameSlot(r.state, s)
  {
    var filePath := EffectivePath(path, ext, env);
    DefaultPathDecodes(env.storageDir, env.now, ext);
    var config := RecorderConfig(OutputFormatFromString(ext), filePath);
    Step(s.(isRecording := true, recorder := Some(config), filePath := Some(filePath),
            startTime := Some(env.now), extension := ext),
         Some(Success(Null)), false)
  }

  /** The outcome of `start` depends on the pending slot only, not on any earlier recording. */
  lemma StartIgnoresEarlierRecording(s: Plugin, t: Plugin, path: Option<string>, ext: string, env: Env)
    requires SameSlot(s, t)
    ensures Start(s, path, ext, env) == Start(t, path, ext, env)
  {
  }

  /**
    The `stop` branch. It reads `startTime` unconditionally, so a `stop` before any `start`
    (null start time) is outside its domain. It does not check `isRecording`: a repeated
    stop reports the last session again.
   */
  function Stop(s: Plugin, env: Env): (r: Step)
    requires s.startTime.Some?
    ensures !r.state.isRecording && r.state.recorder.None?
    ensures r.reply.Some? && r.reply.value.Success? && r.reply.value.value.RecordingResult?
    ensures r.reply.value.value.path == s.filePath
    ensures r.reply.value.value.audioOutputFormat == s.extension
    ensures r.reply.value.value.duration == Duration(env.now, s.startTime.value)
    ensures 0 <= s.startTime.value <= env.now ==> r.reply.value.value.duration == env.now - s.startTime.value
    ensures !r.prompted
    ensures SameSlot(r.state, s)
    ensures r.state.filePath == s.filePath && r.state.startTime == s.startTime && r.state.extension == s.extension
  {
    var released := StopRecording(s).0;
    var duration := Duration(env.now, s.startTime.value);
    Step(released.(isRecording := false),
         Some(Success(RecordingResult(duration, s.filePath, s.extension))), false)
  }

  /** The `isRecording` branch: reports the flag and changes nothing. */
  function IsRecording(s: Plugin): (r: Step)
    ensures r.state == s && !r.prompted
    ensures r.reply == Some(Success(Bool(s.isRecording)))
  {
    Step(s, Some(Success(Bool(s.isRecording))), false)
  }

  /**
    `stop` after `start` reports the path and extension that `start` stored and the time
    elapsed between the two calls.
   */
  lemma StartThenStop(s: Plugin, path: Option<string>, ext: string, env1: Env, env2: Env)
    ensures var started := Start(s, path, ext, env1).state;
      var stopped := Stop(started, env2);
      && started.isRecording
      && !stopped.state.isRecording
      && stopped.reply == Some(Success(RecordingResult(
           Duration(env2.now, env1.now), Some(EffectivePath(path, ext, env1)), ext)))
  {
  }

  /**
    With no explicit path, the path `stop` reports lies in the storage directory, ends with
    the extension, and its stem decodes to the start time.
   */
  lemma StartThenStopDefaultPath(s: Plugin, ext: string, env1: Env, env2: Env)
    requires 0 <= env1.now <= env2.now
    ensures var stopped := Stop(Start(s, None, ext, env1).state, env2);
      && stopped.reply.Some? && stopped.reply.value.Success?
      && stopped.reply.value.value.RecordingResult?
      && stopped.reply.value.value.path.Some?
      && stopped.reply.value.value.duration == env2.now - env1.now
      && NamesStartTime(stopped.reply.value.value.path.value, env1.storageDir, env1.now, ext)
  {
  }

  /** A second `stop` reports the same session again and releases nothing. */
  lemma StopTwice(s: Plugin, env1: Env, env2: Env)
    requires s.startTime.Some?
    ensures var first := Stop(s, env1);
      var second := Stop(first.state, env2);
      && second.state == first.state
      && second.reply.value.value.path == first.reply.value.value.path
      && second.reply.value.value.audioOutputFormat == first.reply.value.value.audioOutputFormat
      && second.reply.value.value.duration == Duration(env2.now, s.startTime.value)
  {
  }
}
