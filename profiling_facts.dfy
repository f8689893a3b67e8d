/**
 * What the profiling harness of cmd/adan-bot/profiling.go guarantees, proved
 * about the functions of module Profiling (and so, through the contracts of
 * class `Process`, about the methods that follow the Go code).
 */
module ProfilingFacts {
  import opened Wrappers
  import opened GoErrors
  import opened FilePaths
  import opened Config
  import opened Effects
  import opened Profiling

  // ---------------------------------------------------------------------------
  // Recording sessions

  /**
   * A session refuses an unsafe name before creating anything, creates nothing
   * when os.Create fails and then reports the recorder's create error, reports
   * the recorder's start error when it could not start, and succeeds exactly
   * when every step does and the recorder was not already running.
   */
  lemma SessionOutcome(rec: Recorder, env: Env, active: bool, io: SessionIo)
    ensures var r := Session(rec, env, active, io);
      var fname := OutputName(rec, env);
      (!IsSafeFilename(fname) ==> r == Run(Some(Unsafe(fname)), []) && Is(r.err.value, UnsafeFilename))
      && (IsSafeFilename(fname) && !io.createOk ==> r.err.Some? && Is(r.err.value, CreateKind(rec)))
      && (IsSafeFilename(fname) && io.createOk && !(io.startOk && !active) ==>
            r.err.Some? && Is(r.err.value, StartKind(rec)))
      && (r.log == [] <==> !IsSafeFilename(fname) || !io.createOk)
      && (r.err.None? <==> IsSafeFilename(fname) && io.createOk && io.startOk && !active && io.closeOk)
  {
    var fname := OutputName(rec, env);
    if IsSafeFilename(fname) && io.createOk && !(io.startOk && !active) && !io.closeOk {
      CloseErrorJoined(rec, CreatePath(rec, fname), active, io);
    }
  }

  /**
   * Once its file is created, a session opens with it and ends by closing it;
   * the recorder runs only if it started, and is stopped right after, before
   * the file is closed.
   */
  lemma SessionBracketsRecording(rec: Recorder, path: string, started: bool)
    ensures var log := SessionLog(rec, path, started);
      |log| >= 2 && log[0] == Created(path) && log[|log| - 1] == Closed(path)
      && (StartEvent(rec) in log <==> started)
      && (forall i :: 0 <= i < |log| && log[i] == StartEvent(rec) ==> i + 2 < |log| && log[i + 1] == StopEvent(rec))
  {
    var log := SessionLog(rec, path, started);
    if started {
      assert log == [Created(path), StartEvent(rec), StopEvent(rec), Closed(path)];
    } else {
      assert log == [Created(path), Closed(path)];
    }
  }

  /**
   * A failed close is joined onto the session's error instead of replacing it:
   * the result reports the close and, exactly when the start failed, the start.
   */
  lemma CloseErrorJoined(rec: Recorder, path: string, active: bool, io: SessionIo)
    requires io.createOk && !io.closeOk
    ensures var r := Recorded(rec, path, active, io);
      r.err.Some? && Is(r.err.value, CannotCloseFile)
      && (Is(r.err.value, StartKind(rec)) <==> !(io.startOk && !active))
  {
    var started := io.startOk && !active;
    var startErr := if started then None else Some(Wrap(StartKind(rec), [Os(StartFailure(rec))]));
    var closeErr := Wrap(CannotCloseFile, [Os(CloseFailed(path))]);
    JoinKeepsBoth(startErr, Some(closeErr), CannotCloseFile);
    JoinKeepsBoth(startErr, Some(closeErr), StartKind(rec));
    assert Is(closeErr, CannotCloseFile);
    assert !Is(Os(CloseFailed(path)), StartKind(rec));
    if !started {
      assert Is(startErr.value, StartKind(rec));
    }
  }

  /**
   * The default file of a runtime profile, `<name>.pprof`, passes the guard for
   * every name without a separator that is neither `.` nor starts with `..`.
   */
  lemma DefaultProfileFileSafe(name: string)
    requires '/' !in name && name != "." && !HasPrefix(name, "..")
    ensures IsSafeFilename(name + ".pprof")
  {
    var f := name + ".pprof";
    assert f != "" && f != "." && f != "..";
    CleanElement(f);
    if |name| == 0 {
      assert f[1] == 'p';
    } else if |name| == 1 {
      assert name == [name[0]];
      assert f[0] == name[0];
    } else {
      assert f[0] == name[0] && f[1] == name[1];
    }
  }

  // ---------------------------------------------------------------------------
  // Dumps

  /** The outcomes of one dump: never nil, and the unknown-profile and write errors kept apart. */
  lemma DumpOutcome(registry: seq<string>, fname: string, name: string, io: DumpIo)
    ensures var d := Dump(registry, fname, name, io);
      d.err.Some?
      && (!IsSafeFilename(fname) ==> d == Run(Some(Unsafe(fname)), []))
      && (IsSafeFilename(fname) && io.createOk && name !in registry ==>
            d == Run(Some(Sentinel(InvalidProfile)), [Created(fname), Closed(fname)]))
      && (Wrote(name, fname) in d.log <==> IsSafeFilename(fname) && io.createOk && name in registry && io.writeOk)
      && (Wrote(name, fname) in d.log ==> Is(d.err.value, CannotCloseFile))
  {
    var d := Dump(registry, fname, name, io);
    if IsSafeFilename(fname) && io.createOk {
      if name in registry && io.writeOk {
        assert d.log[1] == Wrote(name, fname);
      } else {
        assert d.log == [Created(fname), Closed(fname)];
      }
    }
  }

  /**
   * The two failures of a dump on a safe name: a file that cannot be created
   * leaves no event behind, and a failed write is errCannotWriteProfile (not the
   * close error) with the file created and closed again.
   */
  lemma DumpFailureKinds(registry: seq<string>, fname: string, name: string, io: DumpIo)
    requires IsSafeFilename(fname)
    ensures var d := Dump(registry, fname, name, io);
      && (!io.createOk ==> d.err.Some? && Is(d.err.value, CannotCreateFile) && d.log == [])
      && (io.createOk && name in registry && !io.writeOk ==>
            d.err.Some? && Is(d.err.value, CannotWriteProfile) && !Is(d.err.value, CannotCloseFile)
            && d.log == [Created(fname), Closed(fname)])
  {
    if !io.createOk {
      var e := Wrap(CannotCreateFile, [Os(CreateFailed(fname))]);
      assert Dump(registry, fname, name, io) == Run(Some(e), []);
      assert Is(e, CannotCreateFile);
    } else if name in registry && !io.writeOk {
      var e := Wrap(CannotWriteProfile, [Os(WriteFailed(name))]);
      assert Dump(registry, fname, name, io) == Run(Some(e), DumpLog(fname, name, false));
      assert DumpLog(fname, name, false) == [Created(fname), Closed(fname)];
      assert Is(e, CannotWriteProfile) && !Is(e, CannotCloseFile);
    }
  }

  /** No name among `names` has its `PROFILE_<NAME>` variable set to "1". */
  predicate NoneEnabled(env: Env, names: seq<string>) {
    forall i :: 0 <= i < |names| ==> !Enabled(env, ProfileVar(names[i]))
  }

  lemma NoneEnabledTail(env: Env, names: seq<string>)
    requires names != []
    ensures NoneEnabled(env, names) <==> !Enabled(env, ProfileVar(names[0])) && NoneEnabled(env, names[1..])
  {
    if !Enabled(env, ProfileVar(names[0])) && NoneEnabled(env, names[1..]) {
      forall i | 0 <= i < |names|
        ensures !Enabled(env, ProfileVar(names[i]))
      {
        if i > 0 {
          assert names[i] == names[1..][i - 1];
        }
      }
    }
  }

  /**
   * The dump loop fails exactly when some name is enabled, and then its error
   * is errCannotWriteProfile tagged with an enabled name: the dump's own cause
   * is dropped.
   */
  lemma {:induction false} DumpsFailIffAnyEnabled(env: Env, registry: seq<string>, names: seq<string>, dump: string -> DumpIo)
    ensures var d := Dumps(env, registry, names, dump);
      (d.err.None? <==> NoneEnabled(env, names))
      && (d.err.Some? ==>
            d.err.value.Tag? && d.err.value.kind == CannotWriteProfile
            && d.err.value.name in names && Enabled(env, ProfileVar(d.err.value.name)))
    decreases |names|
  {
    if names != [] {
      DumpsFailIffAnyEnabled(env, registry, names[1..], dump);
      NoneEnabledTail(env, names);
      DumpOutcome(registry, ProfileFile(env, names[0]), names[0], dump(names[0]));
    }
  }

  /**
   * The dump loop stops at the first enabled name: what it returns and does is
   * that one dump, reported as errCannotWriteProfile tagged with the name.
   */
  lemma {:induction false} FirstEnabledEndsDumps(env: Env, registry: seq<string>, names: seq<string>, dump: string -> DumpIo, k: nat)
    requires k < |names| && Enabled(env, ProfileVar(names[k])) && NoneEnabled(env, names[..k])
    ensures var name := names[k];
      Dumps(env, registry, names, dump)
        == Run(Some(Tag(CannotWriteProfile, name)), Dump(registry, ProfileFile(env, name), name, dump(name)).log)
    decreases k
  {
    if k == 0 {
      DumpOutcome(registry, ProfileFile(env, names[0]), names[0], dump(names[0]));
    } else {
      assert names[..k][0] == names[0];
      assert names[1..][..k - 1] == names[..k][1..];
      NoneEnabledTail(env, names[..k]);
      FirstEnabledEndsDumps(env, registry, names[1..], dump, k - 1);
    }
  }

  /** Events that only touch files: what a dump does. */
  predicate FileEventsOnly(log: seq<Event>) {
    forall i :: 0 <= i < |log| ==> log[i].Created? || log[i].Closed? || log[i].Wrote?
  }

  lemma {:induction false} DumpsTouchOnlyFiles(env: Env, registry: seq<string>, names: seq<string>, dump: string -> DumpIo)
    ensures FileEventsOnly(Dumps(env, registry, names, dump).log)
    decreases |names|
  {
    if names != [] {
      DumpsTouchOnlyFiles(env, registry, names[1..], dump);
    }
  }

  /** Closing a file keeps a quiescent state quiescent. */
  lemma ClosedStaysQuiescent(s: State, path: string)
    requires Quiescent(s)
    ensures Quiescent(s.(files := s.files[path := false]))
  {
  }

  /** A dump leaves the file it opened closed again. */
  lemma DumpClosesItsFile(registry: seq<string>, fname: string, name: string, io: DumpIo, s: State)
    requires Quiescent(s)
    ensures Quiescent(Apply(s, Dump(registry, fname, name, io).log))
  {
    var d := Dump(registry, fname, name, io);
    if d.log != [] {
      DumpOutcome(registry, fname, name, io);
      var written := Wrote(name, fname) in d.log;
      assert d.log == DumpLog(fname, name, written);
      DumpLogEffect(s, fname, name, written);
      ClosedStaysQuiescent(s, fname);
    }
  }

  /** The dump loop leaves every file it opened closed again. */
  lemma {:induction false} DumpsCloseTheirFiles(env: Env, registry: seq<string>, names: seq<string>, dump: string -> DumpIo, s: State)
    requires Quiescent(s)
    ensures Quiescent(Apply(s, Dumps(env, registry, names, dump).log))
    decreases |names|
  {
    if names != [] {
      var name := names[0];
      if Enabled(env, ProfileVar(name)) {
        var fname := ProfileFile(env, name);
        DumpOutcome(registry, fname, name, dump(name));
        DumpClosesItsFile(registry, fname, name, dump(name), s);
      } else {
        DumpsCloseTheirFiles(env, registry, names[1..], dump, s);
      }
    }
  }

  // ---------------------------------------------------------------------------
  // Profile

  /** Both sessions were set up without error. */
  predicate SetupOk(env: Env, s: State, io: Io) {
    TraceRun(env, s, io).err.None? && CPURun(env, s, io).err.None?
  }

  /** A failed setup is returned, the trace error first, and the workload is not called. */
  lemma SetupFailureSkipsWorkload(env: Env, registry: seq<string>, s: State, work: Option<Error>, io: Io)
    requires !SetupOk(env, s, io)
    ensures var r := ProfileRun(env, registry, s, work, io);
      r.err.Some? && Ran !in r.log
      && r.err == (if TraceRun(env, s, io).err.Some? then TraceRun(env, s, io).err else CPURun(env, s, io).err)
  {
    var t, c := TraceRun(env, s, io), CPURun(env, s, io);
    SessionShape(Trace, env, Recording(Trace, s), io.trace);
    SessionShape(CPU, env, Recording(CPU, s), io.cpu);
    assert Ran !in t.log && Ran !in c.log;
  }

  /** An event a session of `rec` can log: its file's, or its own recorder's. */
  predicate SessionEvent(rec: Recorder, e: Event) {
    e.Created? || e.Closed? || e == StartEvent(rec) || e == StopEvent(rec)
  }

  /** The events of a session whose file was created are the file's, and its own recorder's. */
  lemma SessionLogEvents(rec: Recorder, path: string, started: bool)
    ensures var log := SessionLog(rec, path, started);
      forall i :: 0 <= i < |log| ==> SessionEvent(rec, log[i])
  {
    var mid := if started then [StartEvent(rec), StopEvent(rec)] else [];
    var log := SessionLog(rec, path, started);
    forall i | 0 <= i < |log|
      ensures SessionEvent(rec, log[i])
    {
      if 0 < i <= |mid| {
        assert log[i] == mid[i - 1];
      }
    }
  }

  /** The events of a session are the file's, and its own recorder's. */
  lemma SessionShape(rec: Recorder, env: Env, active: bool, io: SessionIo)
    ensures var log := Session(rec, env, active, io).log;
      forall i :: 0 <= i < |log| ==> SessionEvent(rec, log[i])
  {
    SessionLogOf(rec, env, active, io);
    var fname := OutputName(rec, env);
    SessionLogEvents(rec, CreatePath(rec, fname), io.startOk && !active);
  }

  /** No profile is written anywhere in `log`. */
  predicate NoWrites(log: seq<Event>) {
    forall i :: 0 <= i < |log| ==> !log[i].Wrote?
  }

  /** A trace or CPU session writes no profile. */
  lemma SessionWritesNothing(rec: Recorder, env: Env, active: bool, io: SessionIo)
    ensures NoWrites(Session(rec, env, active, io).log)
  {
    var log := Session(rec, env, active, io).log;
    SessionShape(rec, env, active, io);
    forall i | 0 <= i < |log|
      ensures !log[i].Wrote?
    {
      assert SessionEvent(rec, log[i]);
    }
  }

  /** A trace or CPU session, run or skipped, writes no profile. */
  lemma GatedWritesNothing(on: bool, rec: Recorder, env: Env, s: State, io: SessionIo)
    ensures NoWrites(Gated(on, rec, env, s, io).log)
  {
    if on {
      SessionWritesNothing(rec, env, Recording(rec, s), io);
    }
  }

  /** Two logs without writes make one. */
  lemma NoWritesConcat(a: seq<Event>, b: seq<Event>)
    requires NoWrites(a) && NoWrites(b)
    ensures NoWrites(a + b)
  {
    forall i | 0 <= i < |a + b|
      ensures !(a + b)[i].Wrote?
    {
      if i >= |a| {
        assert (a + b)[i] == b[i - |a|];
      }
    }
  }

  /** An error from the workload is returned unchanged, and then nothing is dumped. */
  lemma WorkloadErrorReturned(env: Env, registry: seq<string>, s: State, work: Option<Error>, io: Io)
    requires SetupOk(env, s, io) && work.Some?
    ensures var r := ProfileRun(env, registry, s, work, io);
      r.err == work && r.log[|r.log| - 1] == Ran && NoWrites(r.log)
  {
    var t, c := TraceRun(env, s, io), CPURun(env, s, io);
    assert ProfileRun(env, registry, s, work, io) == Run(work, t.log + c.log + [Ran]);
    GatedWritesNothing(Enabled(env, "TRACE"), Trace, env, s, io.trace);
    GatedWritesNothing(Enabled(env, "PROFILE_CPU"), CPU, env, s, io.cpu);
    NoWritesConcat(t.log, c.log);
    NoWritesConcat(t.log + c.log, [Ran]);
  }

  /** With no flag set, no profile enabled and a workload that succeeds, `Profile` only calls it. */
  lemma NothingEnabledOnlyRuns(env: Env, registry: seq<string>, s: State, io: Io)
    requires !Enabled(env, "TRACE") && !Enabled(env, "PROFILE_CPU") && NoneEnabled(env, registry)
    ensures ProfileRun(env, registry, s, None, io) == Run(None, [Ran])
  {
    DumpsFailIffAnyEnabled(env, registry, registry, io.dump);
    var d := Dumps(env, registry, registry, io.dump);
    if d.log != [] {
      NothingEnabledNothingDumped(env, registry, registry, io.dump);
    }
  }

  lemma {:induction false} NothingEnabledNothingDumped(env: Env, registry: seq<string>, names: seq<string>, dump: string -> DumpIo)
    requires NoneEnabled(env, names)
    ensures Dumps(env, registry, names, dump) == Run(None, [])
    decreases |names|
  {
    if names != [] {
      NoneEnabledTail(env, names);
      NothingEnabledNothingDumped(env, registry, names[1..], dump);
    }
  }

  /**
   * `Profile` returns nil exactly when setup succeeds, the workload succeeds
   * and no runtime profile is enabled; an enabled profile makes it fail with
   * errCannotWriteProfile tagged with that profile's name, and no other sentinel.
   */
  lemma ProfileSucceedsIff(env: Env, registry: seq<string>, s: State, work: Option<Error>, io: Io)
    ensures var r := ProfileRun(env, registry, s, work, io);
      (r.err.None? <==> SetupOk(env, s, io) && work.None? && NoneEnabled(env, registry))
      && (SetupOk(env, s, io) && work.None? && !NoneEnabled(env, registry) ==>
            r.err.Some? && r.err.value.Tag? && r.err.value.name in registry
            && Enabled(env, ProfileVar(r.err.value.name))
            && forall k :: Is(r.err.value, k) <==> k == CannotWriteProfile)
  {
    DumpsFailIffAnyEnabled(env, registry, registry, io.dump);
    if !SetupOk(env, s, io) {
      SetupFailureSkipsWorkload(env, registry, s, work, io);
    }
  }

  /** Neither session calls the workload. */
  lemma SetupHasNoRan(env: Env, s: State, io: Io)
    ensures Ran !in TraceRun(env, s, io).log && Ran !in CPURun(env, s, io).log
  {
    SessionShape(Trace, env, Recording(Trace, s), io.trace);
    SessionShape(CPU, env, Recording(CPU, s), io.cpu);
  }

  /** In the log of a setup that succeeded and the dumps after it, the workload's event is the one after the setup. */
  lemma RanFollowsSetup(setup: seq<Event>, dumps: seq<Event>, i: nat)
    requires Ran !in setup && FileEventsOnly(dumps)
    requires i < |setup + [Ran] + dumps| && (setup + [Ran] + dumps)[i] == Ran
    ensures i == |setup|
  {
  }

  /**
   * The workload runs once the sessions have ended: whenever `fn` is called,
   * both recorders are as they were when `Profile` was called, so a run that
   * starts with nothing recording calls `fn` with nothing recording.
   */
  lemma WorkloadRunsUnrecorded(env: Env, registry: seq<string>, s: State, work: Option<Error>, io: Io)
    ensures var r := ProfileRun(env, registry, s, work, io);
      forall i :: 0 <= i < |r.log| && r.log[i] == Ran ==>
        Apply(s, r.log[..i]).tracing == s.tracing && Apply(s, r.log[..i]).profilingCPU == s.profilingCPU
  {
    var r := ProfileRun(env, registry, s, work, io);
    if SetupOk(env, s, io) {
      var setup := TraceRun(env, s, io).log + CPURun(env, s, io).log;
      var d := Dumps(env, registry, registry, io.dump);
      SetupHasNoRan(env, s, io);
      DumpsTouchOnlyFiles(env, registry, registry, io.dump);
      SetupKeepsRecorders(env, s, io);
      var dumped := if work.Some? then [] else d.log;
      assert r.log == setup + [Ran] + dumped;
      forall i | 0 <= i < |r.log| && r.log[i] == Ran
        ensures r.log[..i] == setup
      {
        RanFollowsSetup(setup, dumped, i);
      }
    } else {
      SetupFailureSkipsWorkload(env, registry, s, work, io);
    }
  }

  /** No event of `log` is `e`. */
  predicate Avoids(log: seq<Event>, e: Event) {
    forall i :: 0 <= i < |log| ==> log[i] != e
  }

  /** Two logs without `e` make one. */
  lemma AvoidsConcat(a: seq<Event>, b: seq<Event>, e: Event)
    requires Avoids(a, e) && Avoids(b, e)
    ensures Avoids(a + b, e)
  {
    forall i | 0 <= i < |a + b|
      ensures (a + b)[i] != e
    {
      if i >= |a| {
        assert (a + b)[i] == b[i - |a|];
      }
    }
  }

  /** A session of `rec` logs nothing of the other recorder. */
  lemma GatedAvoids(on: bool, rec: Recorder, env: Env, s: State, io: SessionIo, e: Event)
    requires !e.Created? && !e.Closed? && e != StartEvent(rec) && e != StopEvent(rec)
    ensures Avoids(Gated(on, rec, env, s, io).log, e)
  {
    if on {
      var log := Session(rec, env, Recording(rec, s), io).log;
      assert Gated(on, rec, env, s, io).log == log;
      SessionShape(rec, env, Recording(rec, s), io);
      forall i | 0 <= i < |log|
        ensures log[i] != e
      {
        assert SessionEvent(rec, log[i]);
      }
    }
  }

  /** An event that neither session logs, and that is neither the workload's call nor a file event, never happens in `Profile`. */
  lemma ProfileAvoids(env: Env, registry: seq<string>, s: State, work: Option<Error>, io: Io, e: Event)
    requires Avoids(TraceRun(env, s, io).log, e) && Avoids(CPURun(env, s, io).log, e)
    requires e != Ran && !e.Created? && !e.Closed? && !e.Wrote?
    ensures Avoids(ProfileRun(env, registry, s, work, io).log, e)
  {
    var t, c := TraceRun(env, s, io).log, CPURun(env, s, io).log;
    var d := Dumps(env, registry, registry, io.dump).log;
    DumpsTouchOnlyFiles(env, registry, registry, io.dump);
    assert Avoids(d, e);
    assert Avoids([Ran], e);
    AvoidsConcat(t, c, e);
    AvoidsConcat(t + c, [Ran], e);
    AvoidsConcat(t + c + [Ran], d, e);
  }

  /** Execution tracing is started only when TRACE is "1". */
  lemma TracingOnlyIfEnabled(env: Env, registry: seq<string>, s: State, work: Option<Error>, io: Io)
    requires !Enabled(env, "TRACE")
    ensures TraceStarted !in ProfileRun(env, registry, s, work, io).log
  {
    GatedAvoids(Enabled(env, "PROFILE_CPU"), CPU, env, s, io.cpu, TraceStarted);
    ProfileAvoids(env, registry, s, work, io, TraceStarted);
  }

  /** CPU profiling is started only when PROFILE_CPU is "1". */
  lemma CPUProfilingOnlyIfEnabled(env: Env, registry: seq<string>, s: State, work: Option<Error>, io: Io)
    requires !Enabled(env, "PROFILE_CPU")
    ensures CPUStarted !in ProfileRun(env, registry, s, work, io).log
  {
    GatedAvoids(Enabled(env, "TRACE"), Trace, env, s, io.trace, CPUStarted);
    ProfileAvoids(env, registry, s, work, io, CPUStarted);
  }

  /** After both sessions, the recorders are as they were. */
  lemma SetupKeepsRecorders(env: Env, s: State, io: Io)
    ensures var after := Apply(s, TraceRun(env, s, io).log + CPURun(env, s, io).log);
      after.tracing == s.tracing && after.profilingCPU == s.profilingCPU
  {
    var t, c := TraceRun(env, s, io), CPURun(env, s, io);
    SessionEffect(Trace, env, s, io.trace);
    var s1 := Apply(s, t.log);
    SessionEffect(CPU, env, s1, io.cpu);
    assert Recording(CPU, s1) == Recording(CPU, s);
    ApplyConcat(s, t.log, c.log);
  }

  /** A session run from a quiescent state, for a recorder that was off, leaves it quiescent. */
  lemma GatedKeepsQuiescent(on: bool, rec: Recorder, env: Env, s: State, s': State, io: SessionIo)
    requires Quiescent(s) && Quiescent(s')
    ensures Quiescent(Apply(s', Gated(on, rec, env, s, io).log))
  {
    if on {
      SessionEffect(rec, env, s', io);
      assert Recording(rec, s') == Recording(rec, s);
      if Gated(on, rec, env, s, io).log != [] {
        ClosedStaysQuiescent(s', CreatePath(rec, OutputName(rec, env)));
      }
    }
  }

  /** Both sessions, run from a quiescent state, leave it quiescent. */
  lemma SetupKeepsQuiescent(env: Env, s: State, io: Io)
    requires Quiescent(s)
    ensures Quiescent(Apply(s, TraceRun(env, s, io).log))
    ensures Quiescent(Apply(s, TraceRun(env, s, io).log + CPURun(env, s, io).log))
  {
    var t, c := TraceRun(env, s, io), CPURun(env, s, io);
    GatedKeepsQuiescent(Enabled(env, "TRACE"), Trace, env, s, s, io.trace);
    GatedKeepsQuiescent(Enabled(env, "PROFILE_CPU"), CPU, env, s, Apply(s, t.log), io.cpu);
    ApplyConcat(s, t.log, c.log);
  }

  /** The workload's event changes nothing. */
  lemma RanChangesNothing(s: State, log: seq<Event>)
    ensures Apply(s, log + [Ran]) == Apply(s, log)
  {
    ApplyAppend(s, log, Ran);
  }

  /** `Profile` leaves a quiescent process quiescent: every file it opened is closed, no recorder runs. */
  lemma ProfileLeavesNothingOpen(env: Env, registry: seq<string>, s: State, work: Option<Error>, io: Io)
    requires Quiescent(s)
    ensures Quiescent(Apply(s, ProfileRun(env, registry, s, work, io).log))
  {
    var t, c := TraceRun(env, s, io), CPURun(env, s, io);
    var setup := t.log + c.log;
    SetupKeepsQuiescent(env, s, io);
    if t.err.None? && c.err.None? {
      var d := Dumps(env, registry, registry, io.dump);
      RanChangesNothing(s, setup);
      if work.None? {
        assert ProfileRun(env, registry, s, work, io).log == setup + [Ran] + d.log;
        DumpsCloseTheirFiles(env, registry, registry, io.dump, Apply(s, setup + [Ran]));
        ApplyConcat(s, setup + [Ran], d.log);
      }
    }
  }
}
