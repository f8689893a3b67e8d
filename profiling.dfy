/**
 * The profiling harness of cmd/adan-bot/profiling.go.
 *
 * The pure functions here say what each step of the harness returns and which
 * events it causes, given the outcomes of the I/O it meets; class `Process`
 * holds the runtime state the Go code changes (files, the two global
 * recorders) and its methods follow the Go functions statement by statement,
 * each proved to do what the matching function says.
 */
module Profiling {
  import opened Wrappers
  import opened GoErrors
  import opened FilePaths
  import opened Config
  import opened Effects

  /** Outcomes of the I/O a recording session meets: os.Create, the recorder's start, f.Close. */
  datatype SessionIo = SessionIo(createOk: bool, startOk: bool, closeOk: bool)

  /** Outcomes of the I/O a profile dump meets: os.Create, prof.WriteTo, f.Close. */
  datatype DumpIo = DumpIo(createOk: bool, writeOk: bool, closeOk: bool)

  /** Every I/O outcome one call of `Profile` can meet; dumps are looked up by profile name. */
  datatype Io = Io(trace: SessionIo, cpu: SessionIo, dump: string -> DumpIo)

  /** What a step returns (None for a nil error) and the events it causes, in order. */
  datatype Run = Run(err: Option<Error>, log: seq<Event>)

  /** The two global recorders a session can drive. */
  datatype Recorder = Trace | CPU

  /** The error for a refused output name: errUnsafeFilename wrapping errors.New(fname). */
  function Unsafe(fname: string): Error {
    Wrap(UnsafeFilename, [Text(fname)])
  }

  function OutputName(rec: Recorder, env: Env): string {
    match rec
    case Trace => TraceFile(env)
    case CPU => CPUFile(env)
  }

  /** The trace file is created as filepath.Join(".", fname), the CPU profile as fname itself. */
  function CreatePath(rec: Recorder, fname: string): string {
    match rec
    case Trace => JoinDot(fname)
    case CPU => fname
  }

  function CreateKind(rec: Recorder): Kind {
    match rec
    case Trace => CannotCreateTraceFile
    case CPU => CannotCreateCPUFile
  }

  function StartKind(rec: Recorder): Kind {
    match rec
    case Trace => CannotStartTrace
    case CPU => CannotProfileCPU
  }

  function StartFailure(rec: Recorder): Failure {
    match rec
    case Trace => TraceStartFailed
    case CPU => CPUStartFailed
  }

  function StartEvent(rec: Recorder): Event {
    match rec
    case Trace => TraceStarted
    case CPU => CPUStarted
  }

  function StopEvent(rec: Recorder): Event {
    match rec
    case Trace => TraceStopped
    case CPU => CPUStopped
  }

  function Recording(rec: Recorder, s: State): bool {
    match rec
    case Trace => s.tracing
    case CPU => s.profilingCPU
  }

  /**
   * `startTraceProfiling` / `startCPUProfiling`: refuse an unsafe output name,
   * otherwise record into the file the recorder's output goes to.
   */
  function Session(rec: Recorder, env: Env, active: bool, io: SessionIo): Run {
    var fname := OutputName(rec, env);
    if !IsSafeFilename(fname) then Run(Some(Unsafe(fname)), [])
    else Recorded(rec, CreatePath(rec, fname), active, io)
  }

  /**
   * The rest of a session, from creating the file at `path` on: start the
   * recorder (which fails if that recorder is already `active`), then, in the
   * order the deferred calls run, stop the recorder if it started and close
   * the file, joining a close error onto whatever is being returned.
   */
  function Recorded(rec: Recorder, path: string, active: bool, io: SessionIo): Run {
    if !io.createOk then Run(Some(Wrap(CreateKind(rec), [Os(CreateFailed(path))])), [])
    else
      var started := io.startOk && !active;
      var startErr := if started then None else Some(Wrap(StartKind(rec), [Os(StartFailure(rec))]));
      var err :=
        if io.closeOk then startErr
        else Join(startErr, Some(Wrap(CannotCloseFile, [Os(CloseFailed(path))])));
      Run(err, SessionLog(rec, path, started))
  }

  /** A session logs nothing unless its file was created, and then the events of `SessionLog`. */
  lemma SessionLogOf(rec: Recorder, env: Env, active: bool, io: SessionIo)
    ensures var fname := OutputName(rec, env);
      Session(rec, env, active, io).log ==
        if IsSafeFilename(fname) && io.createOk then SessionLog(rec, CreatePath(rec, fname), io.startOk && !active)
        else []
  {
  }

  /** The events of a session whose file was created: the recorder runs only if it started, inside the file's lifetime. */
  function SessionLog(rec: Recorder, path: string, started: bool): seq<Event> {
    [Created(path)] + (if started then [StartEvent(rec), StopEvent(rec)] else []) + [Closed(path)]
  }

  /** A log extended by a session's events, one at a time, is extended by the session's log. */
  lemma SessionLogAppend(e0: seq<Event>, rec: Recorder, path: string, started: bool)
    ensures var mid := if started then [StartEvent(rec), StopEvent(rec)] else [];
      e0 + [Created(path)] + mid + [Closed(path)] == e0 + SessionLog(rec, path, started)
  {
    var mid := if started then [StartEvent(rec), StopEvent(rec)] else [];
    AppendAssoc(e0, [Created(path)], mid);
    AppendAssoc(e0, [Created(path)] + mid, [Closed(path)]);
  }

  /** A recorder started and stopped again leaves the state as it was. */
  lemma StartStopEffect(rec: Recorder, s: State)
    requires !Recording(rec, s)
    ensures Apply(s, [StartEvent(rec), StopEvent(rec)]) == s
  {
    ApplyAppend(s, [StartEvent(rec)], StopEvent(rec));
    ApplyAppend(s, [], StartEvent(rec));
    assert [StartEvent(rec)] + [StopEvent(rec)] == [StartEvent(rec), StopEvent(rec)];
    assert [] + [StartEvent(rec)] == [StartEvent(rec)];
  }

  /** Creating a file and closing it again leaves it closed, whatever it was before. */
  lemma CreateCloseStep(s: State, path: string)
    ensures Step(Step(s, Created(path)), Closed(path)) == s.(files := s.files[path := false])
  {
    MapUpdateTwice(s.files, path, true, false);
  }

  /** A file created, then events that leave the state as they found it, then the file closed. */
  lemma BracketEffect(s: State, path: string, mid: seq<Event>)
    requires Apply(Step(s, Created(path)), mid) == Step(s, Created(path))
    ensures Apply(s, [Created(path)] + mid + [Closed(path)]) == Step(Step(s, Created(path)), Closed(path))
  {
    var open := [Created(path)];
    ApplyAppend(s, [], Created(path));
    assert [] + [Created(path)] == open;
    ApplyConcat(s, open, mid);
    ApplyAppend(s, open + mid, Closed(path));
  }

  /** A session leaves its file closed and its recorder as it found it. */
  lemma SessionLogEffect(rec: Recorder, s: State, path: string, started: bool)
    requires started ==> !Recording(rec, s)
    ensures Apply(s, SessionLog(rec, path, started)) == s.(files := s.files[path := false])
  {
    var s1 := Step(s, Created(path));
    if started {
      assert Recording(rec, s1) == Recording(rec, s);
      StartStopEffect(rec, s1);
      BracketEffect(s, path, [StartEvent(rec), StopEvent(rec)]);
    } else {
      assert Apply(s1, []) == s1;
      BracketEffect(s, path, []);
    }
    CreateCloseStep(s, path);
  }

  /**
   * A session started in state `s` leaves both recorders as they were in `s`;
   * the file it created, if any, is left closed, and nothing else changes.
   */
  lemma SessionEffect(rec: Recorder, env: Env, s: State, io: SessionIo)
    ensures var r := Session(rec, env, Recording(rec, s), io);
      var after := Apply(s, r.log);
      after.tracing == s.tracing && after.profilingCPU == s.profilingCPU
      && (r.log == [] ==> after == s)
      && (r.log != [] ==> after.files == s.files[CreatePath(rec, OutputName(rec, env)) := false])
  {
    var fname := OutputName(rec, env);
    if IsSafeFilename(fname) && io.createOk {
      SessionLogEffect(rec, s, CreatePath(rec, fname), io.startOk && !Recording(rec, s));
    }
  }

  /** Setting the same key twice keeps only the second value. */
  lemma MapUpdateTwice<K, V>(m: map<K, V>, k: K, a: V, b: V)
    ensures m[k := a][k := b] == m[k := b]
  {
  }

  /**
   * `writeProfile`: an unregistered name gives errInvalidProfile; a registered
   * one is written out, and a failed write is wrapped in errCannotWriteProfile.
   */
  function WriteProfile(registry: seq<string>, name: string, writeOk: bool): (r: Option<Error>)
    ensures name !in registry ==> r == Some(Sentinel(InvalidProfile))
    ensures name in registry ==> (r.None? <==> writeOk)
    ensures r.Some? && name in registry ==> Is(r.value, CannotWriteProfile) && !Is(r.value, InvalidProfile)
  {
    if name !in registry then Some(Sentinel(InvalidProfile))
    else if !writeOk then Some(Wrap(CannotWriteProfile, [Os(WriteFailed(name))]))
    else None
  }

  /**
   * `writeProfileToFile`: check the name, create the file, write the profile;
   * on a failed write close the file, dropping the close error, and return the
   * write error; otherwise close the file and return errCannotCloseFile wrapping
   * the close result, nil or not.
   */
  function Dump(registry: seq<string>, fname: string, name: string, io: DumpIo): Run {
    if !IsSafeFilename(fname) then Run(Some(Unsafe(fname)), [])
    else if !io.createOk then Run(Some(Wrap(CannotCreateFile, [Os(CreateFailed(fname))])), [])
    else
      var w := WriteProfile(registry, name, io.writeOk);
      if w.Some? then Run(w, DumpLog(fname, name, false))
      else
        var closeErr := if io.closeOk then [] else [Os(CloseFailed(fname))];
        Run(Some(Wrap(CannotCloseFile, closeErr)), DumpLog(fname, name, true))
  }

  /** The events of a dump whose file was created: the snapshot, if written, goes in while the file is open. */
  function DumpLog(fname: string, name: string, written: bool): seq<Event> {
    [Created(fname)] + (if written then [Wrote(name, fname)] else []) + [Closed(fname)]
  }

  /** A dump's events, appended one at a time to `e`, extend `e` by its log. */
  lemma DumpLogAppend(e: seq<Event>, fname: string, name: string, written: bool)
    ensures e + [Created(fname)] + (if written then [Wrote(name, fname)] else []) + [Closed(fname)]
      == e + DumpLog(fname, name, written)
  {
    var mid := if written then [Wrote(name, fname)] else [];
    AppendAssoc(e, [Created(fname)] + mid, [Closed(fname)]);
    AppendAssoc(e, [Created(fname)], mid);
  }

  /** A dump leaves its file closed and the recorders as they were. */
  lemma DumpLogEffect(s: State, fname: string, name: string, written: bool)
    ensures Apply(s, DumpLog(fname, name, written)) == s.(files := s.files[fname := false])
  {
    var mid := if written then [Wrote(name, fname)] else [];
    ApplyConcat(s, [Created(fname)] + mid, [Closed(fname)]);
    ApplyConcat(s, [Created(fname)], mid);
    ApplyAppend(s, [], Created(fname));
    var s1 := s.(files := s.files[fname := true]);
    assert Apply(s, [Created(fname)]) == s1;
    if written {
      ApplyAppend(s1, [], Wrote(name, fname));
    }
    ApplyAppend(s1, [], Closed(fname));
    MapUpdateTwice(s.files, fname, true, false);
  }

  /**
   * The dump loop of `Profile` over `names`: skip a name whose `PROFILE_<NAME>`
   * is not "1"; dump the others to their configured file; stop at the first
   * failed dump with errCannotWriteProfile tagged with the name.
   */
  function Dumps(env: Env, registry: seq<string>, names: seq<string>, dump: string -> DumpIo): Run
    decreases |names|
  {
    if names == [] then Run(None, [])
    else
      var name := names[0];
      // what the names after this one do, used only when this one is skipped or succeeds
      var rest := Dumps(env, registry, names[1..], dump);
      if !Enabled(env, ProfileVar(name)) then rest
      else
        var d := Dump(registry, ProfileFile(env, name), name, dump(name));
        if d.err.Some? then Run(Some(Tag(CannotWriteProfile, name)), d.log)
        else Run(rest.err, d.log + rest.log)
  }

  /**
   * `Profile(fn)`: start the trace session when TRACE is "1" and the CPU session
   * when PROFILE_CPU is "1", returning the first setup error; call the workload,
   * returning its error unchanged; then dump the enabled runtime profiles, in
   * registry order. `s` is the process state when `Profile` is called.
   */
  function ProfileRun(env: Env, registry: seq<string>, s: State, work: Option<Error>, io: Io): Run {
    var t := TraceRun(env, s, io);
    var c := CPURun(env, s, io);
    if t.err.Some? then t
    else if c.err.Some? then Run(c.err, t.log + c.log)
    else AfterSetup(t.log + c.log, work, Dumps(env, registry, registry, io.dump))
  }

  /** The session of recorder `rec` when its flag is `on`, and nothing otherwise. */
  function Gated(on: bool, rec: Recorder, env: Env, s: State, io: SessionIo): Run {
    if on then Session(rec, env, Recording(rec, s), io) else Run(None, [])
  }

  /** The trace session `Profile` runs from state `s`: only when TRACE is "1". */
  function TraceRun(env: Env, s: State, io: Io): Run {
    Gated(Enabled(env, "TRACE"), Trace, env, s, io.trace)
  }

  /** The CPU session `Profile` runs from state `s`: only when PROFILE_CPU is "1". */
  function CPURun(env: Env, s: State, io: Io): Run {
    Gated(Enabled(env, "PROFILE_CPU"), CPU, env, s, io.cpu)
  }

  /** What `Profile` does once both sessions are done (`setup` is their log): run the workload, then dump. */
  function AfterSetup(setup: seq<Event>, work: Option<Error>, dumps: Run): Run {
    if work.Some? then Run(work, setup + [Ran])
    else Run(dumps.err, setup + [Ran] + dumps.log)
  }

  /**
   * The process the harness runs in: its environment, the runtime's profile
   * registry, the files created so far (true while open), the two global
   * recorders, and the log of everything the harness did, in order.
   */
  class Process {
    const env: Env
    const registry: seq<string>
    var files: map<string, bool>
    var tracing: bool
    var profilingCPU: bool
    var events: seq<Event>

    function Snapshot(): State
      reads this
    {
      State(files, tracing, profilingCPU)
    }

    constructor (env: Env, registry: seq<string>)
      ensures this.env == env && this.registry == registry
      ensures files == map[] && !tracing && !profilingCPU && events == []
    {
      this.env := env;
      this.registry := registry;
      files := map[];
      tracing := false;
      profilingCPU := false;
      events := [];
    }

    // -------------------------------------------------------------------------
    // The operating-system and runtime calls the harness makes, each with the
    // outcome it has in this run. Each logs its event and changes the state as `Step` says.

    /** os.Create that succeeded: the file exists and is open. */
    method Create(path: string)
      modifies this
      ensures events == old(events) + [Created(path)]
      ensures files == old(files)[path := true] && tracing == old(tracing) && profilingCPU == old(profilingCPU)
    {
      files := files[path := true];
      events := events + [Created(path)];
    }

    /** f.Close: the handle is released whether or not an error is reported; `noError` says none was. */
    method Close(path: string, ok: bool) returns (noError: bool)
      modifies this
      ensures events == old(events) + [Closed(path)] && noError == ok
      ensures files == old(files)[path := false] && tracing == old(tracing) && profilingCPU == old(profilingCPU)
    {
      files := files[path := false];
      events := events + [Closed(path)];
      noError := ok;
    }

    /** trace.Start: fails when tracing is already on. */
    method TraceStart(ok: bool) returns (started: bool)
      modifies this
      ensures started == (ok && !old(tracing))
      ensures events == old(events) + if started then [TraceStarted] else []
      ensures files == old(files) && tracing == (old(tracing) || started) && profilingCPU == old(profilingCPU)
    {
      started := ok && !tracing;
      if started {
        tracing := true;
        events := events + [TraceStarted];
      }
    }

    /** trace.Stop. */
    method TraceStop()
      modifies this
      ensures events == old(events) + [TraceStopped]
      ensures files == old(files) && !tracing && profilingCPU == old(profilingCPU)
    {
      tracing := false;
      events := events + [TraceStopped];
    }

    /** pprof.StartCPUProfile: fails when CPU profiling is already on. */
    method CPUStart(ok: bool) returns (started: bool)
      modifies this
      ensures started == (ok && !old(profilingCPU))
      ensures events == old(events) + if started then [CPUStarted] else []
      ensures files == old(files) && tracing == old(tracing) && profilingCPU == (old(profilingCPU) || started)
    {
      started := ok && !profilingCPU;
      if started {
        profilingCPU := true;
        events := events + [CPUStarted];
      }
    }

    /** pprof.StopCPUProfile. */
    method CPUStop()
      modifies this
      ensures events == old(events) + [CPUStopped]
      ensures files == old(files) && tracing == old(tracing) && !profilingCPU
    {
      profilingCPU := false;
      events := events + [CPUStopped];
    }

    /** prof.WriteTo(f, 0) for a registered profile. */
    method WriteTo(name: string, path: string, ok: bool) returns (written: bool)
      modifies this
      ensures written == ok
      ensures events == old(events) + if ok then [Wrote(name, path)] else []
      ensures files == old(files) && tracing == old(tracing) && profilingCPU == old(profilingCPU)
    {
      written := ok;
      if ok {
        events := events + [Wrote(name, path)];
      }
    }

    /** The workload `fn`, with the outcome it has in this run. */
    method CallWorkload(work: Option<Error>) returns (err: Option<Error>)
      modifies this
      ensures events == old(events) + [Ran] && err == work
      ensures files == old(files) && tracing == old(tracing) && profilingCPU == old(profilingCPU)
    {
      events := events + [Ran];
      err := work;
    }

    // -------------------------------------------------------------------------
    // The harness

    /**
     * The part `startTraceProfiling` and `startCPUProfiling` share, from
     * os.Create on, for the recorder `rec` and its output file `path`.
     */
    method Record(rec: Recorder, path: string, io: SessionIo) returns (err: Option<Error>)
      modifies this
      ensures var r := Recorded(rec, path, Recording(rec, old(Snapshot())), io);
        err == r.err && events == old(events) + r.log && Snapshot() == Apply(old(Snapshot()), r.log)
    {
      if !io.createOk {
        return Some(Wrap(CreateKind(rec), [Os(CreateFailed(path))]));
      }
      ghost var s0, e0 := Snapshot(), events;
      Create(path);
      ghost var open := files;
      ghost var e1 := events;
      var started;
      if rec == Trace {
        started := TraceStart(io.startOk);
      } else {
        started := CPUStart(io.startOk);
      }
      if !started {
        err := Some(Wrap(StartKind(rec), [Os(StartFailure(rec))]));
      } else {
        err := None;
      }
      ghost var mid := if started then [StartEvent(rec), StopEvent(rec)] else [];
      // deferred calls, last registered first
      if started {
        if rec == Trace {
          TraceStop();
        } else {
          CPUStop();
        }
      }
      assert events == e1 + mid;
      assert files == open && tracing == s0.tracing && profilingCPU == s0.profilingCPU;
      var closeOk := Close(path, io.closeOk);
      if !closeOk {
        err := Join(err, Some(Wrap(CannotCloseFile, [Os(CloseFailed(path))])));
      }
      assert err == Recorded(rec, path, Recording(rec, s0), io).err;
      SessionLogAppend(e0, rec, path, started);
      SessionLogEffect(rec, s0, path, started);
      assert files == s0.files[path := false] by {
        MapUpdateTwice(s0.files, path, true, false);
      }
    }

    /** `startTraceProfiling`. */
    method StartTraceProfiling(io: SessionIo) returns (err: Option<Error>)
      modifies this
      ensures var r := Session(Trace, env, old(tracing), io);
        err == r.err && events == old(events) + r.log && Snapshot() == Apply(old(Snapshot()), r.log)
    {
      var fname := TraceFile(env);
      if !IsSafeFilename(fname) {
        return Some(Unsafe(fname));
      }
      err := Record(Trace, JoinDot(fname), io);
    }

    /** `startCPUProfiling`. */
    method StartCPUProfiling(io: SessionIo) returns (err: Option<Error>)
      modifies this
      ensures var r := Session(CPU, env, old(profilingCPU), io);
        err == r.err && events == old(events) + r.log && Snapshot() == Apply(old(Snapshot()), r.log)
    {
      var fname := CPUFile(env);
      if !IsSafeFilename(fname) {
        return Some(Unsafe(fname));
      }
      err := Record(CPU, fname, io);
    }

    /** `writeProfileToFile`: never returns nil. */
    method WriteProfileToFile(fname: string, name: string, io: DumpIo) returns (err: Option<Error>)
      modifies this
      ensures var r := Dump(registry, fname, name, io);
        err == r.err && events == old(events) + r.log && Snapshot() == Apply(old(Snapshot()), r.log)
      ensures err.Some?
    {
      if !IsSafeFilename(fname) {
        return Some(Unsafe(fname));
      }
      if !io.createOk {
        return Some(Wrap(CannotCreateFile, [Os(CreateFailed(fname))]));
      }
      ghost var s0, e0 := Snapshot(), events;
      Create(fname);
      ghost var e1 := events;
      var werr: Option<Error>;
      if name !in registry {
        werr := Some(Sentinel(InvalidProfile));
      } else {
        var written := WriteTo(name, fname, io.writeOk);
        if !written {
          werr := Some(Wrap(CannotWriteProfile, [Os(WriteFailed(name))]));
        } else {
          werr := None;
        }
      }
      assert werr == WriteProfile(registry, name, io.writeOk);
      assert events == e1 + if werr.None? then [Wrote(name, fname)] else [];
      assert files == s0.files[fname := true];
      ghost var e2 := events;
      var closeOk := Close(fname, io.closeOk);
      DumpLogEffect(s0, fname, name, werr.None?);
      MapUpdateTwice(s0.files, fname, true, false);
      DumpLogAppend(e0, fname, name, werr.None?);
      if werr.Some? {
        return werr;
      }
      err := Some(Wrap(CannotCloseFile, if closeOk then [] else [Os(CloseFailed(fname))]));
    }

    /** `Profile(fn)`, with the workload's outcome `work`. */
    method Profile(work: Option<Error>, io: Io) returns (err: Option<Error>)
      modifies this
      ensures var r := ProfileRun(env, registry, old(Snapshot()), work, io);
        err == r.err && events == old(events) + r.log && Snapshot() == Apply(old(Snapshot()), r.log)
    {
      ghost var s0, e0 := Snapshot(), events;
      ghost var t, c := TraceRun(env, s0, io), CPURun(env, s0, io);
      err := StartRecorders(io);
      if err.Some? {
        return;
      }
      ghost var setup := t.log + c.log;
      ghost var all := Dumps(env, registry, registry, io.dump);
      ghost var rest := AfterSetup([], work, all).log;
      err := RunAndDump(work, io);
      ApplyConcat(s0, setup, rest);
      AppendAssoc(e0, setup, rest);
      if work.Some? {
        assert setup + rest == setup + [Ran];
      } else {
        assert rest == [Ran] + all.log;
        AppendAssoc(setup, [Ran], all.log);
      }
    }

    /** The rest of `Profile` once both sessions are running: the workload, then, if it succeeded, the dumps. */
    method RunAndDump(work: Option<Error>, io: Io) returns (err: Option<Error>)
      modifies this
      ensures var r := AfterSetup([], work, Dumps(env, registry, registry, io.dump));
        err == r.err && events == old(events) + r.log && Snapshot() == Apply(old(Snapshot()), r.log)
    {
      ghost var s0, e0 := Snapshot(), events;
      err := CallWorkload(work);
      ApplyAppend(s0, [], Ran);
      if err.Some? {
        return;
      }
      ghost var all := Dumps(env, registry, registry, io.dump);
      err := DumpProfiles(io.dump);
      ApplyConcat(s0, [Ran], all.log);
      AppendAssoc(e0, [Ran], all.log);
      assert [] + [Ran] == [Ran];
    }

    /**
     * The start of `Profile`: the trace session when TRACE is "1", then the CPU
     * session when PROFILE_CPU is "1"; a failed trace session skips the CPU one.
     */
    method StartRecorders(io: Io) returns (err: Option<Error>)
      modifies this
      ensures var t, c := TraceRun(env, old(Snapshot()), io), CPURun(env, old(Snapshot()), io);
        var log := if t.err.Some? then t.log else t.log + c.log;
        err == (if t.err.Some? then t.err else c.err)
        && events == old(events) + log && Snapshot() == Apply(old(Snapshot()), log)
    {
      ghost var s0, e0 := Snapshot(), events;
      ghost var t, c := TraceRun(env, s0, io), CPURun(env, s0, io);
      err := None;
      if Getenv(env, "TRACE") == "1" {
        err := StartTraceProfiling(io.trace);
        if err.Some? {
          return;
        }
        SessionEffect(Trace, env, s0, io.trace);
      }
      assert events == e0 + t.log && Snapshot() == Apply(s0, t.log);
      assert profilingCPU == s0.profilingCPU;
      if Getenv(env, "PROFILE_CPU") == "1" {
        err := StartCPUProfiling(io.cpu);
      } else {
        assert t.log + c.log == t.log;
      }
      ApplyConcat(s0, t.log, c.log);
      AppendAssoc(e0, t.log, c.log);
    }

    /**
     * The loop at the end of `Profile`: visit the registry's profiles in order
     * and dump each enabled one; the first failed dump ends the loop.
     */
    method DumpProfiles(dump: string -> DumpIo) returns (err: Option<Error>)
      modifies this
      ensures var d := Dumps(env, registry, registry, dump);
        err == d.err && events == old(events) + d.log && Snapshot() == Apply(old(Snapshot()), d.log)
    {
      ghost var s0, e0 := Snapshot(), events;
      ghost var all := Dumps(env, registry, registry, dump);
      assert registry[0..] == registry;
      for i := 0 to |registry|
        invariant events == e0 && Snapshot() == s0
        invariant all == Dumps(env, registry, registry[i..], dump)
      {
        assert registry[i..][1..] == registry[i + 1..];
        var name := registry[i];
        var ev := "PROFILE_" + ToUpper(name);
        if Getenv(env, ev) != "1" {
          continue;
        }
        var fname: string;
        var v := Getenv(env, ev + "_FILE");
        if v != "" {
          fname := v;
        } else {
          fname := name + ".pprof";
        }
        assert fname == ProfileFile(env, name);
        var derr := WriteProfileToFile(fname, name, dump(name));
        if derr.Some? {
          assert all == Run(Some(Tag(CannotWriteProfile, name)), Dump(registry, fname, name, dump(name)).log);
          return Some(Tag(CannotWriteProfile, name));
        }
        // writeProfileToFile never returns nil, so the first enabled profile ends the loop
        assert false;
      }
      assert registry[|registry|..] == [];
      return None;
    }
  }
}
