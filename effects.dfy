/**
 * The effects the harness has on the process, as a log of events, and the
 * abstract runtime state that the log produces: which files exist and whether
 * each is still open, and whether execution tracing and CPU profiling are recording.
 */
module Effects {

  datatype Event =
    | Created(path: string)                // os.Create succeeded: the file exists and is open
    | Closed(path: string)                 // f.Close was called: the handle is released
    | TraceStarted | TraceStopped          // trace.Start succeeded / trace.Stop
    | CPUStarted | CPUStopped              // pprof.StartCPUProfile succeeded / pprof.StopCPUProfile
    | Wrote(profile: string, path: string) // a profile snapshot was written to the file
    | Ran                                  // the workload was called

  /** Files created so far (true while open) and the two global recorders. */
  datatype State = State(files: map<string, bool>, tracing: bool, profilingCPU: bool)

  /** The effect of one event. */
  function Step(s: State, e: Event): State {
    match e
    case Created(p) => s.(files := s.files[p := true])
    case Closed(p) => s.(files := s.files[p := false])
    case TraceStarted => s.(tracing := true)
    case TraceStopped => s.(tracing := false)
    case CPUStarted => s.(profilingCPU := true)
    case CPUStopped => s.(profilingCPU := false)
    case Wrote(_, _) => s
    case Ran => s
  }

  /** The state after the events of `log`, in order, starting from `s`. */
  function Apply(s: State, log: seq<Event>): State
    decreases |log|
  {
    if log == [] then s else Step(Apply(s, log[..|log| - 1]), log[|log| - 1])
  }

  /** No recording is active and no file is left open. */
  predicate Quiescent(s: State) {
    !s.tracing && !s.profilingCPU && forall p :: p in s.files ==> !s.files[p]
  }

  /** Concatenation of logs is associative. */
  lemma AppendAssoc(a: seq<Event>, b: seq<Event>, c: seq<Event>)
    ensures a + b + c == a + (b + c)
  {
  }

  /** One more event: one more step. */
  lemma ApplyAppend(s: State, log: seq<Event>, e: Event)
    ensures Apply(s, log + [e]) == Step(Apply(s, log), e)
  {
    assert (log + [e])[..|log|] == log;
  }

  /** Running two logs one after the other is running their concatenation. */
  lemma {:induction false} ApplyConcat(s: State, a: seq<Event>, b: seq<Event>)
    ensures Apply(s, a + b) == Apply(Apply(s, a), b)
    decreases |b|
  {
    if b == [] {
      assert a + b == a;
    } else {
      ApplyConcat(s, a, b[..|b| - 1]);
      assert (a + b)[..|a + b| - 1] == a + b[..|b| - 1];
    }
  }
}
