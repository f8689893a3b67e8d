/**
 * Go error values as the bot's `package main` builds them: package-level
 * sentinels, opaque errors coming back from the OS, the runtime or the network,
 * `fmt.Errorf` wrappers and `errors.Join`. Messages are not modelled; what is
 * kept is which sentinels `errors.Is` can find in an error's tree.
 */
module GoErrors {
  import opened Wrappers

  /** The sentinels declared with `errors.New` at package level. */
  datatype Kind =
    | InvalidProfile
    | CannotCreateTraceFile
    | CannotStartTrace
    | CannotCreateCPUFile
    | CannotProfileCPU
    | CannotWriteProfile
    | CannotCloseFile
    | CannotCreateFile
    | UnsafeFilename
    | MissingToken

  /** An error returned by code outside the package; only its origin is kept. */
  datatype Failure =
    | CreateFailed(path: string)
    | CloseFailed(path: string)
    | TraceStartFailed
    | CPUStartFailed
    | WriteFailed(profile: string)
    | ConnectFailed

  datatype Error =
    | Sentinel(kind: Kind)                      // one of the package-level sentinels
    | Text(text: string)                        // errors.New(text)
    | Os(failure: Failure)                      // an error from os, the runtime or the network
    | Wrap(kind: Kind, causes: seq<Error>)      // fmt.Errorf("%w: %w", sentinel, cause); a nil cause is dropped
    | Tag(kind: Kind, name: string)             // fmt.Errorf("%w: %s", sentinel, name)
    | Annotated(prefix: string, cause: Error)   // fmt.Errorf("prefix: %w", cause)
    | Joined(errs: seq<Error>)                  // errors.Join of the non-nil arguments

  /** `errors.Is(e, k)`: the sentinel `k` occurs somewhere in the tree of `e`. */
  predicate Is(e: Error, k: Kind)
    decreases e
  {
    match e
    case Sentinel(k') => k' == k
    case Text(_) => false
    case Os(_) => false
    case Wrap(k', causes) => k' == k || exists i :: 0 <= i < |causes| && Is(causes[i], k)
    case Tag(k', _) => k' == k
    case Annotated(_, cause) => Is(cause, k)
    case Joined(errs) => exists i :: 0 <= i < |errs| && Is(errs[i], k)
  }

  /** `errors.Join(a, b)`: nil when both are nil, otherwise the non-nil ones, in order. */
  function Join(a: Option<Error>, b: Option<Error>): (r: Option<Error>)
    ensures r.None? <==> a.None? && b.None?
  {
    var errs := (if a.Some? then [a.value] else []) + (if b.Some? then [b.value] else []);
    if errs == [] then None else Some(Joined(errs))
  }

  /** Joining loses nothing: every sentinel of either error is found in the join, and no other. */
  lemma JoinKeepsBoth(a: Option<Error>, b: Option<Error>, k: Kind)
    requires a.Some? || b.Some?
    ensures Is(Join(a, b).value, k) <==> (a.Some? && Is(a.value, k)) || (b.Some? && Is(b.value, k))
  {
    var errs := Join(a, b).value.errs;
    if a.Some? && Is(a.value, k) {
      assert errs[0] == a.value;
    }
    if b.Some? && Is(b.value, k) {
      assert errs[|errs| - 1] == b.value;
    }
  }
}
