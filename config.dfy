/**
 * The harness's configuration: process environment variables looked up with
 * `os.Getenv`, and the output names derived from them (cmd/adan-bot/profiling.go).
 */
module Config {

  /** The process environment: variables that are set, with their values. */
  type Env = map<string, string>

  /** `os.Getenv`: the value of a set variable, and `""` for one that is not set. */
  function Getenv(env: Env, key: string): string {
    if key in env then env[key] else ""
  }

  /** A flag is on only when its variable is exactly `"1"`. */
  predicate Enabled(env: Env, key: string) {
    Getenv(env, key) == "1"
  }

  /**
   * An output name: the variable's value when it is set and non-empty, else the default.
   */
  function FileSetting(env: Env, key: string, fallback: string): (name: string)
    ensures key in env && env[key] != "" ==> name == env[key]
    ensures key !in env || env[key] == "" ==> name == fallback
  {
    var v := Getenv(env, key);
    if v != "" then v else fallback
  }

  /** Where the execution trace goes: `TRACE_FILE`, default `trace.out`. */
  function TraceFile(env: Env): (name: string)
    ensures name != "" && ("TRACE_FILE" !in env ==> name == "trace.out")
  {
    FileSetting(env, "TRACE_FILE", "trace.out")
  }

  /** Where the CPU profile goes: `PROFILE_CPU_FILE`, default `cpu.pprof`. */
  function CPUFile(env: Env): (name: string)
    ensures name != "" && ("PROFILE_CPU_FILE" !in env ==> name == "cpu.pprof")
  {
    FileSetting(env, "PROFILE_CPU_FILE", "cpu.pprof")
  }

  /** `unicode.ToUpper` on ASCII letters; every other character is kept. */
  function UpperChar(c: char): char {
    if 'a' <= c <= 'z' then (c as int - 'a' as int + 'A' as int) as char else c
  }

  /** `strings.ToUpper`, for ASCII case mapping. */
  function ToUpper(s: string): (u: string)
    ensures |u| == |s|
    ensures forall i :: 0 <= i < |s| ==> !('a' <= u[i] <= 'z')
    ensures forall i :: 0 <= i < |s| ==> ('A' <= u[i] <= 'Z' <==> 'A' <= s[i] <= 'Z' || 'a' <= s[i] <= 'z')
    ensures forall i :: 0 <= i < |s| ==>
      if 'a' <= s[i] <= 'z' then u[i] as int == s[i] as int - 32 else u[i] == s[i]
  {
    seq(|s|, i requires 0 <= i < |s| => UpperChar(s[i]))
  }

  /** The variable that enables dumping the runtime profile `name`: `PROFILE_` and the upper-cased name. */
  function ProfileVar(name: string): (v: string)
    ensures |v| == 8 + |name| && v[..8] == "PROFILE_" && v[8..] == ToUpper(name)
  {
    "PROFILE_" + ToUpper(name)
  }

  /** Where the runtime profile `name` goes: `PROFILE_<NAME>_FILE`, default `<name>.pprof`. */
  function ProfileFile(env: Env, name: string): (fname: string)
    ensures fname != ""
    ensures ProfileVar(name) + "_FILE" !in env ==> fname == name + ".pprof"
  {
    FileSetting(env, ProfileVar(name) + "_FILE", name + ".pprof")
  }

  // ---------------------------------------------------------------------------

  /** Output names are never empty: an empty or missing setting falls back to a non-empty default. */
  lemma OutputNamesNonEmpty(env: Env, name: string)
    ensures TraceFile(env) != "" && CPUFile(env) != "" && ProfileFile(env, name) != ""
  {
  }

  /** With nothing configured the defaults are used. */
  lemma DefaultOutputNames(name: string)
    ensures TraceFile(map[]) == "trace.out" && CPUFile(map[]) == "cpu.pprof"
    ensures ProfileFile(map[], name) == name + ".pprof"
  {
  }

  /** Upper-casing is idempotent. */
  lemma ToUpperIdempotent(s: string)
    ensures ToUpper(ToUpper(s)) == ToUpper(s)
  {
  }

  /** The runtime's heap profile is enabled by `PROFILE_HEAP` and written to `PROFILE_HEAP_FILE`. */
  lemma HeapProfileVar()
    ensures ProfileVar("heap") == "PROFILE_HEAP"
    ensures ProfileVar("heap") + "_FILE" == "PROFILE_HEAP_FILE"
  {
    var u := ToUpper("heap");
    assert u[0] == 'H' && u[1] == 'E' && u[2] == 'A' && u[3] == 'P';
    assert u == "HEAP";
  }

  /** Profile names that differ only in the case of ASCII letters share their enabling variable. */
  lemma ProfileVarIgnoresCase(name: string)
    ensures ProfileVar(ToUpper(name)) == ProfileVar(name)
  {
    ToUpperIdempotent(name);
  }
}
