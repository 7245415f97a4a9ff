/**
 * The process environment as src/Tasks.php reads it through `getenv`: a map
 * from variable names to values, fixed for a run.
 */
module Environment {
  import opened PhpValue

  /** `getenv($name)` used as a condition: the variable is set and is neither "" nor "0". */
  predicate EnvTruthy(env: map<string, string>, name: string) {
    name in env && StrTruthy(env[name])
  }

  /** `getenv($name)` as a value: the variable's string, or `false` when it is unset. */
  function GetEnv(env: map<string, string>, name: string): (r: Value)
    ensures Truthy(r) <==> EnvTruthy(env, name)
    ensures name in env <==> r.Str?
  {
    if name in env then Str(env[name]) else Bool(false)
  }
}
