/**
 * Reading configuration from the process environment: boolean flags and
 * required or optional variables. The environment is a map from variable
 * names to values; the errors the source throws are `Err` results.
 */
module Env {
  import opened Wrappers

  datatype EnvError =
    | InvalidBool(value: string)    // `InvalidBoolError`, carrying the lower-cased value
    | MissingVariable(key: string)  // a required variable that is not set

  /** The spellings read as true and as false, after lower-casing. */
  const TRUE_VALUES: set<string> := {"1", "t", "y", "true"}
  const FALSE_VALUES: set<string> := {"0", "f", "n", "false"}

  /** The value a flag has when its variable is not set. */
  const FLAG_DEFAULT := "0"

  /** Lower-cases one character; only the ASCII letters A-Z change. */
  function LowerChar(c: char): (r: char)
    ensures 'A' <= c <= 'Z' ==> 'a' <= r <= 'z' && r as int - c as int == 32
    ensures !('A' <= c <= 'Z') ==> r == c
  {
    if 'A' <= c <= 'Z' then (c as int + 32) as char else c
  }

  /** `value.toLowerCase()`, restricted to ASCII letters. */
  function ToLower(s: string): (r: string)
    ensures |r| == |s|
    ensures forall i :: 0 <= i < |s| ==> r[i] == LowerChar(s[i])
  {
    seq(|s|, i requires 0 <= i < |s| => LowerChar(s[i]))
  }

  /** `parseBool`: lower-case, then look the value up in the two sets, else fail. */
  function ParseBool(value: string): (r: Result<bool, EnvError>)
    ensures r == Ok(true) <==> ToLower(value) in TRUE_VALUES
    ensures r == Ok(false) <==> ToLower(value) in FALSE_VALUES
    ensures r.Err? <==> ToLower(value) !in TRUE_VALUES + FALSE_VALUES
    ensures r.Err? ==> r.error == InvalidBool(ToLower(value))
  {
    var lowered := ToLower(value);
    if lowered in TRUE_VALUES then Ok(true)
    else if lowered in FALSE_VALUES then Ok(false)
    else Err(InvalidBool(lowered))
  }

  /** `getEnv(key, required = true)`: the variable's value, failing only when it is required and not set. */
  function GetEnv(env: map<string, string>, key: string, required: bool := true): (r: Result<Option<string>, EnvError>)
    ensures r.Err? <==> required && key !in env
    ensures r.Err? ==> r.error == MissingVariable(key)
    ensures r.Ok? && key in env ==> r.value == Some(env[key])
    ensures r.Ok? && key !in env ==> r.value == None
    ensures required && r.Ok? ==> r.value.Some?
  {
    if required && key !in env then Err(MissingVariable(key))
    else if key in env then Ok(Some(env[key]))
    else Ok(None)
  }

  /** `parseBool(getEnv(key, false) ?? "0")`, the way `DEBUG` and `SENTRY_DEBUG` are read. */
  function ParseFlag(env: map<string, string>, key: string): (r: Result<bool, EnvError>)
    ensures key !in env ==> r == Ok(false)
    ensures key in env ==> r == ParseBool(env[key])
  {
    var optional := GetEnv(env, key, false);
    assert ToLower(FLAG_DEFAULT) == FLAG_DEFAULT;
    ParseBool(optional.value.GetOr(FLAG_DEFAULT))
  }

  // ---- Properties ----

  /** Lower-casing twice changes nothing more. */
  lemma ToLowerIdempotent(s: string)
    ensures ToLower(ToLower(s)) == ToLower(s)
  {
  }

  /** No spelling means both true and false. */
  lemma AcceptedSetsDisjoint()
    ensures TRUE_VALUES !! FALSE_VALUES
  {
  }

  /** The result depends on the value only up to ASCII case. */
  lemma ParseBoolCaseInsensitive(value: string)
    ensures ParseBool(value) == ParseBool(ToLower(value))
  {
    ToLowerIdempotent(value);
  }

  /**
   * Two values that lower-case alike parse alike; in particular every upper- or
   * mixed-case spelling of an accepted word is accepted with the same meaning.
   */
  lemma ParseBoolSameLower(v1: string, v2: string)
    requires ToLower(v1) == ToLower(v2)
    ensures ParseBool(v1) == ParseBool(v2)
  {
  }

  /** Examples: upper case is accepted, `yes`/`no` are not. */
  lemma ParseBoolExamples()
    ensures ParseBool("TRUE") == Ok(true) && ParseBool("F") == Ok(false)
    ensures ParseBool("yes") == Err(InvalidBool("yes")) && ParseBool("No") == Err(InvalidBool("no"))
  {
    assert ToLower("TRUE") == "true";
    assert ToLower("F") == "f";
    assert ToLower("yes") == "yes";
    assert ToLower("No") == "no";
  }

  /** An unset `DEBUG` or `SENTRY_DEBUG` reads as false; a set one is parsed like any other value. */
  lemma DebugFlagsDefaultFalse(env: map<string, string>)
    ensures "DEBUG" !in env ==> ParseFlag(env, "DEBUG") == Ok(false)
    ensures "SENTRY_DEBUG" !in env ==> ParseFlag(env, "SENTRY_DEBUG") == Ok(false)
    ensures "DEBUG" in env ==> ParseFlag(env, "DEBUG") == ParseBool(env["DEBUG"])
    ensures "SENTRY_DEBUG" in env ==> ParseFlag(env, "SENTRY_DEBUG") == ParseBool(env["SENTRY_DEBUG"])
  {
  }
}
