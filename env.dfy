/** Reading a required configuration value that may come from either of two
    environment variables (utils/supabase/env.ts). */
module Env {
  import opened Common

  /** Either the configured value or the error that `getRequiredEnv` throws. */
  datatype EnvResult = Found(value: string) | Missing(message: string)

  /** The text of the error thrown when neither variable supplies a value. */
  function MissingMessage(primaryKey: string, fallbackKey: string): string
  {
    "Variavel ausente: configure " + primaryKey + " (ou " + fallbackKey + ")."
  }

  /** `t` occurs in `s` starting at index `i`. */
  predicate OccursAt(s: string, t: string, i: int)
  {
    0 <= i <= |s| - |t| && s[i..i + |t|] == t
  }

  /** `t` occurs somewhere inside `s`. */
  ghost predicate Contains(s: string, t: string)
  {
    exists i :: OccursAt(s, t, i)
  }

  /** `primaryValue ?? fallbackValue`, then a throw when the result is falsy.
      `??` only falls through on an undefined primary, so a defined but empty
      primary is an error even when the fallback is usable. */
  function GetRequiredEnv(primaryValue: Option<string>, fallbackValue: Option<string>,
                          primaryKey: string, fallbackKey: string): (r: EnvResult)
    ensures Truthy(primaryValue) ==> r == Found(primaryValue.value)
    ensures primaryValue.None? && Truthy(fallbackValue) ==> r == Found(fallbackValue.value)
    ensures r.Missing? <==> primaryValue == Some("") || (primaryValue.None? && !Truthy(fallbackValue))
    ensures r.Missing? ==> r.message == MissingMessage(primaryKey, fallbackKey)
    ensures r.Found? ==> r.value != ""
  {
    var value := if primaryValue.Some? then primaryValue else fallbackValue;
    if !Truthy(value) then Missing(MissingMessage(primaryKey, fallbackKey)) else Found(value.value)
  }

  /** The error message names both variables, so an operator knows which one to set. */
  lemma MissingMessageNamesBothKeys(primaryKey: string, fallbackKey: string)
    ensures Contains(MissingMessage(primaryKey, fallbackKey), primaryKey)
    ensures Contains(MissingMessage(primaryKey, fallbackKey), fallbackKey)
  {
    var m := MissingMessage(primaryKey, fallbackKey);
    var head := "Variavel ausente: configure " + primaryKey;
    var mid := head + " (ou " + fallbackKey;
    assert m == mid + ").";
    assert |head| == 28 + |primaryKey|;
    assert m[28..28 + |primaryKey|] == head[28..] == primaryKey;
    assert OccursAt(m, primaryKey, 28);
    var j := 28 + |primaryKey| + 5;
    assert m[j..j + |fallbackKey|] == mid[j..] == fallbackKey;
    assert OccursAt(m, fallbackKey, j);
  }

  /** The environment variable `key`, undefined when it is not set. */
  function Lookup(env: map<string, string>, key: string): Option<string>
  {
    if key in env then Some(env[key]) else None
  }

  /** A required setting read from the environment `env`: the variable
      `primaryKey`, else `fallbackKey`. */
  function FromEnvironment(env: map<string, string>, primaryKey: string, fallbackKey: string): (r: EnvResult)
    ensures r.Found? ==> r.value != ""
    ensures primaryKey in env && env[primaryKey] != "" ==> r == Found(env[primaryKey])
    ensures primaryKey !in env && fallbackKey in env && env[fallbackKey] != "" ==> r == Found(env[fallbackKey])
    ensures r.Found? ==>
              Lookup(env, primaryKey) == Some(r.value) ||
              (primaryKey !in env && Lookup(env, fallbackKey) == Some(r.value))
    ensures r.Missing? ==> r.message == MissingMessage(primaryKey, fallbackKey)
  {
    GetRequiredEnv(Lookup(env, primaryKey), Lookup(env, fallbackKey), primaryKey, fallbackKey)
  }

  /** The backend URL. */
  function SupabaseUrl(env: map<string, string>): EnvResult
  {
    FromEnvironment(env, "NEXT_PUBLIC_SUPABASE_URL", "SUPABASE_URL")
  }

  /** The anonymous API key. */
  function SupabaseAnonKey(env: map<string, string>): EnvResult
  {
    FromEnvironment(env, "NEXT_PUBLIC_SUPABASE_ANON_KEY", "SUPABASE_ANON_KEY")
  }
}
