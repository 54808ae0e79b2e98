/** The process environment as the services see it, and the `getEnv` helper
    that each of the three services defines with the same body. */
module Environment {

  /** `os.Getenv`: the value bound to `key`, or the empty string when the
      variable is not set. */
  function Lookup(env: map<string, string>, key: string): (v: string)
    ensures key !in env ==> v == ""
    ensures key in env ==> v == env[key]
  {
    if key in env then env[key] else ""
  }

  /** `getEnv(key, defaultValue)`: the environment's value when it is set to
      something non-empty, the default otherwise (an empty value counts as unset). */
  function GetEnv(env: map<string, string>, key: string, default: string): (v: string)
    ensures key in env && env[key] != "" ==> v == env[key]
    ensures key !in env || env[key] == "" ==> v == default
    ensures v == default || (key in env && v == env[key])
    ensures default != "" ==> v != ""
  {
    var value := Lookup(env, key);
    if value != "" then value else default
  }
}
