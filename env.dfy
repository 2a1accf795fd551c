/**
 * Environment variables, passed in as a map instead of read with
 * `os.getenv`, and the boolean flags the sources read from them.
 */
module Env {
  import opened Wrappers
  import opened Text

  type Environment = map<string, string>

  /** `os.getenv(name)` */
  function Getenv(env: Environment, name: string): Option<string> {
    if name in env then Some(env[name]) else None
  }

  /** `if v := os.getenv(name):` -- the value only when it is set and not empty. */
  function NonEmpty(env: Environment, name: string): (r: Option<string>)
    ensures r.Some? <==> name in env && env[name] != ""
    ensures r.Some? ==> r.value == env[name]
  {
    if name in env && env[name] != "" then Some(env[name]) else None
  }

  /** The spellings of "on": `v.lower() in ("1", "true", "yes")`. */
  predicate IsOnText(v: string) {
    var l := Lower(v);
    l == "1" || l == "true" || l == "yes"
  }

  /** `os.getenv(name, "false").lower() in ("1", "true", "yes")`: the
      default never switches a flag on. Which spellings do is stated by
      `FlagIgnoresCase` and `FlagSpellings`. */
  function Flag(env: Environment, name: string): (on: bool)
    ensures name !in env ==> !on
    ensures on <==> name in env && IsOnText(env[name])
  {
    IsOnText(if name in env then env[name] else "false")
  }

  /** The flag ignores the case of its value. */
  lemma FlagIgnoresCase(env: Environment, name: string, v: string)
    requires name in env && Lower(env[name]) == Lower(v)
    ensures Flag(env, name) == IsOnText(v)
  {
  }

  /** Concrete spellings: upper-case and mixed-case words switch the flag on,
      other words (and "0") do not. */
  lemma FlagSpellings(env: Environment, name: string)
    ensures Flag(env[name := "TRUE"], name) && Flag(env[name := "Yes"], name) && Flag(env[name := "1"], name)
    ensures !Flag(env[name := "on"], name) && !Flag(env[name := "0"], name) && !Flag(env[name := "y"], name)
  {
    assert Lower("TRUE") == "true";
    assert Lower("Yes") == "yes";
    assert Lower("on") == "on";
    assert Lower("0") == "0";
    assert Lower("y") == "y";
  }
}
