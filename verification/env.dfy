/**
 * The required-environment-variable accessor of config/env.go.
 *
 * The process environment is a map from variable names to values. Where the
 * source panics, the model returns a `Failure` carrying which of the two
 * misconfigurations was found; `Message` gives the text the panic carries.
 */
module Env {
  import opened Wrappers

  /** The process environment: a variable is set exactly when its name is a key. */
  type Environment = map<string, string>

  /** The two ways a required variable can be misconfigured. */
  datatype EnvError =
    | NotSet(key: string)   // the variable is absent from the environment
    | NoValue(key: string)  // the variable is present but holds the empty string

  const NotSetPrefix: string := "Environment variable '"
  const NotSetSuffix: string := "' is not set"
  const NoValuePrefix: string := "No value set for environment variable '"
  const NoValueSuffix: string := "'"

  /** The panic message for each misconfiguration: a fixed text for its kind with
      the variable's name quoted in it. */
  function Message(e: EnvError): (m: string)
    ensures e.NotSet? ==>
      && |m| == |NotSetPrefix| + |e.key| + |NotSetSuffix|
      && m[..|NotSetPrefix|] == NotSetPrefix
      && m[|NotSetPrefix|..|m| - |NotSetSuffix|] == e.key
      && m[|m| - |NotSetSuffix|..] == NotSetSuffix
    ensures e.NoValue? ==>
      && |m| == |NoValuePrefix| + |e.key| + |NoValueSuffix|
      && m[..|NoValuePrefix|] == NoValuePrefix
      && m[|NoValuePrefix|..|m| - |NoValueSuffix|] == e.key
      && m[|m| - |NoValueSuffix|..] == NoValueSuffix
  {
    match e
    case NotSet(key) => NotSetPrefix + key + NotSetSuffix
    case NoValue(key) => NoValuePrefix + key + NoValueSuffix
  }

  /** `os.LookupEnv`: the stored value and whether the variable is set. */
  function LookupEnv(env: Environment, key: string): (string, bool) {
    if key in env then (env[key], true) else ("", false)
  }

  /**
   * `GetRequiredEnv`: the value of a variable that must be set and non-empty.
   * Absence is checked first, so an absent variable is never reported as empty.
   */
  function GetRequiredEnv(env: Environment, key: string): (r: Result<string, EnvError>)
    ensures r == Failure(NotSet(key)) <==> key !in env
    ensures r == Failure(NoValue(key)) <==> key in env && env[key] == ""
    ensures r.Success? <==> key in env && env[key] != ""
    ensures r.Success? ==> r.value == env[key] && r.value != ""
  {
    var (value, isSet) := LookupEnv(env, key);
    if !isSet then Failure(NotSet(key))
    else if value == "" then Failure(NoValue(key))
    else Success(value)
  }

  /** The result depends on the environment only through the entry for `key`. */
  lemma GetRequiredEnvOnlyReadsKey(env1: Environment, env2: Environment, key: string)
    requires key in env1 <==> key in env2
    requires key in env1 ==> env1[key] == env2[key]
    ensures GetRequiredEnv(env1, key) == GetRequiredEnv(env2, key)
  {
  }

  /** Each kind of message starts with its own letter. */
  lemma MessageHead(e: EnvError)
    ensures |Message(e)| > 0 && Message(e)[0] == (if e.NotSet? then 'E' else 'N')
  {
  }

  /**
   * The panic message identifies the failure: its kind and the variable's name
   * can both be recovered from the text.
   */
  lemma MessageInjective(e1: EnvError, e2: EnvError)
    requires Message(e1) == Message(e2)
    ensures e1 == e2
  {
    var m := Message(e1);
    if e1.NotSet? != e2.NotSet? {
      // The two kinds of message already differ in their first character.
      MessageHead(e1);
      MessageHead(e2);
      assert false;
    } else if e1.NotSet? {
      assert e1.key == m[|NotSetPrefix|..|m| - |NotSetSuffix|];
      assert e2.key == m[|NotSetPrefix|..|m| - |NotSetSuffix|];
    } else {
      assert e1.key == m[|NoValuePrefix|..|m| - |NoValueSuffix|];
      assert e2.key == m[|NoValuePrefix|..|m| - |NoValueSuffix|];
    }
  }
}
