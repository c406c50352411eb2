/**
 * What the client scripts share: the registration record they build, the
 * way they read `process.argv`, and JavaScript's `||` on possibly missing
 * strings.
 */
module Agents {
  import opened Common

  /** The `agentConfig` object a client builds (and the agent records the test scripts read back). */
  datatype AgentConfig = AgentConfig(agentId: string, agentNumber: string, agentName: string, agentType: string)

  /** Why a script exits before building its configuration. */
  datatype StartupError = MissingPhone | InvalidPhone

  /** `process.argv[2 + i]`, where `args` are the arguments after `node` and the script name. */
  function Arg(args: seq<string>, i: nat): (r: Option<string>)
    ensures r.Some? <==> i < |args|
    ensures r.Some? ==> r.value == args[i]
  {
    if i < |args| then Some(args[i]) else None
  }

  /**
   * JavaScript truthiness of a string that may be `undefined`: the only falsy
   * values are `undefined` and the empty string.
   */
  function Truthy(o: Option<string>): (r: bool)
    ensures !r <==> o == None || o == Some("")
  {
    o.Some? && o.value != ""
  }

  /** `a || b` on strings that may be `undefined`. */
  function Or(a: Option<string>, b: Option<string>): (r: Option<string>)
    ensures Truthy(a) ==> r == a
    ensures !Truthy(a) ==> r == b
  {
    if Truthy(a) then a else b
  }

  /** `||` with a truthy fallback never yields a falsy value. */
  lemma OrWithDefault(a: Option<string>, d: string)
    requires d != ""
    ensures Truthy(Or(a, Some(d)))
  {
  }
}
