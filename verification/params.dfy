/** The node's private parameter namespace ("~") and the one parameter the
    bridge reads from it. */
module Params {

  /** Parameter names, relative to the private namespace, mapped to their values. */
  type ParamServer = map<string, string>

  const UavNameKey := "uav_name"

  /** The placeholder frame name used when `uav_name` is not set. */
  const DefaultUavName := "/none"

  /** NodeHandle::param<string>: the stored value when the name is set,
      otherwise the supplied default. */
  function Param(server: ParamServer, name: string, default: string): string
  {
    if name in server then server[name] else default
  }

  /** The agent name, as both `doPose` and `main` read it. */
  function UavName(server: ParamServer): (name: string)
    ensures UavNameKey in server ==> name == server[UavNameKey]
    ensures UavNameKey !in server ==> name == DefaultUavName
  {
    Param(server, UavNameKey, DefaultUavName)
  }

  /** Only the `uav_name` entry matters: two servers that agree on it
      (both unset, or both set to the same string) give the same name,
      whatever else they hold. */
  lemma UavNameDependsOnlyOnKey(s1: ParamServer, s2: ParamServer)
    requires (UavNameKey in s1) == (UavNameKey in s2)
    requires UavNameKey in s1 ==> s1[UavNameKey] == s2[UavNameKey]
    ensures UavName(s1) == UavName(s2)
  {
  }

  /** Setting the parameter to `name` makes `name` the agent name;
      removing it falls back to the placeholder. */
  lemma UavNameSetAndUnset(server: ParamServer, name: string)
    ensures UavName(server[UavNameKey := name]) == name
    ensures UavName(server - {UavNameKey}) == DefaultUavName
  {
  }
}
