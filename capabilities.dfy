/** The three CompreFace services the integration can enable, and the rule
    that decides, from the configuration record, whether one is enabled.
    Entry setup and the options flow each apply this rule to the same keys. */
module Capabilities {
  import opened Python
  import Const

  datatype Capability = Recognition | Verification | Detection

  /** The fixed order in which the capabilities are considered. */
  const AllCapabilities: seq<Capability> := [Recognition, Verification, Detection]

  /** The configuration key holding the capability's API key. */
  function ApiKey(c: Capability): string
  {
    match c
    case Recognition => Const.ConfRecognizeApiKey
    case Verification => Const.ConfVerifyApiKey
    case Detection => Const.ConfDetectApiKey
  }

  /** The capability's name: its slot in the shared data and the id of its
      options-flow step. */
  function ServiceName(c: Capability): string
  {
    match c
    case Recognition => "recognition"
    case Verification => "verification"
    case Detection => "detection"
  }

  /** A capability is enabled when its key is present, not None and not the
      empty string. The presence test adds nothing to the `get` tests: a
      missing key reads as None. */
  predicate Enabled(data: map<string, Value>, c: Capability)
    ensures Enabled(data, c) <==> Get(data, ApiKey(c)) != Null && Get(data, ApiKey(c)) != Str("")
  {
    ApiKey(c) in data && data[ApiKey(c)] != Null && data[ApiKey(c)] != Str("")
  }

  /** The position of a capability in AllCapabilities. */
  function Rank(c: Capability): nat
  {
    match c
    case Recognition => 0
    case Verification => 1
    case Detection => 2
  }

  /** The capabilities appear in the fixed order, each at most once. */
  predicate InOrder(s: seq<Capability>)
  {
    forall i, j :: 0 <= i < j < |s| ==> Rank(s[i]) < Rank(s[j])
  }
}
