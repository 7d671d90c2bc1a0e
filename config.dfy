/** The launcher's configuration file, as deserialised, and the settings it yields once defaults apply. */
module Config {
  import opened Wrappers

  /** The JSON object: two mandatory fields and four optional ones. A file that is missing, malformed
      or lacks a mandatory field yields no RawConfig at all. */
  datatype RawConfig = RawConfig(
    classPath: seq<string>,
    mainClass: string,
    vmArgs: Option<seq<string>>,
    args: Option<seq<string>>,
    useZgcIfSupportedOs: Option<bool>,
    useMainAsContextClassLoader: Option<bool>)

  /** The configuration with every optional field collapsed to a value. */
  datatype Settings = Settings(
    classPath: seq<string>,
    mainClass: string,
    vmArgs: seq<string>,
    args: seq<string>,
    useZgcIfSupportedOs: bool,
    useMainAsContextClassLoader: bool)

  /** Absent lists become empty and absent flags false; present values are kept as given. */
  function ApplyDefaults(c: RawConfig): (s: Settings)
    ensures s.classPath == c.classPath && s.mainClass == c.mainClass
    ensures c.vmArgs.None? ==> s.vmArgs == []
    ensures c.vmArgs.Some? ==> s.vmArgs == c.vmArgs.value
    ensures c.args.None? ==> s.args == []
    ensures c.args.Some? ==> s.args == c.args.value
    ensures s.useZgcIfSupportedOs <==> c.useZgcIfSupportedOs == Some(true)
    ensures s.useMainAsContextClassLoader <==> c.useMainAsContextClassLoader == Some(true)
  {
    Settings(
      c.classPath,
      c.mainClass,
      c.vmArgs.UnwrapOr([]),
      c.args.UnwrapOr([]),
      c.useZgcIfSupportedOs.UnwrapOr(false),
      c.useMainAsContextClassLoader.UnwrapOr(false))
  }

  /** A configuration file that spells out every field. */
  function Explicit(s: Settings): (c: RawConfig)
    ensures c.vmArgs.Some? && c.args.Some? && c.useZgcIfSupportedOs.Some? && c.useMainAsContextClassLoader.Some?
  {
    RawConfig(s.classPath, s.mainClass, Some(s.vmArgs), Some(s.args),
      Some(s.useZgcIfSupportedOs), Some(s.useMainAsContextClassLoader))
  }

  /** Defaulting an explicit configuration gives back exactly the settings it spells out. */
  lemma DefaultsOfExplicit(s: Settings)
    ensures ApplyDefaults(Explicit(s)) == s
  {
  }

  /** A single configuration layer: an absent field and one set to its default are indistinguishable. */
  lemma AbsentEqualsDefault(c: RawConfig)
    ensures ApplyDefaults(c.(vmArgs := None)) == ApplyDefaults(c.(vmArgs := Some([])))
    ensures ApplyDefaults(c.(args := None)) == ApplyDefaults(c.(args := Some([])))
    ensures ApplyDefaults(c.(useZgcIfSupportedOs := None)) == ApplyDefaults(c.(useZgcIfSupportedOs := Some(false)))
    ensures ApplyDefaults(c.(useMainAsContextClassLoader := None))
         == ApplyDefaults(c.(useMainAsContextClassLoader := Some(false)))
  {
  }
}
