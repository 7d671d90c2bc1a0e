/** The JVM initialisation arguments: the JNI version and the ordered option list. */
module JvmOptions {
  import opened Platform
  import opened Text

  /** `JNIVersion::V8`, the JNI version requested from the JVM. */
  const JNI_VERSION_1_8: int := 0x0001_0008

  const CLASS_PATH_PROPERTY: string := "-Djava.class.path="
  const UNLOCK_EXPERIMENTAL_VM_OPTIONS: string := "-XX:+UnlockExperimentalVMOptions"
  const USE_ZGC: string := "-XX:+UseZGC"

  /** The JNI initialisation arguments under construction (the by-value `InitArgsBuilder`). */
  datatype InitArgs = InitArgs(version: int, options: seq<string>) {
    function WithOption(option: string): InitArgs
    {
      this.(options := options + [option])
    }
  }

  /** The classpath option: the resolved entries joined with the platform delimiter. */
  function ClassPathOption(os: Os, classPath: seq<string>): string
  {
    CLASS_PATH_PROPERTY + JoinWith(classPath, ClassPathDelimiter(os))
  }

  /** ZGC is switched on only when the configuration asks for it and the platform supports it. */
  predicate ZgcEnabled(os: Os, version: OsVersion, useZgcIfSupported: bool)
  {
    useZgcIfSupported && IsZgcSupported(os, version)
  }

  /** The option list the JVM is created with. */
  function Options(os: Os, version: OsVersion, classPath: seq<string>, vmArgs: seq<string>, useZgcIfSupported: bool)
    : seq<string>
  {
    [ClassPathOption(os, classPath)] + vmArgs
      + (if ZgcEnabled(os, version, useZgcIfSupported) then [UNLOCK_EXPERIMENTAL_VM_OPTIONS, USE_ZGC] else [])
  }

  /** The layout of the option list: the classpath option first, the VM arguments verbatim and in order right
      after it, and the two ZGC options last exactly when ZGC is enabled. */
  lemma OptionsLayout(os: Os, version: OsVersion, classPath: seq<string>, vmArgs: seq<string>, useZgcIfSupported: bool)
    ensures var opts := Options(os, version, classPath, vmArgs, useZgcIfSupported);
      && |opts| >= 1 + |vmArgs|
      && opts[0] == CLASS_PATH_PROPERTY + JoinWith(classPath, ClassPathDelimiter(os))
      && opts[1..1 + |vmArgs|] == vmArgs
      && (ZgcEnabled(os, version, useZgcIfSupported) <==> |opts| == 3 + |vmArgs|)
      && (!ZgcEnabled(os, version, useZgcIfSupported) <==> |opts| == 1 + |vmArgs|)
      && (ZgcEnabled(os, version, useZgcIfSupported) ==>
            opts[|opts| - 2] == UNLOCK_EXPERIMENTAL_VM_OPTIONS && opts[|opts| - 1] == USE_ZGC)
  {
    var opts := Options(os, version, classPath, vmArgs, useZgcIfSupported);
    assert opts[1..1 + |vmArgs|] == vmArgs;
  }

  /** The classpath option's value splits back into the resolved entries when none contains the delimiter. */
  lemma ClassPathOptionDecodes(os: Os, classPath: seq<string>)
    requires |classPath| > 0
    requires forall i :: 0 <= i < |classPath| ==> ClassPathDelimiter(os)[0] !in classPath[i]
    ensures var opt := ClassPathOption(os, classPath);
      opt[..|CLASS_PATH_PROPERTY|] == CLASS_PATH_PROPERTY
      && Split(opt[|CLASS_PATH_PROPERTY|..], ClassPathDelimiter(os)[0]) == classPath
  {
    var d := ClassPathDelimiter(os);
    assert d == [d[0]];
    SplitJoin(classPath, d[0]);
    var opt := ClassPathOption(os, classPath);
    assert opt[|CLASS_PATH_PROPERTY|..] == JoinWith(classPath, d);
  }

  /** Builds the initialisation arguments as the launcher does: the classpath option, one option per VM
      argument added in a loop, then the two ZGC options when enabled. */
  method BuildInitArgs(os: Os, version: OsVersion, classPath: seq<string>, vmArgs: seq<string>, useZgcIfSupported: bool)
    returns (args: InitArgs)
    ensures args.version == JNI_VERSION_1_8
    ensures args.options == Options(os, version, classPath, vmArgs, useZgcIfSupported)
  {
    var builder := InitArgs(JNI_VERSION_1_8, []).WithOption(ClassPathOption(os, classPath));
    for i := 0 to |vmArgs|
      invariant builder.version == JNI_VERSION_1_8
      invariant builder.options == [ClassPathOption(os, classPath)] + vmArgs[..i]
    {
      builder := builder.WithOption(vmArgs[i]);
      assert vmArgs[..i + 1] == vmArgs[..i] + [vmArgs[i]];
    }
    assert vmArgs[..|vmArgs|] == vmArgs;
    if useZgcIfSupported && IsZgcSupported(os, version) {
      builder := builder.WithOption(UNLOCK_EXPERIMENTAL_VM_OPTIONS).WithOption(USE_ZGC);
    }
    args := builder;
  }
}
