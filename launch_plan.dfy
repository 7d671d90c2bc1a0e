/** Turning the configuration and the facts about the running executable into the arguments of the JVM start. */
module LaunchPlan {
  import opened Wrappers
  import opened Platform
  import opened Paths
  import opened Text
  import opened Config

  /** What the process knows about itself: the operating system and its version, the directory and
      file name of the running executable, and the process arguments (program name first). */
  datatype Host = Host(os: Os, version: OsVersion, exeDir: string, exeFileName: string, processArgs: seq<string>)

  /** Everything the JVM start receives. */
  datatype Launch = Launch(
    runtimeDir: string,
    classPath: seq<string>,
    mainClass: string,
    vmArgs: seq<string>,
    args: seq<string>,
    useZgcIfSupported: bool,
    useMainAsContextClassLoader: bool)

  /** A single path component: non-empty, no separator and (on Windows) no drive colon. */
  predicate IsFileName(os: Os, name: string)
  {
    |name| > 0 && forall i :: 0 <= i < |name| ==> !IsSeparator(os, name[i]) && (os.Windows? ==> name[i] != ':')
  }

  /** Every file name is relative, and so is its `.json` sibling. */
  lemma JsonNameIsRelative(os: Os, name: string)
    requires IsFileName(os, name)
    ensures IsRelative(os, name)
    ensures IsRelative(os, WithExtension(name, "json"))
  {
    var j := WithExtension(name, "json");
    var stem := FileStem(name);
    assert j == stem + ".json";
    assert j[0] == name[0];
    if |j| >= 2 {
      assert j[1] == (if |stem| >= 2 then name[1] else '.');
    }
  }

  /** The directory holding the JVM library: the runtime location's segments joined onto the executable's directory. */
  function RuntimeDir(os: Os, exeDir: string): string
  {
    CollectIsRelative(os, RuntimeLocation(os));
    Join(os, exeDir, Collect(os, RuntimeLocation(os)))
  }

  /** The runtime location's segments are plain names: relative, non-empty and not ending in a separator. */
  lemma RuntimeSegmentsArePlain(os: Os)
    ensures var segs := RuntimeLocation(os);
      && IsRelative(os, segs[0]) && IsRelative(os, segs[1]) && IsRelative(os, segs[2])
      && |segs[0]| > 0 && !IsSeparator(os, segs[0][|segs[0]| - 1])
      && |segs[1]| > 0 && !IsSeparator(os, segs[1][|segs[1]| - 1])
  {
    var segs := RuntimeLocation(os);
    assert segs[0][0] == 'r' && segs[0][6] == 'e' && segs[2][0] == 's';
    assert segs[1][0] in "bl" && segs[1][2] in "bn";
  }

  /** The runtime directory is `exeDir/runtime/bin/server` on Windows and `exeDir/runtime/lib/server` elsewhere
      (the segments as `RuntimeLocation` lists them, each after one separator). */
  lemma RuntimeDirShape(os: Os, exeDir: string)
    ensures var segs := RuntimeLocation(os); var s := [MainSeparator(os)];
      RuntimeDir(os, exeDir) == exeDir + SeparatorAfter(os, exeDir) + (segs[0] + s + segs[1] + s + segs[2])
  {
    var segs := RuntimeLocation(os);
    RuntimeSegmentsArePlain(os);
    assert segs == [segs[0], segs[1], segs[2]];
    CollectThree(os, segs[0], segs[1], segs[2]);
  }

  /** Three component names collected into one relative path, separated by the main separator. */
  lemma CollectThree(os: Os, a: string, b: string, c: string)
    requires IsRelative(os, a) && IsRelative(os, b) && IsRelative(os, c)
    requires |a| > 0 && !IsSeparator(os, a[|a| - 1]) && |b| > 0 && !IsSeparator(os, b[|b| - 1])
    ensures AllRelative(os, [a, b, c])
    ensures Collect(os, [a, b, c]) == a + [MainSeparator(os)] + b + [MainSeparator(os)] + c
  {
    var segs := [a, b, c];
    assert segs[..2] == [a, b] && segs[..2][..1] == [a] && segs[..2][..1][..0] == [];
    assert Collect(os, [a]) == a;
    assert NeedsSeparator(os, a);
    var ab := a + [MainSeparator(os)] + b;
    assert Collect(os, [a, b]) == ab;
    assert ab[|ab| - 1] == b[|b| - 1] && |ab| >= 3;
    assert NeedsSeparator(os, ab);
    assert Collect(os, segs) == Join(os, ab, c);
  }

  /** Where the configuration is read: `exeDir/app/<executable's stem>.json`. */
  function ConfigPath(os: Os, exeDir: string, exeFileName: string): string
    requires IsFileName(os, exeFileName)
  {
    JsonNameIsRelative(os, exeFileName);
    Join(os, Join(os, exeDir, APP_FOLDER), WithExtension(exeFileName, "json"))
  }

  /** The configuration path is `exeDir/app/<stem>.json`. */
  lemma ConfigPathShape(os: Os, exeDir: string, exeFileName: string)
    requires IsFileName(os, exeFileName)
    ensures ConfigPath(os, exeDir, exeFileName)
         == exeDir + SeparatorAfter(os, exeDir) + APP_FOLDER + [MainSeparator(os)] + (FileStem(exeFileName) + ".json")
  {
    JsonNameIsRelative(os, exeFileName);
    var d := exeDir + SeparatorAfter(os, exeDir) + APP_FOLDER;
    assert Join(os, exeDir, APP_FOLDER) == d;
    assert d[|d| - 1] == APP_FOLDER[2] == 'p';
    assert SeparatorAfter(os, d) == [MainSeparator(os)];
    var stem := FileStem(exeFileName);
    var j := WithExtension(exeFileName, "json");
    assert j == stem + ".json";
    assert ConfigPath(os, exeDir, exeFileName) == d + [MainSeparator(os)] + j;
  }

  const UNREADABLE_CONFIG: string := "Unable to read config file "

  /** The panic message for an unreadable configuration as the source formats it: the directory, the app
      folder, then the whole executable path with its extension replaced. */
  function ConfigErrorMessageAsWritten(os: Os, exeDir: string, exeFileName: string): string
    requires IsFileName(os, exeFileName)
  {
    JsonNameIsRelative(os, exeFileName);
    UNREADABLE_CONFIG + exeDir + "/" + APP_FOLDER + "/" + Join(os, exeDir, WithExtension(exeFileName, "json"))
  }

  /** The panic message naming the file the launcher actually tried to read. */
  function ConfigErrorMessage(os: Os, exeDir: string, exeFileName: string): (m: string)
    requires IsFileName(os, exeFileName)
    ensures |m| > |UNREADABLE_CONFIG| && m[..|UNREADABLE_CONFIG|] == UNREADABLE_CONFIG
    ensures m[|UNREADABLE_CONFIG|..] == ConfigPath(os, exeDir, exeFileName)
  {
    UNREADABLE_CONFIG + ConfigPath(os, exeDir, exeFileName)
  }

  /** The message as written never names the path that was read: it is |exeDir| + 1 characters longer. */
  lemma ConfigErrorMessageAsWrittenIsWrong(os: Os, exeDir: string, exeFileName: string)
    requires IsFileName(os, exeFileName)
    ensures |ConfigErrorMessageAsWritten(os, exeDir, exeFileName)|
         == |ConfigErrorMessage(os, exeDir, exeFileName)| + |exeDir| + 1
    ensures ConfigErrorMessageAsWritten(os, exeDir, exeFileName) != ConfigErrorMessage(os, exeDir, exeFileName)
  {
    JsonNameIsRelative(os, exeFileName);
  }

  /** The concrete case: an executable `/d/x` on Linux reads `/d/app/x.json` but reports `/d/app//d/x.json`. */
  lemma ConfigErrorMessageExample()
    ensures ConfigPath(Linux, "/d", "x") == "/d/app/x.json"
    ensures ConfigErrorMessageAsWritten(Linux, "/d", "x") == UNREADABLE_CONFIG + "/d/app//d/x.json"
    ensures ConfigErrorMessage(Linux, "/d", "x") == UNREADABLE_CONFIG + "/d/app/x.json"
  {
    assert IsFileName(Linux, "x");
    assert FileStem("x") == "x";
    assert SeparatorAfter(Linux, "/d") == "/";
    ConfigPathShape(Linux, "/d", "x");
    assert Join(Linux, "/d", WithExtension("x", "json")) == "/d/x.json";
  }

  /** Each classpath entry joined onto the executable's directory, in order. */
  function ResolveClassPath(os: Os, exeDir: string, entries: seq<string>): (r: seq<string>)
    requires AllRelative(os, entries)
    ensures |r| == |entries|
    ensures forall i :: 0 <= i < |entries| ==> r[i] == Join(os, exeDir, entries[i])
    decreases |entries|
  {
    if |entries| == 0 then []
    else [Join(os, exeDir, entries[0])] + ResolveClassPath(os, exeDir, entries[1..])
  }

  lemma ClassPathExample()
    ensures JoinWith(ResolveClassPath(Linux, "/opt/app", ["lib/a.jar", "lib/b.jar"]), ClassPathDelimiter(Linux))
         == "/opt/app/lib/a.jar:/opt/app/lib/b.jar"
  {
    var r := ResolveClassPath(Linux, "/opt/app", ["lib/a.jar", "lib/b.jar"]);
    assert "/opt/app"[7] == 'p';
    assert r[0] == "/opt/app" + "/" + "lib/a.jar" == "/opt/app/lib/a.jar";
    assert r[1] == "/opt/app" + "/" + "lib/b.jar" == "/opt/app/lib/b.jar";
    assert JoinWith(r, ":") == r[0] + ":" + JoinWith(r[1..], ":");
  }

  /** The entry class in JVM internal form: each '.' becomes '/'. */
  function InternalName(mainClass: string): (r: string)
    ensures |r| == |mainClass| && '.' !in r
    ensures forall i :: 0 <= i < |r| ==> mainClass[i] == '.' ==> r[i] == '/'
    ensures forall i :: 0 <= i < |r| ==> mainClass[i] != '.' ==> r[i] == mainClass[i]
  {
    ReplaceRemoves(mainClass, '.', '/');
    Replace(mainClass, '.', '/')
  }

  /** A dotted name without slashes is recovered from its internal form. */
  lemma InternalNameInvertible(mainClass: string)
    requires '/' !in mainClass
    ensures Replace(InternalName(mainClass), '/', '.') == mainClass
  {
    ReplaceInverse(mainClass, '.', '/');
  }

  /** Package separators map one to one: `a.b` becomes `a'/b'`. */
  lemma InternalNameOfQualified(a: string, b: string)
    ensures InternalName(a + "." + b) == InternalName(a) + "/" + InternalName(b)
  {
    ReplaceAppend(a + ".", b, '.', '/');
    ReplaceAppend(a, ".", '.', '/');
  }

  /** The process arguments without the program name (`env::args().skip(1)`). */
  function CliArgs(processArgs: seq<string>): (r: seq<string>)
    ensures |processArgs| > 0 ==> [processArgs[0]] + r == processArgs
    ensures |processArgs| == 0 ==> r == []
  {
    if |processArgs| == 0 then [] else processArgs[1..]
  }

  /** What the configuration must satisfy for the model: every classpath entry is a relative path. */
  predicate WellFormed(os: Os, config: Option<RawConfig>)
  {
    config.Some? ==> AllRelative(os, config.value.classPath)
  }

  /** The launch built from the configuration read from `ConfigPath`; an unreadable configuration is a
      fatal error carrying the message that names that path. */
  function BuildLaunch(host: Host, config: Option<RawConfig>): (r: Result<Launch, string>)
    requires IsFileName(host.os, host.exeFileName)
    requires WellFormed(host.os, config)
    ensures r.Err? <==> config.None?
    ensures r.Err? ==> r.error == ConfigErrorMessage(host.os, host.exeDir, host.exeFileName)
    ensures r.Ok? ==> var c := config.value; var l := r.value;
      && l.runtimeDir == RuntimeDir(host.os, host.exeDir)
      && l.classPath == ResolveClassPath(host.os, host.exeDir, c.classPath)
      && l.mainClass == InternalName(c.mainClass)
      && l.vmArgs == c.vmArgs.UnwrapOr([])
      && l.args == c.args.UnwrapOr([]) + CliArgs(host.processArgs)
      && l.useZgcIfSupported == (c.useZgcIfSupportedOs == Some(true))
      && l.useMainAsContextClassLoader == (c.useMainAsContextClassLoader == Some(true))
  {
    match config
    case None => Err(ConfigErrorMessage(host.os, host.exeDir, host.exeFileName))
    case Some(c) =>
      var s := ApplyDefaults(c);
      Ok(Launch(
        RuntimeDir(host.os, host.exeDir),
        ResolveClassPath(host.os, host.exeDir, s.classPath),
        InternalName(s.mainClass),
        s.vmArgs,
        s.args + CliArgs(host.processArgs),
        s.useZgcIfSupportedOs,
        s.useMainAsContextClassLoader))
  }

  /** An unreadable configuration is reported with the corrected message naming the path read, which is
      never the text the source formats for it. */
  lemma BuildLaunchCorrectsMessage(host: Host)
    requires IsFileName(host.os, host.exeFileName)
    ensures BuildLaunch(host, None) == Err(ConfigErrorMessage(host.os, host.exeDir, host.exeFileName))
    ensures BuildLaunch(host, None).error != ConfigErrorMessageAsWritten(host.os, host.exeDir, host.exeFileName)
  {
    ConfigErrorMessageAsWrittenIsWrong(host.os, host.exeDir, host.exeFileName);
  }

  /** Configured arguments precede command-line ones: `args = ["--headless"]` and a command line
      `launcher --verbose` give `["--headless", "--verbose"]`. */
  lemma ArgumentOrderExample(os: Os, version: OsVersion, exeDir: string, c: RawConfig)
    requires IsFileName(os, "launcher") && AllRelative(os, c.classPath)
    requires c.args == Some(["--headless"])
    ensures var r := BuildLaunch(Host(os, version, exeDir, "launcher", ["launcher", "--verbose"]), Some(c));
      r.Ok? && r.value.args == ["--headless", "--verbose"]
  {
  }
}
