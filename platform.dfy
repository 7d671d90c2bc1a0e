/** Platform facts: the operating systems the launcher is built for and the constants each selects. */
module Platform {

  datatype Os = Windows | Linux | MacOs

  /** Separator placed between classpath entries. */
  function ClassPathDelimiter(os: Os): (d: string)
    ensures |d| == 1
    ensures os.Windows? <==> d == ";"
    ensures !os.Windows? <==> d == ":"
  {
    if os.Windows? then ";" else ":"
  }

  /** Path segments, relative to the executable's directory, of the directory holding the JVM library. */
  function RuntimeLocation(os: Os): (segments: seq<string>)
    ensures |segments| == 3 && segments[0] == "runtime" && segments[2] == "server"
    ensures segments[1] == (if os.Windows? then "bin" else "lib")
  {
    match os
    case Windows => ["runtime", "bin", "server"]
    case MacOs => ["runtime", "lib", "server"]
    case Linux => ["runtime", "lib", "server"]
  }

  /** Folder, next to the executable, that holds the configuration file. */
  const APP_FOLDER: string := "app"

  /** File name of the JVM shared library inside the runtime directory. */
  function JvmLibraryFileName(os: Os): (name: string)
    ensures os.Windows? <==> name == "jvm.dll"
    ensures os.MacOs? <==> name == "libjvm.dylib"
    ensures os.Linux? <==> name == "libjvm.so"
  {
    match os
    case Windows => "jvm.dll"
    case MacOs => "libjvm.dylib"
    case Linux => "libjvm.so"
  }

  newtype u32 = x: int | 0 <= x < 0x1_0000_0000

  /** A Windows version number: major, minor, service pack and build. */
  datatype OsVersion = OsVersion(major: u32, minor: u32, pack: u32, build: u32)

  /** Windows 10 version 1803, the first Windows release on which ZGC runs. */
  const ZGC_MINIMUM_WINDOWS: OsVersion := OsVersion(10, 0, 0, 17134)

  /** The derived ordering of OsVersion: fields compared lexicographically in declaration order. */
  predicate AtLeast(v: OsVersion, w: OsVersion)
  {
    if v.major != w.major then v.major > w.major
    else if v.minor != w.minor then v.minor > w.minor
    else if v.pack != w.pack then v.pack > w.pack
    else v.build >= w.build
  }

  /** Whether the running operating system can run the Z garbage collector. */
  predicate IsZgcSupported(os: Os, current: OsVersion)
  {
    match os
    case Windows => AtLeast(current, ZGC_MINIMUM_WINDOWS)
    case Linux => true
    case MacOs => true
  }

  /** The version packed into one number, most significant field first: an independent reference order. */
  function Rank(v: OsVersion): (n: nat)
  {
    ((v.major as nat * 0x1_0000_0000 + v.minor as nat) * 0x1_0000_0000 + v.pack as nat) * 0x1_0000_0000
      + v.build as nat
  }

  /** Comparing one more base-2^32 digit: the high parts decide unless equal. */
  lemma DigitOrder(hi1: nat, lo1: nat, hi2: nat, lo2: nat)
    requires lo1 < 0x1_0000_0000 && lo2 < 0x1_0000_0000
    ensures hi1 * 0x1_0000_0000 + lo1 >= hi2 * 0x1_0000_0000 + lo2
        <==> hi1 > hi2 || (hi1 == hi2 && lo1 >= lo2)
    ensures hi1 * 0x1_0000_0000 + lo1 == hi2 * 0x1_0000_0000 + lo2 <==> hi1 == hi2 && lo1 == lo2
  {
    if hi1 > hi2 {
      assert (hi1 - hi2) * 0x1_0000_0000 >= 0x1_0000_0000;
      assert hi1 * 0x1_0000_0000 == hi2 * 0x1_0000_0000 + (hi1 - hi2) * 0x1_0000_0000;
    } else if hi1 < hi2 {
      assert (hi2 - hi1) * 0x1_0000_0000 >= 0x1_0000_0000;
      assert hi2 * 0x1_0000_0000 == hi1 * 0x1_0000_0000 + (hi2 - hi1) * 0x1_0000_0000;
    }
  }

  /** The lexicographic order is the numeric order of the packed versions. */
  lemma AtLeastIsRankOrder(v: OsVersion, w: OsVersion)
    ensures AtLeast(v, w) <==> Rank(v) >= Rank(w)
  {
    var a1 := v.major as nat * 0x1_0000_0000 + v.minor as nat;
    var a2 := w.major as nat * 0x1_0000_0000 + w.minor as nat;
    DigitOrder(v.major as nat, v.minor as nat, w.major as nat, w.minor as nat);
    var b1 := a1 * 0x1_0000_0000 + v.pack as nat;
    var b2 := a2 * 0x1_0000_0000 + w.pack as nat;
    DigitOrder(a1, v.pack as nat, a2, w.pack as nat);
    DigitOrder(b1, v.build as nat, b2, w.build as nat);
  }

  /** AtLeast is a total order: reflexive, antisymmetric, transitive and total. */
  lemma AtLeastIsTotalOrder(u: OsVersion, v: OsVersion, w: OsVersion)
    ensures AtLeast(v, v)
    ensures AtLeast(v, w) && AtLeast(w, v) ==> v == w
    ensures AtLeast(u, v) && AtLeast(v, w) ==> AtLeast(u, w)
    ensures AtLeast(v, w) || AtLeast(w, v)
  {
    AtLeastIsRankOrder(u, v);
    AtLeastIsRankOrder(v, w);
    AtLeastIsRankOrder(w, v);
    AtLeastIsRankOrder(u, w);
    if Rank(v) == Rank(w) {
      RankInjective(v, w);
    }
  }

  lemma RankInjective(v: OsVersion, w: OsVersion)
    requires Rank(v) == Rank(w)
    ensures v == w
  {
    var a1 := v.major as nat * 0x1_0000_0000 + v.minor as nat;
    var a2 := w.major as nat * 0x1_0000_0000 + w.minor as nat;
    var b1 := a1 * 0x1_0000_0000 + v.pack as nat;
    var b2 := a2 * 0x1_0000_0000 + w.pack as nat;
    DigitOrder(b1, v.build as nat, b2, w.build as nat);
    DigitOrder(a1, v.pack as nat, a2, w.pack as nat);
    DigitOrder(v.major as nat, v.minor as nat, w.major as nat, w.minor as nat);
  }

  /** The Windows gate is inclusive at build 17134 of version 10.0.0. */
  lemma ZgcWindowsThreshold()
    ensures !IsZgcSupported(Windows, OsVersion(10, 0, 0, 17133))
    ensures IsZgcSupported(Windows, OsVersion(10, 0, 0, 17134))
    ensures IsZgcSupported(Windows, OsVersion(10, 0, 0, 22631))
    ensures !IsZgcSupported(Windows, OsVersion(6, 3, 0, 99999))
  {
  }

  /** Support is upward closed on Windows and unconditional elsewhere. */
  lemma ZgcSupportMonotone(os: Os, v: OsVersion, w: OsVersion)
    requires IsZgcSupported(os, v) && AtLeast(w, v)
    ensures IsZgcSupported(os, w)
  {
    AtLeastIsTotalOrder(w, v, ZGC_MINIMUM_WINDOWS);
  }

  /** On Linux and macOS the version is irrelevant. */
  lemma ZgcAlwaysOnPosix(os: Os, v: OsVersion)
    requires !os.Windows?
    ensures IsZgcSupported(os, v)
  {
  }

  /** On Windows the gate holds exactly for versions ranked at or above 10.0.0.17134. */
  lemma ZgcWindowsByRank(v: OsVersion)
    ensures IsZgcSupported(Windows, v) <==> Rank(v) >= Rank(ZGC_MINIMUM_WINDOWS)
  {
    AtLeastIsRankOrder(v, ZGC_MINIMUM_WINDOWS);
  }
}
