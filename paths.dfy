/** Filesystem paths as strings, joined the way Rust's `PathBuf::push` joins a relative path onto a non-verbatim base. */
module Paths {
  import opened Platform

  /** The separator written between components. */
  function MainSeparator(os: Os): char
  {
    if os.Windows? then '\\' else '/'
  }

  /** Characters recognised as separators: both slashes on Windows, only '/' elsewhere. */
  predicate IsSeparator(os: Os, c: char)
  {
    c == '/' || (os.Windows? && c == '\\')
  }

  predicate IsAsciiLetter(c: char)
  {
    ('a' <= c <= 'z') || ('A' <= c <= 'Z')
  }

  /** A path with neither a root nor (on Windows) a drive prefix: joining it extends the base. */
  predicate IsRelative(os: Os, p: string)
  {
    |p| == 0 || (!IsSeparator(os, p[0]) && !(os.Windows? && |p| >= 2 && p[1] == ':' && IsAsciiLetter(p[0])))
  }

  /** A Windows path that is nothing but a drive prefix such as `C:`. */
  predicate IsBareDrive(os: Os, p: string)
  {
    os.Windows? && |p| == 2 && p[1] == ':' && IsAsciiLetter(p[0])
  }

  /** Whether joining onto `base` needs a separator: only after a non-empty base that does not already end
      in one and is not a bare drive prefix (`C:` joined with `x` is the drive-relative `C:x`). */
  predicate NeedsSeparator(os: Os, base: string)
  {
    |base| > 0 && !IsSeparator(os, base[|base| - 1]) && !IsBareDrive(os, base)
  }

  /** The separator `push` inserts before a relative path: the main separator exactly when one is needed. */
  function SeparatorAfter(os: Os, base: string): (s: string)
    ensures |s| <= 1
    ensures |s| == 1 <==> NeedsSeparator(os, base)
    ensures |s| == 1 ==> s[0] == MainSeparator(os)
  {
    if NeedsSeparator(os, base) then [MainSeparator(os)] else []
  }

  /** `base.join(rel)` for a relative `rel`: `base`, then at most one separator, then `rel`. */
  function Join(os: Os, base: string, rel: string): (p: string)
    requires IsRelative(os, rel)
  {
    base + SeparatorAfter(os, base) + rel
  }

  /** A relative path, joined onto a relative base, stays relative. */
  lemma JoinKeepsRelative(os: Os, base: string, rel: string)
    requires IsRelative(os, base) && IsRelative(os, rel)
    ensures IsRelative(os, Join(os, base, rel))
  {
    var p := Join(os, base, rel);
    if |base| == 1 {
      assert p[0] == base[0] && p[1] == MainSeparator(os);
    } else if |base| > 1 {
      assert p[0] == base[0] && p[1] == base[1];
    }
  }

  /** Joining is associative: pushing `b` then `c` equals pushing the path `b` joined with `c`. */
  lemma JoinAssociative(os: Os, a: string, b: string, c: string)
    requires IsRelative(os, b) && IsRelative(os, c)
    ensures IsRelative(os, Join(os, b, c))
    ensures Join(os, Join(os, a, b), c) == Join(os, a, Join(os, b, c))
  {
    JoinKeepsRelative(os, b, c);
    var s1 := SeparatorAfter(os, a);
    var ab := a + s1 + b;
    if |b| > 0 {
      var s2 := SeparatorAfter(os, b);
      assert ab[|ab| - 1] == b[|b| - 1];
      assert SeparatorAfter(os, ab) == s2;
      assert ab + s2 + c == a + s1 + (b + s2 + c);
    } else {
      assert ab == a + s1;
      assert SeparatorAfter(os, ab) == [];
      assert Join(os, b, c) == c;
    }
  }

  predicate AllRelative(os: Os, segments: seq<string>)
  {
    forall i :: 0 <= i < |segments| ==> IsRelative(os, segments[i])
  }

  /** The path built by pushing each segment in turn onto an empty path (`collect::<PathBuf>()`). */
  function Collect(os: Os, segments: seq<string>): (p: string)
    requires AllRelative(os, segments)
    decreases |segments|
  {
    if |segments| == 0 then ""
    else Join(os, Collect(os, segments[..|segments| - 1]), segments[|segments| - 1])
  }

  /** Pushing relative segments onto an empty path gives a relative path. */
  lemma {:induction false} CollectIsRelative(os: Os, segments: seq<string>)
    requires AllRelative(os, segments)
    ensures IsRelative(os, Collect(os, segments))
    decreases |segments|
  {
    if |segments| > 0 {
      CollectIsRelative(os, segments[..|segments| - 1]);
      JoinKeepsRelative(os, Collect(os, segments[..|segments| - 1]), segments[|segments| - 1]);
    }
  }

  /** Index of the last occurrence of `c` in `s`, or -1. */
  function LastIndexOf(s: string, c: char): (k: int)
    ensures -1 <= k < |s|
    ensures k >= 0 ==> s[k] == c
    ensures forall j :: k < j < |s| ==> s[j] != c
    decreases |s|
  {
    if |s| == 0 then -1
    else if s[|s| - 1] == c then |s| - 1
    else LastIndexOf(s[..|s| - 1], c)
  }

  /** A character absent from every position after `k` is absent from the suffix after `k`. */
  lemma AbsentAfter(s: string, k: nat, c: char)
    requires k < |s|
    requires forall j :: k < j < |s| ==> s[j] != c
    ensures c !in s[k + 1..]
  {
    var t := s[k + 1..];
    forall i | 0 <= i < |t| ensures t[i] != c {
      assert t[i] == s[k + 1 + i];
    }
  }

  /** Rust's `file_stem`: the name before its last '.', or the whole name when it has no '.'
      other than a leading one (and the name ".." itself). */
  function FileStem(name: string): (stem: string)
    ensures |stem| <= |name| && stem == name[..|stem|]
    ensures '.' !in name ==> stem == name
    ensures |name| > 0 ==> |stem| > 0
    ensures |stem| < |name| ==> |stem| > 0 && name[|stem|] == '.' && '.' !in name[|stem| + 1..]
    ensures 0 < |stem| == |name| ==> name == ".." || '.' !in name[1..]
  {
    var k := LastIndexOf(name, '.');
    if name == ".." then name
    else if k <= 0 then (if |name| > 0 then AbsentAfter(name, 0, '.'); name else name)
    else AbsentAfter(name, k, '.'); name[..k]
  }

  /** Rust's `with_extension` on a file name: the stem, then '.' and `ext` unless `ext` is empty. */
  function WithExtension(name: string, ext: string): (r: string)
    ensures ext != "" ==> r == FileStem(name) + "." + ext
    ensures ext == "" ==> r == FileStem(name)
  {
    if ext == "" then FileStem(name) else FileStem(name) + "." + ext
  }

  /** Re-extending a re-extended name drops only the extension just added. */
  lemma WithExtensionStem(name: string, ext: string)
    requires |name| > 0 && ext != "" && '.' !in ext
    ensures FileStem(WithExtension(name, ext)) == FileStem(name)
    ensures WithExtension(WithExtension(name, ext), ext) == WithExtension(name, ext)
  {
    var stem := FileStem(name);
    var r := WithExtension(name, ext);
    assert r == stem + "." + ext;
    assert r[|stem|] == '.';
    var k := LastIndexOf(r, '.');
    forall j | |stem| < j < |r| ensures r[j] != '.' {
      assert r[j] == ext[j - |stem| - 1];
    }
    assert k == |stem|;
    assert r != "..";
    assert r[..k] == stem;
  }

  /** `push` on Windows and Linux: a separator after a directory, none after a bare drive or a trailing separator. */
  lemma JoinExamples()
    ensures Join(Windows, "C:", "x") == "C:x"
    ensures Join(Windows, "C:\\", "x") == "C:\\x"
    ensures Join(Windows, "C:\\d", "x") == "C:\\d\\x"
    ensures Join(Linux, "/d", "x") == "/d/x"
    ensures Join(Linux, "", "x") == "x"
  {
    assert IsBareDrive(Windows, "C:");
    assert !NeedsSeparator(Windows, "C:\\");
    assert NeedsSeparator(Windows, "C:\\d");
  }

  lemma WithExtensionExamples()
    ensures WithExtension("roast.exe", "json") == "roast.json"
    ensures WithExtension("roast", "json") == "roast.json"
    ensures WithExtension("my.app.exe", "json") == "my.app.json"
    ensures WithExtension(".launcher", "json") == ".launcher.json"
  {
    assert "roast.exe"[5] == '.';
    assert "roast.exe"[..5] == "roast";
    assert "my.app.exe"[6] == '.';
    assert "my.app.exe"[..6] == "my.app";
    assert ".launcher"[0] == '.';
  }
}
