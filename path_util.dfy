/**
 * The path chopper of the plugin API (`get_parent_dir_i`): remove `levels`
 * trailing segments of a path by truncating, once per level, at the last
 * path separator.
 */
module PathUtil {
  import opened Wrappers
  import opened CStrings

  /** `PATH_SEPERATOR` on the non-Windows build. */
  const Separator: char := '/'

  /** `MAX_PATH`, which is `PATH_MAX` (4096 on Linux), the size of the scratch buffer. */
  const MaxPath: nat := 4096

  /** The number of separators in a path. */
  function Separators(path: string): nat
  {
    Count(path, Separator)
  }

  /**
   * What `get_parent_dir_i(path, levels, …)` computes: the path itself when
   * `levels <= 0`, otherwise the path cut at its last separator, `levels`
   * times over; `None` (return code -1) when a cut finds no separator.
   */
  function ParentDir(path: string, levels: int): Option<string>
    decreases levels
  {
    if levels <= 0 then Some(path)
    else match LastIndexOf(path, Separator)
      case None => None
      case Some(i) => ParentDir(path[..i], levels - 1)
  }

  /** Zero (or fewer) levels return the path unchanged, and that never fails. */
  lemma ParentDirNoLevels(path: string, levels: int)
    requires levels <= 0
    ensures ParentDir(path, levels) == Some(path)
  {
  }

  /** With `n > 0` levels, the chop fails exactly when the path has fewer than `n` separators. */
  lemma {:induction false} ParentDirFailsIff(path: string, n: int)
    ensures ParentDir(path, n).None? <==> n > 0 && Separators(path) < n
  {
    if n > 0 {
      CountZeroIff(path, Separator);
      match LastIndexOf(path, Separator)
      case None =>
      case Some(i) =>
        CountAtLast(path, Separator, i);
        ParentDirFailsIff(path[..i], n - 1);
    }
  }

  /**
   * A successful chop of `n > 0` levels is a proper prefix of the path, cut
   * at a separator that has exactly `n` separators from it to the end; so the
   * result has exactly `n` separators fewer than the path.
   */
  lemma {:induction false} ParentDirCut(path: string, n: int, r: string)
    requires n > 0 && ParentDir(path, n) == Some(r)
    ensures |r| < |path| && r == path[..|r|]
    ensures path[|r|] == Separator
    ensures Separators(path[|r|..]) == n
    ensures Separators(r) + n == Separators(path)
  {
    var i :| LastIndexOf(path, Separator) == Some(i);
    CountAtLast(path, Separator, i);
    if n == 1 {
      assert ParentDir(path[..i], 0) == Some(path[..i]);
    } else {
      var p := path[..i];
      ParentDirCut(p, n - 1, r);
      assert path[|r|..] == p[|r|..] + path[i..];
      CountAppend(p[|r|..], path[i..], Separator);
    }
    assert path == path[..|r|] + path[|r|..];
    CountAppend(path[..|r|], path[|r|..], Separator);
  }

  /** Two levels up from `root/dir/name` is `root`, when neither `dir` nor `name` holds a separator. */
  lemma GrandParentOf(root: string, dir: string, name: string)
    requires Separator !in dir && Separator !in name
    ensures ParentDir(root + [Separator] + dir + [Separator] + name, 2) == Some(root)
  {
    var s := root + [Separator] + dir + [Separator] + name;
    var k := |root| + 1 + |dir|;
    assert s[k] == Separator;
    forall j | k < j < |s| ensures s[j] != Separator {
      assert s[j] == name[j - k - 1];
    }
    LastIndexOfAt(s, Separator, k);
    var t := s[..k];
    assert t == root + [Separator] + dir;
    assert t[|root|] == Separator;
    forall j | |root| < j < |t| ensures t[j] != Separator {
      assert t[j] == dir[j - |root| - 1];
    }
    LastIndexOfAt(t, Separator, |root|);
    assert t[..|root|] == root;
  }

  /** The doc comment's example and two more. */
  lemma ParentDirExamples()
    ensures ParentDir("/usr/local/foo", 1) == Some("/usr/local")
    ensures ParentDir("/usr/local/bin/mysqld", 2) == Some("/usr/local")
    ensures ParentDir("/a", 5).None?
  {
    GrandParentOf("/usr/local", "bin", "mysqld");
    assert "/usr/local/bin/mysqld" == "/usr/local" + [Separator] + "bin" + [Separator] + "mysqld";
    LastIndexOfAt("/usr/local/foo", Separator, 10);
    assert "/usr/local/foo"[..10] == "/usr/local";
    ParentDirFailsIff("/a", 5);
    assert "/a"[..1] == "/";
  }

  /**
   * `get_parent_dir_i`.  The path is copied into a scratch buffer of
   * `MaxPath` characters; each level writes a NUL over the last separator of
   * the string held in the buffer.  `len` is the length of that string (the
   * position of its NUL), which `strrchr` finds by scanning.  On failure the
   * caller's buffer is not written; the model returns the empty string there.
   */
  method GetParentDir(path: string, levels: int) returns (status: int, buffer: string)
    requires |path| < MaxPath && Nul !in path
    ensures status == 0 || status == -1
    ensures status == 0 <==> ParentDir(path, levels).Some?
    ensures status == 0 ==> ParentDir(path, levels) == Some(buffer)
  {
    if levels == 0 {
      return 0, path;
    }
    var temp := new char[MaxPath](i => if 0 <= i < |path| then path[i] else Nul);
    var len := |path|;
    var n := levels;
    assert temp[..len] == path;
    while n > 0
      invariant 0 <= len <= |path|
      invariant temp[..len] == path[..len] && temp[len] == Nul
      invariant ParentDir(temp[..len], n) == ParentDir(path, levels)
      decreases n
    {
      var index := LastIndexOf(temp[..len], Separator);
      if index.None? {
        return -1, "";
      }
      ghost var before := temp[..len];
      temp[index.value] := Nul;
      assert temp[..index.value] == before[..index.value];
      len := index.value;
      n := n - 1;
    }
    buffer := temp[..len];
    status := 0;
  }
}
