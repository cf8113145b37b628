/**
 * The MySQL server detector.  File-hint detection classifies a path by its
 * suffix (`safe_mysqld` for 3.x, `mysqld_safe` for 4.x or 5.x, told apart
 * by the `isamchk`/`myisamchk` utilities two levels up).  Auto-detection
 * turns the executables of the `mysqld` processes into candidate paths and
 * runs file-hint detection on each.
 *
 * The host is an oracle: the process-table query results, the executable
 * path of each process that can be introspected, and the set of paths that
 * exist (`g_stat` succeeds exactly on those).
 */
module MySqlDetector {
  import opened Wrappers
  import opened CStrings
  import opened PathUtil
  import opened ServerResources

  /** The process-table query for running `mysqld` processes. */
  const PtqlQuery: string := "State.Name.eq=mysqld"

  /** The detector's type name, also used as the type and identifier prefix of its resources. */
  const DetectorType: string := "mysql"

  const Version3: string := "3.x"
  const Version4: string := "4.x"
  const Version5: string := "5.x"

  /** The start script of the 3.x layout and of the 4.x/5.x layout. */
  const OldStartScript: string := "safe_mysqld"
  const NewStartScript: string := "mysqld_safe"

  /** The table check utilities: 4.x includes `isamchk`; 5.x no longer does and has `myisamchk`. */
  const IsamChk: string := "isamchk"
  const MyIsamChk: string := "myisamchk"

  type Pid = int

  /**
   * The system as the detector sees it: `queries` maps a process query to
   * its matches (a query missing from the map fails), `exes` maps each
   * introspectable process to its executable path, `files` holds the paths
   * that exist.
   */
  datatype Host = Host(queries: map<string, seq<Pid>>, exes: map<Pid, string>, files: set<string>)

  /** `fn_get_pids`: the matching processes; a failed query gives none. */
  function GetPids(host: Host, query: string): seq<Pid>
  {
    if query in host.queries then host.queries[query] else []
  }

  /** `fn_get_proc_exe`: the executable path, or `None` when the process cannot be introspected. */
  function GetProcExe(host: Host, pid: Pid): Option<string>
  {
    if pid in host.exes then Some(host.exes[pid]) else None
  }

  /** `g_path_is_absolute` on a POSIX system. */
  predicate IsAbsolute(path: string)
  {
    |path| > 0 && path[0] == Separator
  }

  /** `root/bin/name`. */
  function InBin(root: string, name: string): string
  {
    root + [Separator] + "bin" + [Separator] + name
  }

  /** `get_server_values_i`: the one resource `{type}:{version}:{path}` of the detector's type. */
  function ServerValues(path: string, version: string): seq<Resource>
  {
    [Resource(DetectorType + ":" + version + ":" + path, DetectorType, version)]
  }

  /** A resource that this detector reports for `path` at one of its three versions. */
  predicate WellFormed(r: Resource, path: string)
  {
    && r.version in {Version3, Version4, Version5}
    && r.resourceType == DetectorType
    && r.identifier == DetectorType + ":" + r.version + ":" + path
  }

  /** The version the companion utilities under `root/bin` indicate, if any. */
  function CompanionVersion(host: Host, root: string): Option<string>
  {
    var isam := InBin(root, IsamChk) in host.files;
    var myisam := InBin(root, MyIsamChk) in host.files;
    if isam && !myisam then Some(Version4)
    else if !isam && myisam then Some(Version5)
    else None
  }

  /** `file_detect_i`: at most one resource, reported for the hint path itself. */
  function FileDetect(host: Host, path: string): (r: seq<Resource>)
    ensures |r| <= 1
    ensures forall k :: 0 <= k < |r| ==> WellFormed(r[k], path)
    ensures !EndsWith(path, OldStartScript) && !EndsWith(path, NewStartScript) ==> r == []
  {
    if EndsWith(path, OldStartScript) then
      ServerValues(path, Version3)
    else if EndsWith(path, NewStartScript) then
      match ParentDir(path, 2)
      case None => []
      case Some(dirname) =>
        if InBin(dirname, IsamChk) in host.files then
          if InBin(dirname, MyIsamChk) !in host.files then ServerValues(path, Version4) else []
        else if InBin(dirname, MyIsamChk) in host.files then
          ServerValues(path, Version5)
        else []
    else []
  }

  /** A `safe_mysqld` suffix gives one 3.x resource without looking at the file system. */
  lemma FileDetectOldLayout(host: Host, path: string)
    requires EndsWith(path, OldStartScript)
    ensures FileDetect(host, path) == ServerValues(path, Version3)
    ensures forall other: Host :: FileDetect(other, path) == FileDetect(host, path)
  {
  }

  /**
   * A `mysqld_safe` suffix gives 4.x exactly when `isamchk` exists and
   * `myisamchk` does not under the root two levels up, 5.x exactly when
   * only `myisamchk` exists, and nothing when both or neither exist.
   */
  lemma FileDetectNewLayout(host: Host, path: string, root: string)
    requires EndsWith(path, NewStartScript) && ParentDir(path, 2) == Some(root)
    ensures FileDetect(host, path) == ServerValues(path, Version4)
      <==> InBin(root, IsamChk) in host.files && InBin(root, MyIsamChk) !in host.files
    ensures FileDetect(host, path) == ServerValues(path, Version5)
      <==> InBin(root, IsamChk) !in host.files && InBin(root, MyIsamChk) in host.files
    ensures FileDetect(host, path) == []
      <==> (InBin(root, IsamChk) in host.files <==> InBin(root, MyIsamChk) in host.files)
    ensures FileDetect(host, path) == match CompanionVersion(host, root)
      case None => []
      case Some(v) => ServerValues(path, v)
  {
    assert !EndsWith(path, OldStartScript) by {
      assert path[|path| - 11..] == NewStartScript;
    }
    assert ServerValues(path, Version4)[0].version != ServerValues(path, Version5)[0].version;
  }

  /** A `mysqld_safe` path whose root cannot be found two levels up gives nothing. */
  lemma FileDetectNoRoot(host: Host, path: string)
    requires EndsWith(path, NewStartScript) && ParentDir(path, 2).None?
    ensures FileDetect(host, path) == []
  {
    assert !EndsWith(path, OldStartScript) by {
      assert path[|path| - 11..] == NewStartScript;
    }
  }

  /** The suffix test is not a whole-segment test: any name ending in `safe_mysqld` counts as 3.x. */
  lemma FileDetectPlainSuffix(host: Host)
    ensures FileDetect(host, "/opt/unsafe_mysqld") == ServerValues("/opt/unsafe_mysqld", Version3)
  {
    assert "/opt/unsafe_mysqld"[7..] == OldStartScript;
  }

  /** `root/bin/name` ends with `name`. */
  lemma InBinEndsWith(root: string, name: string)
    ensures EndsWith(InBin(root, name), name)
  {
    var s := InBin(root, name);
    assert s[|s| - |name|..] == name;
  }

  /** Two levels up from `root/bin/name` is `root`, for a name without separators. */
  lemma InBinRoot(root: string, name: string)
    requires Separator !in name
    ensures ParentDir(InBin(root, name), 2) == Some(root)
  {
    assert InBin(root, name) == root + [Separator] + "bin" + [Separator] + name;
    GrandParentOf(root, "bin", name);
  }

  /**
   * `pid_list_iterator`'s decision for one process: nothing when the
   * executable cannot be resolved, is relative, or has no root two levels
   * up; otherwise `root/bin/mysqld_safe` when it exists and
   * `root/bin/safe_mysqld` in every other case, existing or not.
   */
  function Candidate(host: Host, pid: Pid): Option<string>
  {
    match GetProcExe(host, pid)
    case None => None
    case Some(exe) =>
      if !IsAbsolute(exe) then None
      else match ParentDir(exe, 2)
        case None => None
        case Some(installPath) =>
          if InBin(installPath, NewStartScript) in host.files then Some(InBin(installPath, NewStartScript))
          else Some(InBin(installPath, OldStartScript))
  }

  /** The candidate as a list of zero or one paths. */
  function CandidateList(host: Host, pid: Pid): seq<string>
  {
    match Candidate(host, pid)
    case None => []
    case Some(p) => [p]
  }

  /** The candidate paths of `pids`, in order. */
  function CandidatePaths(host: Host, pids: seq<Pid>): seq<string>
  {
    if pids == [] then []
    else CandidatePaths(host, pids[..|pids| - 1]) + CandidateList(host, pids[|pids| - 1])
  }

  /** File-hint detection of every path, concatenated in order. */
  function DetectAll(host: Host, paths: seq<string>): seq<Resource>
  {
    if paths == [] then []
    else DetectAll(host, paths[..|paths| - 1]) + FileDetect(host, paths[|paths| - 1])
  }

  /**
   * What file-hint detection makes of a process's candidate: a process
   * without `mysqld_safe` still yields a 3.x resource; otherwise the
   * companion utilities under its root decide.
   */
  lemma {:induction false} CandidateDetection(host: Host, pid: Pid, root: string)
    requires pid in host.exes && IsAbsolute(host.exes[pid])
    requires ParentDir(host.exes[pid], 2) == Some(root)
    ensures InBin(root, NewStartScript) !in host.files ==>
      FileDetect(host, Candidate(host, pid).value) == ServerValues(InBin(root, OldStartScript), Version3)
    ensures InBin(root, NewStartScript) in host.files ==>
      FileDetect(host, Candidate(host, pid).value) == match CompanionVersion(host, root)
        case None => []
        case Some(v) => ServerValues(InBin(root, NewStartScript), v)
  {
    if InBin(root, NewStartScript) in host.files {
      InBinEndsWith(root, NewStartScript);
      InBinRoot(root, NewStartScript);
      FileDetectNewLayout(host, InBin(root, NewStartScript), root);
    } else {
      InBinEndsWith(root, OldStartScript);
    }
  }

  /** Every candidate is a path that file-hint detection classifies by its suffix. */
  lemma {:induction false} CandidatePathsShape(host: Host, pids: seq<Pid>)
    ensures |CandidatePaths(host, pids)| <= |pids|
    ensures forall p :: p in CandidatePaths(host, pids) ==>
      EndsWith(p, NewStartScript) || EndsWith(p, OldStartScript)
  {
    if pids != [] {
      CandidatePathsShape(host, pids[..|pids| - 1]);
      match Candidate(host, pids[|pids| - 1])
      case None =>
      case Some(p) =>
        var installPath := ParentDir(host.exes[pids[|pids| - 1]], 2).value;
        InBinEndsWith(installPath, NewStartScript);
        InBinEndsWith(installPath, OldStartScript);
    }
  }

  /** Detection of many paths gives at most one resource per path, each well formed for some path. */
  lemma {:induction false} DetectAllShape(host: Host, paths: seq<string>)
    ensures |DetectAll(host, paths)| <= |paths|
    ensures forall r :: r in DetectAll(host, paths) ==> exists k :: 0 <= k < |paths| && WellFormed(r, paths[k])
  {
    if paths != [] {
      var init := paths[..|paths| - 1];
      DetectAllShape(host, init);
      forall r | r in DetectAll(host, paths)
        ensures exists k :: 0 <= k < |paths| && WellFormed(r, paths[k])
      {
        if r in DetectAll(host, init) {
          var k :| 0 <= k < |init| && WellFormed(r, init[k]);
          assert paths[k] == init[k];
        } else {
          assert WellFormed(r, paths[|paths| - 1]);
        }
      }
    }
  }

  /**
   * `pid_list_iterator`: append the candidate of one process to `paths`.
   * A probe that finds `mysqld_safe` jumps to the append; otherwise the
   * `safe_mysqld` path is built and appended whether the probe finds it or not.
   */
  method PidListIterator(host: Host, pid: Pid, paths: seq<string>) returns (newPaths: seq<string>)
    ensures newPaths == paths + CandidateList(host, pid)
  {
    var exe := GetProcExe(host, pid);
    if exe.None? {
      return paths;
    }
    if !IsAbsolute(exe.value) {
      return paths;
    }
    var installPath := ParentDir(exe.value, 2);
    if installPath.None? {
      return paths;
    }
    var path := InBin(installPath.value, NewStartScript);
    if path !in host.files {
      path := InBin(installPath.value, OldStartScript);
    }
    newPaths := paths + [path];
  }

  /** `get_server_process_list_i`: the candidate paths of the `mysqld` processes, in process order. */
  method GetServerProcessList(host: Host) returns (paths: seq<string>)
    ensures paths == CandidatePaths(host, GetPids(host, PtqlQuery))
    ensures |paths| <= |GetPids(host, PtqlQuery)|
  {
    var pids := GetPids(host, PtqlQuery);
    if pids == [] {
      return [];
    }
    paths := [];
    var i := 0;
    while i < |pids|
      invariant 0 <= i <= |pids|
      invariant paths == CandidatePaths(host, pids[..i])
    {
      assert pids[..i + 1][..i] == pids[..i];
      paths := PidListIterator(host, pids[i], paths);
      i := i + 1;
    }
    assert pids[..|pids|] == pids;
    CandidatePathsShape(host, pids);
  }

  /**
   * `auto_detect_i`: file-hint detection of every candidate path, the
   * non-empty results concatenated in order.  No matching process, or a
   * failed query, gives no resource.
   */
  method AutoDetect(host: Host) returns (servers: seq<Resource>)
    ensures servers == DetectAll(host, CandidatePaths(host, GetPids(host, PtqlQuery)))
    ensures |servers| <= |GetPids(host, PtqlQuery)|
    ensures GetPids(host, PtqlQuery) == [] ==> servers == []
  {
    var paths := GetServerProcessList(host);
    servers := [];
    var i := 0;
    while i < |paths|
      invariant 0 <= i <= |paths|
      invariant servers == DetectAll(host, paths[..i])
    {
      assert paths[..i + 1][..i] == paths[..i];
      var found := FileDetect(host, paths[i]);
      if |found| > 0 {
        servers := servers + found;
      }
      i := i + 1;
    }
    assert paths[..|paths|] == paths;
    DetectAllShape(host, paths);
  }

  /**
   * `get_server_values_i` on records: create a `ServerResource`, set its
   * identifier, type and version, and return it as a one-element list.
   * The record is new, and the caller owns it.
   */
  method GetServerValues(path: string, version: string) returns (servers: seq<ServerResource>)
    ensures |servers| == 1 && fresh(servers[0])
    ensures servers[0].View() == FieldsOf(ServerValues(path, version)[0])
  {
    var server := new ServerResource();
    server.SetIdentifier(DetectorType + ":" + version + ":" + path);
    server.SetType(DetectorType);
    server.SetVersion(version);
    servers := [server];
  }
}
