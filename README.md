# Detector plugin core — a Dafny model

This project models the sequential core of the plugin SDK of a host-monitoring
agent:

- the **path chopper** `get_parent_dir_i`, which removes trailing path
  segments by truncating at the last `/`, level by level;
- the **detector registry**: an insertion-ordered list of `ServerDetector`
  records whose type names are unique up to ASCII case, with register,
  unregister and snapshot operations, and the writer side of its
  reader/writer lock;
- the **`ServerResource` record** with its replace-on-set setters and getters;
- the **MySQL detector**: file-hint classification of a path into 3.x, 4.x or
  5.x by its suffix and by companion utilities two levels up, and
  auto-detection from the executables of the running `mysqld` processes.

The operating system is an oracle (`MySqlDetector.Host`): the result of each
process-table query (a failed query gives no processes), the executable path
of each process that can be introspected, and the set of paths that exist
(`g_stat` succeeds exactly on them).

Files: `wrappers.dfy` (Option), `cstrings.dfy` (`strcasecmp`, `strrchr`,
suffix compare, character counts), `path_util.dfy`, `registry.dfy`,
`server_resource.dfy`, `mysql_detector.dfy`.

Pure decisions are functions (`ParentDir`, `FileDetect`, `Candidate`,
`AfterRegister`, `AfterUnregister`); the code that works step by step is
imperative Dafny proved against them: `GetParentDir` writes NULs into a
`MaxPath`-character array, the registry is a class whose methods reassign its
`entries` list, `ServerResource` is a class whose setters overwrite its
fields, and `PidListIterator`, `GetServerProcessList` and `AutoDetect`
append in loops. The registry keeps its entries in insertion order, and the
model states that order.

## Model

| member | source | states |
|---|---|---|
| `CStrings.LastIndexOf` | pdk/pdk_plugin_api.c:28-29 | `strrchr`: the result holds the separator and none follows it; `None` exactly when the character does not occur |
| `CStrings.CountAtLast` | pdk/pdk_plugin_api.c:28-32 | writing a NUL over the last separator leaves exactly one separator fewer |
| `PathUtil.ParentDirNoLevels` | pdk/pdk_plugin_api.c:20-23 | zero (or negative) levels give the path unchanged and succeed |
| `PathUtil.ParentDirFailsIff` | pdk/pdk_plugin_api.c:27-31 | with `n > 0` levels the chop fails (-1) exactly when the path has fewer than `n` separators |
| `PathUtil.ParentDirCut` | pdk/pdk_plugin_api.c:27-35 | a successful chop of `n > 0` levels is a proper prefix cut at a separator with exactly `n` separators from there to the end, so it has `n` separators fewer |
| `PathUtil.ParentDirExamples` | pdk/pdk_plugin_api.c:9-13 | `/usr/local/foo` up 1 is `/usr/local`; `/usr/local/bin/mysqld` up 2 is `/usr/local`; `/a` up 5 fails |
| `PathUtil.GrandParentOf` | plugin/mysql-plugin/MySQLServerDetector.c:37-42 | two levels up from `root/dir/name` is `root` |
| `PathUtil.GetParentDir` | pdk/pdk_plugin_api.c:14-38 | the buffer loop returns 0 exactly when `ParentDir` succeeds, and then the chopped path; -1 otherwise |
| `ServerResources.ServerResource.constructor` | pdk/pdk_server_detector.h:64 | a new record has its three fields NULL |
| `ServerResources.ServerResource.SetIdentifier` | pdk/pdk_server_detector.h:67-81 | the getter then returns the new identifier; type and version are unchanged |
| `ServerResources.ServerResource.SetType` | pdk/pdk_server_detector.h:83-96 | the getter then returns the new type; identifier and version are unchanged |
| `ServerResources.ServerResource.SetVersion` | pdk/pdk_server_detector.h:98-111 | the getter then returns the new version; identifier and type are unchanged |
| `ServerResources.SetIdentifierIdempotent` | pdk/pdk_server_detector.h:67-75 | setting the identifier twice leaves the same record as setting it once |
| `ServerResources.SetTypeIdempotent` | pdk/pdk_server_detector.h:83-91 | setting the type twice leaves the same record as setting it once |
| `ServerResources.SetVersionIdempotent` | pdk/pdk_server_detector.h:98-106 | setting the version twice leaves the same record as setting it once |
| `DetectorRegistry.FirstMatch` | pdk/pdk_plugin_api.c:110-113 | the first index whose type equals the given one up to case, `None` exactly when no entry matches |
| `DetectorRegistry.RegisterKeepsUnique` | pdk/pdk_plugin_api.c:92-99 | registering keeps type names unique up to case |
| `DetectorRegistry.UnregisterDeletesFirstMatch` | pdk/pdk_plugin_api.c:110-121 | unregister deletes exactly the first case-insensitive match and keeps the others in order; no match leaves the list unchanged |
| `DetectorRegistry.UnregisterKeepsUnique` | pdk/pdk_plugin_api.c:110-117 | unregistering keeps type names unique, and no entry of that type remains |
| `DetectorRegistry.RegisterThenUnregister` | pdk/pdk_plugin_api.c:92-121 | register of a new type followed by unregister of it restores the list |
| `DetectorRegistry.RegisterTwiceThenAgain` | pdk/pdk_plugin_api.c:92-121 | a second registration of a type (in any case) is a duplicate and changes nothing; after unregistering, the type is free again |
| `DetectorRegistry.Registry.constructor` | pdk/pdk_plugin_api.c:5-7 | the registry starts empty and unlocked |
| `DetectorRegistry.Registry.IndexOfType` | pdk/pdk_plugin_api.c:92-97 | the index loop returns the first case-insensitive match, or -1 exactly when there is none |
| `DetectorRegistry.Registry.RegisterAsWritten` | pdk/pdk_plugin_api.c:87-103 | -1 and the list unchanged on a duplicate type, otherwise 0 and the detector appended; the writer lock stays held exactly on the duplicate path |
| `DetectorRegistry.Registry.Register` | pdk/pdk_plugin_api.c:87-103 | the same result and list as written, with the writer lock released on every path |
| `DetectorRegistry.Registry.UnregisterAsWritten` | pdk/pdk_plugin_api.c:105-122 | 0 and the first match deleted, or -1 and the list unchanged; the writer lock stays held exactly on the success path |
| `DetectorRegistry.Registry.Unregister` | pdk/pdk_plugin_api.c:105-122 | the same result and list as written, with the writer lock released on every path |
| `DetectorRegistry.Registry.GetServerDetectors` | pdk/pdk_plugin_api.c:129-143 | the append loop returns the registry's entries, element by element and in order |
| `DetectorRegistry.SnapshotIsPointInTime` | pdk/pdk_plugin_api.c:129-143 | a snapshot keeps the contents at the time it was taken through later register and unregister calls |
| `DetectorRegistry.RegisterCycle` | pdk/pdk_plugin_api.c:87-122 | register, register again, unregister, register return 0, -1, 0, 0 and leave the detector registered once |
| `DetectorRegistry.DuplicateRegisterLeaksLock` | pdk/pdk_plugin_api.c:91-96 | registering one detector twice as written leaves the writer lock held |
| `DetectorRegistry.UnregisterLeaksLock` | pdk/pdk_plugin_api.c:109-116 | a successful unregister as written leaves the writer lock held |
| `DetectorRegistry.DuplicateRegisterReleasesLock` | pdk/pdk_plugin_api.c:91-100 | with the lock released on every path, a duplicate registration leaves the registry unlocked |
| `CStrings.EqualsIgnoreCase` | pdk/pdk_plugin_api.c:94 | `strcasecmp(a, b) == 0`: same length and equal characters after ASCII lower-casing |
| `CStrings.EndsWith` | plugin/mysql-plugin/MySQLServerDetector.c:105-106 | the suffix compare: the string is at least as long as the suffix and its last characters are the suffix |
| `PathUtil.ParentDir` | pdk/pdk_plugin_api.c:14-38 | the path itself for `levels <= 0`; otherwise the path cut at its last separator `levels` times, `None` (-1) when a cut finds no separator |
| `DetectorRegistry.HasType` | pdk/pdk_plugin_api.c:92-94 | some entry's type equals the given one up to case |
| `DetectorRegistry.AfterRegister` | pdk/pdk_plugin_api.c:87-103 | the list after register: unchanged on a duplicate type, the detector appended otherwise |
| `DetectorRegistry.AfterUnregister` | pdk/pdk_plugin_api.c:105-122 | the list after unregister: the first match deleted, unchanged when nothing matches |
| `ServerResources.ServerResource.GetIdentifier` | pdk/pdk_server_detector.h:77-81 | reads the identifier field (`None` for NULL) |
| `ServerResources.ServerResource.GetType` | pdk/pdk_server_detector.h:92-96 | reads the type field (`None` for NULL) |
| `ServerResources.ServerResource.GetVersion` | pdk/pdk_server_detector.h:107-111 | reads the version field (`None` for NULL) |
| `MySqlDetector.GetPids` | pdk/pdk_plugin_api.c:41-69 | the oracle for the process query: its matches, none when the query fails |
| `MySqlDetector.GetProcExe` | pdk/pdk_plugin_api.c:71-85 | the oracle for a process's executable path, `None` when it cannot be introspected |
| `MySqlDetector.IsAbsolute` | plugin/mysql-plugin/MySQLServerDetector.c:33 | `g_path_is_absolute` on POSIX: the path starts with `/` |
| `MySqlDetector.ServerValues` | plugin/mysql-plugin/MySQLServerDetector.c:82-100 | one resource with identifier `mysql:{version}:{path}`, type `mysql` and the given version |
| `MySqlDetector.CompanionVersion` | plugin/mysql-plugin/MySQLServerDetector.c:119-136 | 4.x when only `isamchk` exists under root/bin, 5.x when only `myisamchk` does, `None` when both or neither do |
| `MySqlDetector.Candidate` | plugin/mysql-plugin/MySQLServerDetector.c:28-59 | nothing for an unresolvable, relative or rootless executable; else `root/bin/mysqld_safe` if it exists, `root/bin/safe_mysqld` otherwise |
| `MySqlDetector.InBin` | plugin/mysql-plugin/MySQLServerDetector.c:45-46 | the `"%s%c%s%c%s"` path `root/bin/name` built from a root, `bin` and a file name (also at lines 52-53, 121-122, 124-125 and 131-132) |
| `MySqlDetector.CandidatePaths` | plugin/mysql-plugin/MySQLServerDetector.c:75 | what `g_list_foreach` with `pid_list_iterator` leaves in `paths`: each pid's candidate, in pid order |
| `MySqlDetector.DetectAll` | plugin/mysql-plugin/MySQLServerDetector.c:156-164 | the concatenation, in path order, of file-hint detection over every path |
| `MySqlDetector.FileDetect` | plugin/mysql-plugin/MySQLServerDetector.c:103-143 | at most one resource, `{type}:{version}:{path}` of type `mysql` at 3.x, 4.x or 5.x; nothing when the path has neither suffix |
| `MySqlDetector.FileDetectOldLayout` | plugin/mysql-plugin/MySQLServerDetector.c:105-110 | a `safe_mysqld` suffix gives exactly one 3.x resource whatever the file system holds |
| `MySqlDetector.FileDetectNewLayout` | plugin/mysql-plugin/MySQLServerDetector.c:112-136 | a `mysqld_safe` suffix gives 4.x iff only `isamchk` exists under root/bin, 5.x iff only `myisamchk` does, nothing iff both or neither |
| `MySqlDetector.FileDetectNoRoot` | plugin/mysql-plugin/MySQLServerDetector.c:119-142 | a `mysqld_safe` path with no root two levels up gives nothing |
| `MySqlDetector.FileDetectPlainSuffix` | plugin/mysql-plugin/MySQLServerDetector.c:105-106 | the suffix test is not a whole-segment test: `/opt/unsafe_mysqld` is 3.x |
| `MySqlDetector.CandidateDetection` | plugin/mysql-plugin/MySQLServerDetector.c:44-59 | a process whose root lacks `mysqld_safe` still yields one 3.x resource for `root/bin/safe_mysqld`; otherwise the companions under its root decide |
| `MySqlDetector.CandidatePathsShape` | plugin/mysql-plugin/MySQLServerDetector.c:65-80 | at most one candidate per process, each ending in `mysqld_safe` or `safe_mysqld` |
| `MySqlDetector.DetectAllShape` | plugin/mysql-plugin/MySQLServerDetector.c:156-164 | at most one resource per path, each well formed for one of the paths |
| `MySqlDetector.PidListIterator` | plugin/mysql-plugin/MySQLServerDetector.c:21-60 | appends nothing for an unresolvable, relative or rootless executable, else exactly one path: `root/bin/mysqld_safe` if it exists, `root/bin/safe_mysqld` otherwise |
| `MySqlDetector.GetServerProcessList` | plugin/mysql-plugin/MySQLServerDetector.c:65-80 | the candidate paths of the `mysqld` processes in process order, no more of them than processes |
| `MySqlDetector.AutoDetect` | plugin/mysql-plugin/MySQLServerDetector.c:149-169 | the in-order concatenation of file-hint detection over the candidates; at most one resource per process; none when the query finds nothing or fails |
| `MySqlDetector.GetServerValues` | plugin/mysql-plugin/MySQLServerDetector.c:82-100 | one new record, owned by the caller, whose identifier, type and version are those of the `{type}:{version}:{path}` resource |

## Left out

- `get_pids_i` and `get_proc_exe_i` call the SIGAR library; they are the oracle functions `GetPids` (a failed or malformed query gives no processes) and `GetProcExe` (`None` when the process cannot be introspected).
- `g_stat` probes are membership in `Host.files`.
- The body of `server_resource_create` is not part of this model; its constructor returns a record whose three fields are NULL, which the setters' NULL tests presuppose.
- The reader/writer lock is modelled only as the flag `writerHeld`; threads, blocking and the reader side (taken and dropped within one call) are not. A call that would block on a held writer lock requires `!writerHeld`.
- `ServerDetectorReference` and `ServerDetectorDeReference` expand to nothing, so no reference count is modelled and nothing is destroyed at zero.
- `put_server_detectors_i` only dereferences (a no-op) and frees the list cells; the model's snapshot is a value, so there is nothing left for it to do.
- `iterate_server_detectors_i` dispatches a callback over the live list without the lock; higher-order callbacks and unsynchronised access are not modelled.
- `plugin_api_init`, `plugin_api_cleanup` and the load-time `module_register` constructor (module lifecycle and plugin loading) are not modelled.
- Windows registry detection is compiled out (`RANGER_WIN32_ENABLE` is 0) and not modelled.
- A detector's capability table is an opaque handle (`Operations`); only its type name takes part in the registry's logic.
- C memory handling (`g_strdup`, `g_free`, list cells) is not modelled; `snprintf` truncation to `MAX_PATH` and `MAX_IDENTIFIER` and `sprintf` overflow of `filename` are not modelled: strings are unbounded.
- `PathUtil.GetParentDir` requires a path shorter than `MaxPath` and free of NUL, because the source copies it unchecked into a `MAX_PATH` buffer; on failure the caller's buffer is untouched in C and the model returns the empty string there.
- `FileDetect`, `Candidate` and `PidListIterator` use the function `ParentDir`; `GetParentDir`'s contract shows the buffer code computes it for every path that fits.
- Case-insensitive comparison is `strcasecmp` in the C locale: only ASCII letters are folded.
- The identifier and the type of each resource use `mySQLServerDetector.name`, a field the detector record does not have; the model uses the detector's `type`, `mysql`, for both the identifier prefix and the resource type.
- The 3.x test compares a plain string suffix, not the final path segment: `/opt/unsafe_mysqld` counts (`FileDetectPlainSuffix`).

## Findings

| source | as written | input that shows it | evidently intended | confidence | as-written member | corrected member |
|---|---|---|---|---|---|---|
| pdk/pdk_plugin_api.c:91-96 | the duplicate-type branch returns -1 while still holding the writer lock | register a detector, then register it (or any type equal up to case) again; `DuplicateRegisterLeaksLock` ends with the lock held, so every later register, unregister or get_server_detectors call from another thread blocks | release the writer lock before returning -1, as `DuplicateRegisterReleasesLock` shows | high; not executed | `DetectorRegistry.Registry.RegisterAsWritten` | `DetectorRegistry.Registry.Register` |
| pdk/pdk_plugin_api.c:109-116 | the successful branch returns 0 while still holding the writer lock | register a detector, then unregister its type; `UnregisterLeaksLock` ends with the lock held, so every later register, unregister or get_server_detectors call from another thread blocks | release the writer lock before returning 0 | high; not executed | `DetectorRegistry.Registry.UnregisterAsWritten` | `DetectorRegistry.Registry.Unregister` |
