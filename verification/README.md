# Reference-counted cache directories, in Dafny

This project models the core of the `caching` repository. The library hands
out cache directories to workers and counts how many workers point at each
one. It removes a directory when the last unlocked worker lets go of it. A
small metadata document (`meta.json`) sits beside each cache and records,
among other things, whether the cache is locked.

The repository ships two generations of the library. Both are modelled:

- `monolithcaching`, the current package. References are counted in a Redis
  hash (the *register*). The cache manager can also use object storage (S3),
  with attach and metadata support.
- `caching`, the older package. References are counted in an in-process
  dictionary (the *Monitor*) that maps worker ids to directories. Its S3
  worker can only be created and deleted.

Storage is abstract state, the `World` of `storage.dfy`:

- the register's counter table;
- the set of existing directories, plus the metadata documents held in files;
- the object store, as a map from (bucket, key) to bodies;
- the Monitor's id-to-path table.

Every operation is a pure function from a world (and a worker or manager) to
a new one. An exception raised before any effect is a `Result` error. An
exception raised after some effects is a `Step` whose state keeps those
effects. Python's finalisers (`__del__`) become explicit release calls, and
whatever a finaliser raises is dropped, as Python does.

Modules, one per source file plus shared pieces:

- `Outcomes`: errors and the `Result`/`Step` wrappers.
- `Text`: Python `split`/`join`/`replace` on strings.
- `MetaDoc`: metadata documents.
- `Storage`: the world.
- `Register`: the Redis register.
- `Monitor`: the older package's Monitor.
- `Worker` and `LegacyWorker`: the local workers.
- `S3Worker` and `LegacyS3Worker`: the object-storage workers.
- `Manager` and `LegacyManager`: the cache managers.
- `ManagerProperties` and `LegacyManagerProperties`: lemmas about sequences of manager calls.
- `Lifecycle`: the reference-counting theorem across many workers, for both generations.

The headline result is `Lifecycle.LastReleaseDeletes` for the register, and
`Lifecycle.LegacyLastReleaseDeletes` for the Monitor. Suppose `n` workers
attach to one directory and are then released unlocked, in order. The
directory survives the first `n - 1` releases and is removed at the `n`-th.
`Lifecycle.LockedLastReleaseKeeps` and the contracts of `Worker.Release` and
`LegacyWorker.Release` show that a locked release never removes anything.

## Model

| member | source | states |
|---|---|---|
| Register.GetCount | monolithcaching/register.py:24-34 | None exactly when the path is untracked; otherwise the stored count, which is also the count an absent entry reads as zero for |
| Register.RegisterCache | monolithcaching/register.py:36-48 | an untracked path is stored at 1, a tracked one at its count plus one; the count always goes up by one; no other entry changes |
| Register.DeregisterCache | monolithcaching/register.py:50-72 | RegisterError exactly for an untracked path. Otherwise the count is decremented only when positive, so a stored count that is not negative stays not negative (`Register.CountsStayNonNegative`). The entry is dropped exactly when the cache is unlocked and the count is then at most 0; the count is returned either way, which is 0 when the stored count was not negative. Otherwise the new count is stored. No other entry is touched |
| Register.RegisterDeregisterFresh | caching/register.py:21-41 | registering then deregistering unlocked an untracked path gives back the table unchanged and returns 0 |
| Register.RegisterDeregisterTracked | caching/register.py:21-41 | registering then deregistering a tracked path restores the table, except that an unlocked release of a count-0 entry drops it |
| Register.CountsStayNonNegative | monolithcaching/register.py:66-71 | neither operation ever stores a negative count |
| Monitor.SetItem | caching/monitor.py:19-32 | a non-string key, then a non-string value, raises MonitorError with the type named; the pair is stored exactly when both are strings, and nothing else changes |
| Monitor.CountSharers | caching/monitor.py:42-46 | the counting loop returns the number of ids that point at the path |
| Monitor.CountOneIsSole | caching/monitor.py:42-48 | a count of exactly one means the entry is the only id pointing at its directory, and conversely |
| Monitor.DeleteCache | caching/monitor.py:34-52 | the entry leaves the table and every other entry keeps its value. The directory is removed exactly when the entry exists, its directory exists, no other id shares it, and the cache is unlocked; otherwise the filesystem is unchanged |
| Monitor.DeleteAbsentIsNoOp | caching/monitor.py:42-52 | deleting through an id the Monitor lacks changes neither the table nor the filesystem |
| Monitor.DeleteShrinksSharers | caching/monitor.py:51-52 | the sharers of every path lose exactly the deleted id |
| MetaDoc.Insert | monolithcaching/__init__.py:129 | the key takes the new value and every other key keeps its value |
| MetaDoc.InsertIdempotent | monolithcaching/__init__.py:126-132 | inserting the same pair twice is the same as once |
| MetaDoc.InsertCommutes | monolithcaching/__init__.py:126-132 | inserts on different keys commute, so no insert disturbs an earlier one |
| MetaDoc.LockFlagRoundTrip | monolithcaching/__init__.py:70-72 | after writing the lock flag the document reads as locked exactly when the flag written was true |
| MetaDoc.InsertLiteralSafe | monolithcaching/s3_worker.py:75-78 | a document whose values all survive `json.dumps` then `ast.literal_eval` still does after an insert exactly when the inserted value does |
| Text.JoinSplit | monolithcaching/s3_worker.py:115-117 | joining the pieces of a split by the same separator gives back the string |
| Text.SplitJoin | monolithcaching/s3_worker.py:115-117 | splitting pieces free of the separator, once joined, gives back the pieces |
| Storage.RemoveDir | monolithcaching/worker.py:119 | removing a missing directory raises FileNotFoundError with nothing changed; otherwise exactly the tree under it is gone |
| Storage.RemoveTree | monolithcaching/worker.py:119 | exactly the directories and files outside the tree remain (both directions), the root itself is gone, and every remaining file keeps its content |
| Storage.ReadDoc | monolithcaching/__init__.py:167-168 | reading a metadata file gives its document, or FileNotFoundError when the file is absent |
| Storage.WriteDoc | monolithcaching/__init__.py:131-132 | the file holds the written document; other files and all directories are unchanged |
| Storage.DeletePrefix | monolithcaching/s3_worker.py:50-51 | exactly the bucket's objects whose key starts with the prefix are removed |
| Storage.RemoveFreshTree | monolithcaching/worker.py:109-119 | creating a fresh directory with one file and removing its tree restores the directory set and removes the file |
| Worker.GenerateDirectory | monolithcaching/worker.py:97-110 | an existing directory raises WorkerCacheError with the collision message and creates nothing; otherwise exactly that directory is created |
| Worker.ConnectDirectory | monolithcaching/worker.py:80-95 | an existing cache must be a directory (WorkerCacheError otherwise) and is adopted with nothing created; without one the candidate is generated |
| Worker.New | monolithcaching/worker.py:22-49 | the fresh candidate is `root + "/cache/" + id + "/"`, with the package directory as the default root. The worker starts unlocked. Construction fails exactly when the existing cache is missing or the candidate exists. The register count of the directory goes up by one exactly when both port and host are set |
| Worker.Lock | monolithcaching/worker.py:64-70 | the flag is set and nothing else of the worker changes |
| Worker.Unlock | monolithcaching/worker.py:72-78 | the flag is cleared and nothing else of the worker changes |
| Worker.Release | monolithcaching/worker.py:112-125 | a locked worker never removes the directory. Without a port the directory goes exactly when unlocked. With a port the release always deregisters, raising RegisterError for an untracked path, and removes the directory only when the count reaches 0 and the cache is unlocked |
| Worker.FreshThenReleaseRestoresDirs | monolithcaching/worker.py:22-49 | a fresh worker without a register, once released, leaves the directory set as it was |
| Worker.PortWithoutHostNeverRegisters | monolithcaching/worker.py:48-49 | with a port but no host, construction does not register. The release still deregisters, so it raises RegisterError and keeps the directory |
| LegacyWorker.New | caching/worker.py:20-34 | the same directory allocation and failure cases as the current worker, and on success the Monitor maps the id to the directory |
| LegacyWorker.Lock | caching/worker.py:49-55 | the flag is set and nothing else changes |
| LegacyWorker.Unlock | caching/worker.py:57-63 | the flag is cleared and nothing else changes |
| LegacyWorker.Release | caching/worker.py:95-101 | the Monitor loses exactly the worker's id; the filesystem is the tree removed at the Monitor's path when that path exists, no other id shares it and the worker is unlocked, and unchanged otherwise; the directory survives exactly when the worker is locked or shared |
| S3Worker.SplitS3Path | monolithcaching/s3_worker.py:106-119 | bucket and short name hold no "/". With a "/" present, the bucket, a "/" and the file name spell the stripped path, and the file name ends with the short name. With none, the bucket is the whole path and the file name is empty. The short name is the last segment |
| S3Worker.SplitOfJoined | caching/s3_worker.py:43-56 | for `s3://` followed by pieces joined by "/", the bucket is the first piece, the file name the rest joined back, and the short name the last piece |
| S3Worker.ExtractIdAsWritten | monolithcaching/s3_worker.py:121-129 | the result holds no "/", ends the input, follows the last "/", and is empty for an input that ends in "/" |
| S3Worker.ExtractId | monolithcaching/s3_worker.py:121-129 | the intended extraction agrees with the code for inputs without a trailing "/" |
| S3Worker.ExtractIdOfBaseDir | monolithcaching/s3_worker.py:33-34 | the intended extraction recovers the id from `cache_path + id + "/"` |
| S3Worker.ExtractIdAsWrittenOfBaseDir | monolithcaching/s3_worker.py:121-129 | as written, the id extracted from any base directory `cache_path + id + "/"` is empty |
| S3Worker.CreateMeta | monolithcaching/s3_worker.py:53-62 | the metadata object `file_name + "meta.json"` becomes `{}`; no other object changes |
| S3Worker.Build | monolithcaching/s3_worker.py:34-39 | the base directory is `cache_path + id + "/"`, the worker is unlocked, and only a fresh worker writes its metadata |
| S3Worker.New | monolithcaching/s3_worker.py:22-39 | a fresh worker uses the generated id and writes `{}`; an attach takes its id from the existing path and writes nothing |
| S3Worker.NewAsWritten | monolithcaching/s3_worker.py:22-39 | identical to the intended constructor except that an attach uses the as-written id extraction |
| S3Worker.AttachToOwnBaseDir | monolithcaching/s3_worker.py:30-34 | attaching to a worker's own base directory gives back the same worker and leaves the store alone |
| S3Worker.AttachToOwnBaseDirAsWritten | monolithcaching/s3_worker.py:30-34 | as written, reattaching to a base directory gives the empty id and the directory `cache_path + "/"`, which is the original one only for an empty id |
| S3Worker.Meta | monolithcaching/s3_worker.py:131-141 | as intended (a JSON reader): exactly a stored document reads back, as itself; a missing object is a NoSuchKey error and any other body does not parse |
| S3Worker.InsertMeta | monolithcaching/s3_worker.py:64-78 | as intended: it succeeds exactly when the read does, with the read's error otherwise. Read back, the document has the new value at the key and every other key unchanged. The set of objects is the same and no other object changes |
| S3Worker.MetaAsWritten | monolithcaching/s3_worker.py:131-141 | as written (`ast.literal_eval`): the stored document reads back exactly when every value in it is also a Python literal once dumped; otherwise ValueError; a read error of the intended reader is raised unchanged |
| S3Worker.InsertMetaAsWritten | monolithcaching/s3_worker.py:64-78 | as written: it raises exactly when the as-written read does, with that error, and otherwise writes what the intended `insert_meta` writes |
| S3Worker.InsertThenReadAsWritten | monolithcaching/s3_worker.py:62-78 | after an as-written insert into readable metadata, the intended reader reads the updated document, and the as-written reader succeeds exactly when the inserted value is literal-safe |
| S3Worker.LockFlagUnreadableAsWritten | monolithcaching/s3_worker.py:75-78 | writing `"locked": true` or `false` into a fresh cache's metadata succeeds, after which the as-written `meta` and the next `insert_meta` raise ValueError; the intended reader gives back the flag |
| S3Worker.DeleteDirectory | monolithcaching/s3_worker.py:41-51 | exactly the bucket's objects under the file name are removed, the metadata object among them |
| S3Worker.CheckFile | monolithcaching/s3_worker.py:88-104 | true exactly when the object exists; a "404" answer is false, and any other error code propagates |
| S3Worker.Lock | monolithcaching/s3_worker.py:80-86 | the worker is unchanged, so an object-storage worker is never locked |
| S3Worker.CreateThenDeleteMeta | monolithcaching/s3_worker.py:41-104 | a fresh cache's metadata is found by `check_file` and reads as `{}`; after `delete_directory` it is not found |
| LegacyS3Worker.New | caching/s3_worker.py:19-29 | the base directory is `cache_path + id + "/"`, the file list is empty and the worker is unlocked |
| LegacyS3Worker.PrefixAsWrittenKeepsBucket | caching/s3_worker.py:37-39 | for a directory path, the as-written prefix is the bucket name and a "/" in front of the intended prefix |
| LegacyS3Worker.DeleteDirectoryAsWritten | caching/s3_worker.py:31-41 | exactly the bucket's objects whose key starts with the as-written prefix are removed |
| LegacyS3Worker.DeleteDirectory | caching/s3_worker.py:31-41 | exactly the bucket's objects whose key starts with the intended prefix are removed |
| LegacyS3Worker.DeleteDirectoryAgreesWithCurrent | caching/s3_worker.py:31-41 | the intended deletion is the current worker's `delete_directory` on the same directory |
| LegacyS3Worker.DeletionAsWrittenMisses | caching/s3_worker.py:37-41 | as written, an object under the cache directory survives unless its key happens to start with the bucket name; with the intended prefix it is removed |
| LegacyS3Worker.DeleteMissesCacheObjects | caching/s3_worker.py:39 | in `s3://bucket/caches/abc/`, as written the object `caches/abc/meta.json` survives deletion; with the intended prefix it is removed |
| Manager.Construct | monolithcaching/__init__.py:22-47 | no worker, so the manager starts consistent. The local cache path defaults to the root directory. Object storage is used exactly when `s3` is set and its cache path is given |
| Manager.Drop | monolithcaching/__init__.py:56 | dropping a local worker runs its release; dropping anything else changes nothing; a locked worker's drop keeps the filesystem |
| Manager.ReadMeta | monolithcaching/__init__.py:159-172 | a local worker under a local configuration reads its file, and an object-storage worker reads its object. No worker raises CacheManagerError, and a deleted attribute raises AttributeError |
| Manager.InsertMeta | monolithcaching/__init__.py:111-136 | no worker raises, and a worker of the other kind raises. Otherwise it succeeds exactly when the metadata reads, the read-back document is the old one with the key set, and the register, the Monitor and the directories are unchanged |
| Manager.InsertMetaFrame | monolithcaching/__init__.py:124-134 | a local insert leaves the objects, the set of files and every other file unchanged; an object-storage insert leaves the filesystem, the set of objects and every other object unchanged |
| Manager.CreateMeta | monolithcaching/__init__.py:138-146 | as intended, a local worker under a local configuration reads back `{}`, the metadata path is the only file added or changed, and the directories stay; in any other case the world is unchanged; the register, the objects and the Monitor never change |
| Manager.CreateMetaAsWritten | monolithcaching/__init__.py:144-146 | as written, a local worker's metadata is never written; only an object-storage worker under a local configuration would be |
| Manager.LockHeld | monolithcaching/__init__.py:72 | a held local worker is locked; an object-storage worker or no worker is left as it is |
| Manager.NewRemote | monolithcaching/__init__.py:58-60 | the object-storage constructor with the as-written or the intended id extraction, as asked |
| Manager.Install | monolithcaching/__init__.py:56-67 | the old worker is dropped first. Object storage is chosen exactly when `s3` is set and its path is given; the worker is built with the as-written or the intended id extraction as asked, the store getting what that constructor writes, and a fresh cache's metadata reads back `{}`. A local construction gives the constructor's world and worker, or its error with the attribute deleted; on success the worker is unlocked with the given id, port and host, its directory is the existing cache or the fresh candidate and is the only directory added, the files are untouched, and its register count rose by one exactly when port and host are set |
| Manager.InheritLock | monolithcaching/__init__.py:70-72 | the attached worker ends up locked exactly when it was locked or the metadata records `"locked": true`; an unreadable document raises |
| Manager.CreateCache | monolithcaching/__init__.py:49-72 | the configuration is kept and the held worker matches it. Under object storage the result is the install with the intended id extraction, a fresh cache's metadata object reads back `{}`, and for a consistent manager the filesystem and the register are untouched. A local construction fails exactly when the existing cache is missing or the fresh candidate exists, after the old worker was dropped. A local success holds a worker with the given id, port and host, whose directory exists: it is the only directory added to the world left by the drop, the fresh candidate for a fresh cache, and its register count went up by one exactly when port and host are set. A fresh local cache reads back `{}` unlocked. An attached local cache holds the lock its metadata records |
| Manager.CreateCacheAsWritten | monolithcaching/__init__.py:49-72 | a local attach is the intended one; a fresh cache holds the intended worker but its world is the one left by construction alone (no metadata file); an object-storage cache holds the worker the as-written `S3Worker` constructor builds |
| Manager.LockCache | monolithcaching/__init__.py:74-86 | no worker raises CacheManagerError; under `s3` nothing changes; an object-storage worker under a local configuration raises the inconsistency error. A local worker is locked; its metadata becomes the old document with `"locked": true`, or the missing file raises FileNotFoundError with the world unchanged and the worker still locked. The register, the directories, the objects and the Monitor never change |
| Manager.UnlockCache | monolithcaching/__init__.py:88-100 | no worker raises CacheManagerError; under `s3` or with an object-storage worker nothing changes. A local worker is unlocked; its metadata becomes the old document with `"locked": false`, or the missing file raises FileNotFoundError with the world unchanged. The register, the directories, the objects and the Monitor never change |
| Manager.WipeCache | monolithcaching/__init__.py:102-109 | the manager holds no worker afterwards; a local worker is released; a deleted attribute raises AttributeError |
| Manager.CachePath | monolithcaching/__init__.py:148-157 | the worker's directory, None exactly without a worker, and AttributeError exactly for a deleted attribute |
| ManagerProperties.FreshLocalMeta | monolithcaching/__init__.py:68-69 | as intended a fresh local cache reads back `{}`; as written reading its metadata raises FileNotFoundError |
| ManagerProperties.OperationsKeepConsistent | monolithcaching/__init__.py:49-109 | every operation keeps the held worker in agreement with the configured back end |
| ManagerProperties.ObjectStorageLeavesLocalAlone | monolithcaching/__init__.py:57-60 | an object-storage manager never changes the filesystem or the register; lock and unlock change nothing |
| ManagerProperties.LockUnlockRoundTrip | monolithcaching/__init__.py:74-100 | lock then unlock leaves the worker unlocked and the metadata with `"locked": false` and every other key as before |
| ManagerProperties.LockedCacheIsInheritedOnAttach | monolithcaching/__init__.py:68-86 | a locked cache survives `wipe_cache`, with or without a register, and a second manager attaching to it holds a locked worker |
| ManagerProperties.WithBlockCleansUp | monolithcaching/__init__.py:177-183 | a `with` block over a fresh local cache, with both port and host or neither, removes the directory and its metadata, restores the directories and the register, and leaves the manager without a worker |
| ManagerProperties.RemoteReattach | monolithcaching/__init__.py:56-60 | after an object-storage cache is created and wiped, attaching by its directory holds the very same worker as intended, but as written holds a worker with an empty id and the directory `cache_path + "/"` |
| LegacyManager.Construct | caching/__init__.py:21-36 | no worker, so the manager starts consistent; settings are kept as given |
| LegacyManager.Drop | caching/__init__.py:45 | dropping a local worker runs its Monitor release; anything else changes nothing |
| LegacyManager.BaseDir | caching/__init__.py:100 | no worker raises AttributeError on `None.base_dir`, and so does a deleted attribute |
| LegacyManager.ReadMeta | caching/__init__.py:130-141 | `{}` under `s3`, otherwise the held worker's metadata file |
| LegacyManager.InsertMeta | caching/__init__.py:91-107 | a no-op under `s3`; otherwise the read-back document is the old one with the key set; a failed read writes nothing |
| LegacyManager.CreateMeta | caching/__init__.py:109-117 | under a local configuration the metadata reads back `{}`; under `s3` nothing changes |
| LegacyManager.InstallRemote | caching/__init__.py:46-48 | the old worker is dropped; a fresh object-storage worker is made whatever `existing` says; a missing cache path raises TypeError |
| LegacyManager.SettleLocal | caching/__init__.py:52-56 | a fresh cache reads back `{}`; an attached cache is locked exactly when it was or its metadata says so |
| LegacyManager.CreateCache | caching/__init__.py:38-56 | as intended, the object-storage branch is the remote install, and the local branch builds the worker from the existing cache and the local path and then settles it |
| LegacyManager.CreateCacheAsWritten | caching/__init__.py:50-51 | as written, every local construction raises TypeError after dropping the old worker, leaving the attribute deleted |
| LegacyManager.SetLock | caching/__init__.py:67-79 | a local worker's flag is set as asked; the object-storage worker has no such method |
| LegacyManager.SetCacheLock | caching/__init__.py:58-80 | no worker raises CacheManagerError; under `s3` nothing changes; an object-storage worker under a local configuration raises AttributeError. A local worker's flag is set as asked; its metadata becomes the old document with the flag, or the missing file raises FileNotFoundError with the world unchanged and the flag set. The register, the directories, the objects and the Monitor never change |
| LegacyManager.WipeCache | caching/__init__.py:82-89 | the manager holds no worker afterwards; a local worker is released through the Monitor |
| LegacyManager.CachePath | caching/__init__.py:119-128 | the worker's directory, or None exactly without a worker |
| LegacyManagerProperties.LocalCreateFailsAsWritten | caching/__init__.py:50-51 | as written, the first local `create_cache` raises TypeError, after which `create_cache` and `wipe_cache` raise AttributeError; as intended it creates a fresh cache reading `{}` |
| LegacyManagerProperties.ObjectStorageIgnoresExisting | caching/__init__.py:46-48 | under `s3`, attaching is the same as creating, and the metadata reads as `{}` |
| LegacyManagerProperties.EnterFresh | caching/__init__.py:146-148 | entering creates the directory holding `{}` and maps the new id to it in the Monitor |
| LegacyManagerProperties.ReleaseSoleSharer | caching/monitor.py:42-52 | releasing the only worker on a directory removes it and gives back the Monitor as before the attach |
| LegacyManagerProperties.WithBlockCleansUp | caching/__init__.py:146-152 | a `with` block over a fresh local cache restores the directories and the Monitor and removes the metadata |
| LegacyManagerProperties.LockedCacheIsInheritedOnAttach | caching/__init__.py:52-68 | a locked cache survives `wipe_cache` with its Monitor entry gone, and is attached again locked |
| Lifecycle.AttachAll | monolithcaching/worker.py:48-49 | `n` attaches raise the directory's register count by `n` and change nothing else |
| Lifecycle.ReleaseOne | monolithcaching/worker.py:120-125 | an unlocked release of a directory with `m` references leaves `m - 1`, and at the last it removes both the directory and the entry |
| Lifecycle.ReleasesCountDown | monolithcaching/worker.py:120-125 | after `k` of `n` unlocked releases the count is `n - k` and the directory exists, until the `n`-th removes both |
| Lifecycle.LastReleaseDeletes | monolithcaching/worker.py:112-125 | `n` attaches then `k` unlocked releases: the directory and its entry exist exactly while `k < n` |
| Lifecycle.LockedLastReleaseKeeps | monolithcaching/worker.py:118-125 | a locked release of the last reference keeps the directory and stores count 0 |
| Lifecycle.LegacyAttach | caching/worker.py:20-34 | attaching to an existing directory maps the id to it and changes nothing else |
| Lifecycle.PointAllEntries | caching/worker.py:34 | after a sequence of attaches the Monitor holds exactly the old ids and the new ones, the new ones pointing at the directory |
| Lifecycle.LegacyAttachAll | caching/worker.py:20-34 | `n` attaches add their ids to the Monitor, pointing at the directory, and change nothing else |
| Lifecycle.LegacyReleaseOne | caching/monitor.py:42-52 | a release removes its id from the directory's sharers, and the directory goes exactly at the last one |
| Lifecycle.LegacyReleasesCountDown | caching/monitor.py:42-52 | after `k` releases the sharers are the ids not yet released, and the directory exists until the last release |
| Lifecycle.LegacyLastReleaseDeletes | caching/worker.py:95-101 | `n` attaches then `k` unlocked releases: the directory exists exactly while `k < n` |

## Left out

- The Redis, boto3/botocore and filesystem clients are replaced by abstract state. Network failures of those clients are not modelled, apart from the error codes `check_file` distinguishes.
- Worker ids come from `os.urandom` through UUIDs; here they are an input.
- The `timestamp.txt` log and its wall-clock content are left out. So is the difference between `os.mkdir` (older package) and `os.makedirs` (current): the model creates the one directory either way.
- JSON text is left out: a metadata document is its decoded map, and a float is opaque text. A local file that does not parse is not modelled. Of `ast.literal_eval` only which dumped values it rejects is modelled (`MetaDoc.LiteralSafe`); escapes inside strings are taken to round-trip.
- Manager.InsertMeta: its own contract states what the insert changes; that nothing else changes is stated separately by `Manager.InsertMetaFrame`, to keep each proof small.
- Manager.ReadMeta and Manager.InsertMeta: an object-storage worker's metadata is read with the intended reader (`S3Worker.Meta`), so the ValueError of the as-written reader is stated only at the worker (`S3Worker.MetaAsWritten`, `S3Worker.LockFlagUnreadableAsWritten`).
- The root directory lookup (`RootDirectory`, tempfile and environment) is a parameter of the constructor. So is the worker class's own directory.
- Path strings are compared as written, with no normalisation of `//`, `.` or symbolic links. So `localCachePath + "/cache/"` can hold a doubled "/" just as in the source.
- Finalisers run when the manager drops its reference. The model treats the manager as the worker's only holder, so a drop is a release. Python's garbage-collection timing is not modelled.
- The register's read-modify-write is not atomic across processes. The model is one sequential process, so that race does not arise.
- `Register.get_all_records` only lists the table and is left out.
- The older S3 worker has no metadata and no `lock` or `unlock`. Nothing calls its `delete_directory`, which also prints the prefix to standard output (caching/s3_worker.py:40); the print is left out of `LegacyS3Worker.DeleteDirectoryAsWritten`. When the older manager locks or unlocks such a worker under a local configuration, the model raises AttributeError, as Python does (`LegacyManager.SetLock`).
- LegacyS3Worker.PrefixAsWritten and LegacyS3Worker.Prefix: their own contracts only bound the length. What they compute is stated by `LegacyS3Worker.PrefixAsWrittenKeepsBucket` and `LegacyS3Worker.DeleteDirectoryAgreesWithCurrent`.
- A worker whose constructor raised after its fields were set still runs its finaliser when collected. That release of a half-built worker is not modelled.
- `CacheManager.__del__` is `wipe_cache`, modelled as `Manager.WipeCache` and `LegacyManager.WipeCache`.
- Manager.Enter, Manager.Exit, LegacyManager.Enter and LegacyManager.Exit: these only call `create_cache` and `wipe_cache` and carry no contract of their own; what a `with` block does is stated by `ManagerProperties.WithBlockCleansUp` and `LegacyManagerProperties.WithBlockCleansUp`.
- Lifecycle.AttachAll: attaches go through the existing-cache path with a register configured. Attaching through fresh allocation is covered by `Worker.New` alone.

## Findings

| source | as written | input that shows it | evidently intended | confidence | as-written member | corrected member |
|---|---|---|---|---|---|---|
| monolithcaching/__init__.py:144-146 | `_create_meta` writes `{}` only when `s3` is False and the worker is an S3Worker, a pair `create_cache` never produces | a local manager's `create_cache()` followed by `meta` raises FileNotFoundError | write `{}` for a local worker under a local configuration | not executed | ManagerProperties.FreshLocalMeta | Manager.CreateCache |
| caching/s3_worker.py:39 | the delete prefix is `base_dir` with the short name and `s3://` removed, so the bucket name stays at its front | `s3://bucket/caches/abc/` holding `caches/abc/meta.json`: the filter uses `bucket/caches/abc/` and the object survives | filter on the key inside the bucket, `caches/abc/` | not executed | LegacyS3Worker.DeleteMissesCacheObjects | LegacyS3Worker.DeleteDirectoryAgreesWithCurrent |
| monolithcaching/s3_worker.py:129 | `extract_id` takes the text after the last "/", which is empty for a cache path ending in "/" | attaching to `s3://b/c/<id>/` makes the id empty and the base directory `s3://b/c/` | the last segment before the trailing "/", that is the id | not executed | S3Worker.AttachToOwnBaseDirAsWritten, ManagerProperties.RemoteReattach | S3Worker.AttachToOwnBaseDir, Manager.CreateCache |
| caching/__init__.py:50-51 | the local branch passes `port` and `host` to a worker constructor that accepts neither | any local `create_cache()` raises TypeError, and later calls raise AttributeError | build the worker from the existing cache and the local cache path | not executed | LegacyManagerProperties.LocalCreateFailsAsWritten | LegacyManager.CreateCache |
| monolithcaching/s3_worker.py:141 | `meta` parses the body with `ast.literal_eval`, but `create_meta` and `insert_meta` (lines 62 and 78) write it with `json.dumps`, whose `true`, `false`, `null` and non-finite floats are not Python literals | `insert_meta("locked", True)` on a fresh cache, then `meta`: ValueError, and every later `insert_meta` raises too | parse the body as JSON | not executed | S3Worker.LockFlagUnreadableAsWritten | S3Worker.Meta |
