/** What a sequence of manager calls promises: the metadata a fresh cache
 starts with, the lock that survives the manager and is inherited on attach,
 the cleanup at the end of a `with` block, and the agreement between the held
 worker and the configuration. */
module ManagerProperties {
  import opened Outcomes
  import opened Storage
  import opened MetaDoc
  import opened Manager
  import W = Worker
  import S = S3Worker
  import Register

  /** A manager under a local configuration that holds no worker yet. */
  predicate IdleLocal(sys: Sys) {
    !sys.manager.config.s3 && sys.manager.held.NoWorker?
  }

  /** Fresh local metadata: with the intended `_create_meta`, a fresh local
      cache reads back the empty document; as written, reading its metadata
      raises FileNotFoundError because the file was never written. */
  lemma FreshLocalMeta(sys: Sys, freshId: string)
    requires IdleLocal(sys)
    requires W.CandidateDir(sys.manager.config.localCachePath, freshId) !in sys.world.fs.dirs
    requires MetaPath(W.CandidateDir(sys.manager.config.localCachePath, freshId)) !in sys.world.fs.files
    ensures CreateCache(sys, None, freshId).raised.None?
    ensures ReadMeta(CreateCache(sys, None, freshId).state) == Ok(EmptyDoc)
    ensures CreateCacheAsWritten(sys, None, freshId).raised.None?
    ensures ReadMeta(CreateCacheAsWritten(sys, None, freshId).state)
      == Err(FileNotFound(MetaPath(W.CandidateDir(sys.manager.config.localCachePath, freshId))))
  {
    var s := Install(sys, None, freshId, true);
    assert s.state.manager.held.Local? && s.state.manager.held.local.baseDir == W.CandidateDir(sys.manager.config.localCachePath, freshId);
    assert s.state.world.fs.files == sys.world.fs.files;
  }

  /** Every operation keeps the held worker in agreement with the
      configuration. */
  lemma OperationsKeepConsistent(sys: Sys, existing: Option<string>, freshId: string)
    requires Consistent(sys.manager)
    ensures Consistent(CreateCache(sys, existing, freshId).state.manager)
    ensures Consistent(LockCache(sys).state.manager)
    ensures Consistent(UnlockCache(sys).state.manager)
    ensures Consistent(WipeCache(sys).state.manager)
  {
  }

  /** An object-storage manager never touches the filesystem or the
      register, whatever it is asked to do. */
  lemma ObjectStorageLeavesLocalAlone(sys: Sys, existing: Option<string>, freshId: string)
    requires Consistent(sys.manager) && UsesS3(sys.manager.config)
    ensures var r := CreateCache(sys, existing, freshId).state.world;
      r.fs == sys.world.fs && r.register == sys.world.register
    ensures LockCache(sys).state == sys
    ensures UnlockCache(sys).state == sys
    ensures WipeCache(sys).state.world == sys.world
  {
  }

  /** The lock round trip through the metadata: after `lock_cache` then
      `unlock_cache` the worker is unlocked, the metadata records
      `"locked": false`, and every other metadata key is as it was. */
  lemma LockUnlockRoundTrip(sys: Sys)
    requires !sys.manager.config.s3 && sys.manager.held.Local?
    requires MetaPath(sys.manager.held.local.baseDir) in sys.world.fs.files
    ensures var locked := LockCache(sys);
      var unlocked := UnlockCache(locked.state);
      && locked.raised.None? && unlocked.raised.None?
      && unlocked.state.manager.held == Local(sys.manager.held.local.(locked := false))
      && ReadMeta(unlocked.state) == Ok(Insert(ReadMeta(sys).value, LockedKey, Bool(false)))
  {
    var path := MetaPath(sys.manager.held.local.baseDir);
    var d := sys.world.fs.files[path];
    var locked := LockCache(sys);
    assert ReadMeta(locked.state) == Ok(Insert(d, LockedKey, Bool(true)));
    var unlocked := UnlockCache(locked.state);
    assert ReadMeta(unlocked.state) == Ok(Insert(Insert(d, LockedKey, Bool(true)), LockedKey, Bool(false)));
    assert Insert(Insert(d, LockedKey, Bool(true)), LockedKey, Bool(false)) == Insert(d, LockedKey, Bool(false));
  }

  /** A locked cache outlives its manager and is attached again locked:
      `lock_cache`, then `wipe_cache`, leaves the directory and its metadata
      in place, and a second manager that attaches to it holds a locked
      worker. */
  lemma LockedCacheIsInheritedOnAttach(sys: Sys, other: Manager, freshId: string)
    requires !sys.manager.config.s3 && sys.manager.held.Local?
    requires sys.manager.held.local.baseDir in sys.world.fs.dirs
    requires MetaPath(sys.manager.held.local.baseDir) in sys.world.fs.files
    requires other.held.NoWorker? && !other.config.s3
    ensures var base := sys.manager.held.local.baseDir;
      var wiped := WipeCache(LockCache(sys).state).state;
      var again := CreateCache(Sys(wiped.world, other), Some(base), freshId);
      && base in wiped.world.fs.dirs
      && again.raised.None?
      && again.state.manager.held.Local?
      && again.state.manager.held.local.baseDir == base
      && again.state.manager.held.local.locked
  {
    var base := sys.manager.held.local.baseDir;
    var locked := LockCache(sys).state;
    assert locked.manager.held.local.locked;
    var wiped := WipeCache(locked).state;
    assert wiped.world.fs == locked.world.fs;
    assert IsLocked(ReadMeta(locked).value);
    var installed := Install(Sys(wiped.world, other), Some(base), freshId, false);
    assert installed.state.world.fs == wiped.world.fs;
  }

  /** The manager does not register when no complete endpoint is set. */
  predicate Registers(c: Config) {
    W.Registers(c.port, c.host)
  }

  /** A `with` block over a fresh local cache, with a complete register
      endpoint or with none: on exit the cache directory and everything
      inside it are gone, the directories and the register are as before,
      and the manager holds no worker. */
  lemma WithBlockCleansUp(sys: Sys, freshId: string)
    requires IdleLocal(sys)
    requires sys.manager.config.port.Some? <==> sys.manager.config.host.Some?
    requires W.CandidateDir(sys.manager.config.localCachePath, freshId) !in sys.world.fs.dirs
    requires W.CandidateDir(sys.manager.config.localCachePath, freshId) !in sys.world.register
    requires forall d :: d in sys.world.fs.dirs ==> !Under(d, W.CandidateDir(sys.manager.config.localCachePath, freshId))
    ensures Enter(sys, freshId).raised.None?
    ensures var exited := Exit(Enter(sys, freshId).state);
      && exited.raised.None?
      && exited.state.manager == sys.manager
      && exited.state.world.fs.dirs == sys.world.fs.dirs
      && exited.state.world.register == sys.world.register
      && MetaPath(W.CandidateDir(sys.manager.config.localCachePath, freshId)) !in exited.state.world.fs.files
  {
    var c := W.CandidateDir(sys.manager.config.localCachePath, freshId);
    var config := sys.manager.config;
    var entered := Enter(sys, freshId).state;
    assert entered.manager.held == Local(W.Worker(freshId, config.localCachePath, c, false,
                                                  config.port, config.host, None));
    if Registers(config) {
      assert entered.world.register == Register.RegisterCache(sys.world.register, c);
      Register.RegisterDeregisterFresh(sys.world.register, c, Register.Monolith);
    } else {
      assert entered.world.register == sys.world.register;
    }
    RemoveFreshTree(sys.world.fs, c, MetaName, EmptyDoc);
  }

  /** A manager under an object-storage configuration that holds no worker yet. */
  predicate IdleRemote(sys: Sys) {
    UsesS3(sys.manager.config) && sys.manager.held.NoWorker?
  }

  /** Attaching an object-storage cache by its own directory after the first
      manager let go of it: with the intended extraction the second
      `create_cache` holds the very same worker; as written it holds a
      worker with an empty id whose directory is the cache path followed by
      "/", so it no longer names the cache. */
  lemma RemoteReattach(sys: Sys, freshId: string, otherId: string)
    requires IdleRemote(sys)
    requires var p := sys.manager.config.s3CachePath.value; |p| == 0 || p[|p| - 1] == '/'
    requires '/' !in freshId
    ensures var first := CreateCache(sys, None, freshId).state;
      && first.manager.held.Remote?
      && var wiped := WipeCache(first).state;
         var base := first.manager.held.remote.baseDir;
         && CreateCache(wiped, Some(base), otherId).state.manager.held == first.manager.held
         && CreateCacheAsWritten(wiped, Some(base), otherId).state.manager.held
            == Remote(S.S3Worker("", sys.manager.config.s3CachePath.value + "/", false))
  {
    var p := sys.manager.config.s3CachePath.value;
    var first := CreateCache(sys, None, freshId).state;
    assert first.manager.held == Remote(S.S3Worker(freshId, p + freshId + "/", false));
    var wiped := WipeCache(first).state;
    assert wiped.manager == sys.manager;
    S.ExtractIdOfBaseDir(p, freshId);
    S.ExtractIdAsWrittenOfBaseDir(p, freshId);
  }
}
