/** What a sequence of calls on the older manager promises, and how its
 local branch fails as written. */
module LegacyManagerProperties {
  import opened Outcomes
  import opened Storage
  import opened MetaDoc
  import opened LegacyManager
  import LW = LegacyWorker
  import Worker
  import S = S3Worker
  import Monitor

  /** As written, a local manager can never create a cache: the first call
      raises TypeError and leaves the attribute missing, after which both
      `create_cache` and `wipe_cache` raise AttributeError. With the
      intended constructor call a fresh cache is created with `{}` as its
      metadata. */
  lemma LocalCreateFailsAsWritten(sys: Sys, existing: Option<string>, freshId: string, retryId: string)
    requires !sys.manager.config.s3 && sys.manager.held.NoWorker?
    ensures var first := CreateCacheAsWritten(sys, existing, freshId);
      && first.raised == Some(PortArgument)
      && first.state.manager.held.Missing?
      && CreateCacheAsWritten(first.state, existing, retryId).raised == Some(NoWorkerAttribute)
      && WipeCache(first.state).raised == Some(NoWorkerAttribute)
    ensures Worker.CandidateDir(sys.manager.config.localCachePath.GetOr(sys.manager.config.packageDir), freshId) !in sys.world.fs.dirs ==>
      var fixed := CreateCache(sys, None, freshId);
      && fixed.raised.None?
      && fixed.state.manager.held.Local?
      && fixed.state.manager.held.local.baseDir == Worker.CandidateDir(sys.manager.config.localCachePath.GetOr(sys.manager.config.packageDir), freshId)
      && ReadMeta(fixed.state) == Ok(EmptyDoc)
  {
  }

  /** The object-storage branch ignores `existing`: attaching makes the same
      fresh worker as creating, and its metadata reads as `{}`. */
  lemma ObjectStorageIgnoresExisting(sys: Sys, existing: string, freshId: string)
    requires sys.manager.config.s3 && sys.manager.config.s3CachePath.Some?
    requires !sys.manager.held.Missing?
    ensures CreateCache(sys, Some(existing), freshId) == CreateCache(sys, None, freshId)
    ensures var r := CreateCache(sys, None, freshId);
      && r.raised.None? && r.state.manager.held.Remote?
      && r.state.manager.held.remote.baseDir == sys.manager.config.s3CachePath.value + freshId + "/"
      && ReadMeta(r.state) == Ok(EmptyDoc)
  {
  }

  /** The state `__enter__` reaches on a fresh local cache: the directory
      exists and holds `{}` as metadata, the Monitor maps the new id to it,
      and the manager holds the new, unlocked worker. */
  lemma EnterFresh(sys: Sys, freshId: string)
    requires !sys.manager.config.s3 && sys.manager.held.NoWorker?
    requires Worker.CandidateDir(sys.manager.config.localCachePath.GetOr(sys.manager.config.packageDir), freshId) !in sys.world.fs.dirs
    ensures var c := Worker.CandidateDir(sys.manager.config.localCachePath.GetOr(sys.manager.config.packageDir), freshId);
      var root := sys.manager.config.localCachePath.GetOr(sys.manager.config.packageDir);
      Enter(sys, freshId) == Step(Sys(
        sys.world.(fs := WriteDoc(sys.world.fs.(dirs := sys.world.fs.dirs + {c}), MetaPath(c), EmptyDoc),
                   monitor := sys.world.monitor[freshId := c]),
        sys.manager.(held := Local(LW.LegacyWorker(freshId, root, c, false, None)))), None)
  {
  }

  /** Releasing the only worker that points at a directory removes the
      directory and its entry, giving back the Monitor it was added to. */
  lemma ReleaseSoleSharer(world: World, w: LW.LegacyWorker, monitor: Monitor.Entries)
    requires !w.locked && w.baseDir in world.fs.dirs
    requires w.id !in monitor && Monitor.Sharers(monitor, w.baseDir) == {}
    requires world.monitor == monitor[w.id := w.baseDir]
    ensures LW.Release(world, w) == world.(monitor := monitor, fs := RemoveTree(world.fs, w.baseDir))
  {
    var m := world.monitor;
    assert Monitor.Sharers(m, w.baseDir) == Monitor.Sharers(monitor, w.baseDir) + {w.id};
    assert m - {w.id} == monitor;
  }

  /** A `with` block over a fresh local cache that no Monitor entry points
      at: on exit the directory and its metadata are gone, the directories
      and the Monitor are as before, and the manager holds no worker. */
  lemma WithBlockCleansUp(sys: Sys, freshId: string)
    requires !sys.manager.config.s3 && sys.manager.held.NoWorker?
    requires Worker.CandidateDir(sys.manager.config.localCachePath.GetOr(sys.manager.config.packageDir), freshId) !in sys.world.fs.dirs
    requires forall d :: d in sys.world.fs.dirs ==> !Under(d, Worker.CandidateDir(sys.manager.config.localCachePath.GetOr(sys.manager.config.packageDir), freshId))
    requires freshId !in sys.world.monitor
    requires Monitor.Sharers(sys.world.monitor, Worker.CandidateDir(sys.manager.config.localCachePath.GetOr(sys.manager.config.packageDir), freshId)) == {}
    ensures Enter(sys, freshId).raised.None?
    ensures var exited := Exit(Enter(sys, freshId).state);
      && exited.raised.None?
      && exited.state.manager == sys.manager
      && exited.state.world.fs.dirs == sys.world.fs.dirs
      && exited.state.world.monitor == sys.world.monitor
      && MetaPath(Worker.CandidateDir(sys.manager.config.localCachePath.GetOr(sys.manager.config.packageDir), freshId)) !in exited.state.world.fs.files
  {
    var c := Worker.CandidateDir(sys.manager.config.localCachePath.GetOr(sys.manager.config.packageDir), freshId);
    EnterFresh(sys, freshId);
    var entered := Enter(sys, freshId).state;
    var w := entered.manager.held.local;
    ReleaseSoleSharer(entered.world, w, sys.world.monitor);
    RemoveFreshTree(sys.world.fs, c, MetaName, EmptyDoc);
  }

  /** A locked cache outlives its manager and is attached again locked, with
      its Monitor entry gone. */
  lemma LockedCacheIsInheritedOnAttach(sys: Sys, other: Manager, freshId: string)
    requires !sys.manager.config.s3 && sys.manager.held.Local?
    requires sys.manager.held.local.baseDir in sys.world.fs.dirs
    requires MetaPath(sys.manager.held.local.baseDir) in sys.world.fs.files
    requires other.held.NoWorker? && !other.config.s3
    ensures var base := sys.manager.held.local.baseDir;
      var wiped := WipeCache(SetCacheLock(sys, true).state).state;
      var again := CreateCache(Sys(wiped.world, other), Some(base), freshId);
      && base in wiped.world.fs.dirs
      && sys.manager.held.local.id !in wiped.world.monitor
      && again.raised.None?
      && again.state.manager.held.Local?
      && again.state.manager.held.local.baseDir == base
      && again.state.manager.held.local.locked
  {
    var locked := SetCacheLock(sys, true).state;
    assert locked.manager.held.local.locked;
    assert IsLocked(ReadMeta(locked).value);
  }
}
