/** The local cache worker of the older package (`caching`): the same
 directory allocation as the current worker, but references are tracked only
 in the in-process Monitor, and release is the Monitor's `delete_cache`. */
module LegacyWorker {
  import opened Outcomes
  import opened Storage
  import Worker
  import Monitor

  datatype LegacyWorker = LegacyWorker(
    id: string,
    classBaseDir: string,
    baseDir: string,
    locked: bool,
    existingCache: Option<string>)

  datatype Built = Built(world: World, worker: LegacyWorker)

  /** `Worker.__init__`: connects the directory exactly as the current
      worker does (an existing cache must be a directory; a fresh candidate
      `<root>/cache/<id>/` must not exist and is created), then records
      `Monitor[id] = base_dir`. A failure raises before anything changes. */
  function New(world: World, id: string, existing: Option<string>,
               localCache: Option<string>, packageDir: string): (r: Result<Built>)
    ensures var candidate := Worker.CandidateDir(localCache.GetOr(packageDir), id);
      && (r.Err? <==> (existing.Some? && existing.value !in world.fs.dirs) || (existing.None? && candidate in world.fs.dirs))
      && (r.Err? ==> r.error.WorkerCacheError?)
      && (r.Ok? ==> var w := r.value.worker;
           && w.id == id && !w.locked && w.existingCache == existing
           && w.baseDir == (if existing.Some? then existing.value else candidate)
           && w.baseDir in r.value.world.fs.dirs
           && (existing.Some? ==> r.value.world.fs == world.fs)
           && (existing.None? ==> r.value.world.fs.dirs == world.fs.dirs + {candidate})
           && r.value.world.monitor == world.monitor[id := w.baseDir]
           && r.value.world.register == world.register && r.value.world.objects == world.objects)
  {
    var root := localCache.GetOr(packageDir);
    var candidate := Worker.CandidateDir(root, id);
    match Worker.ConnectDirectory(world.fs, existing, candidate)
    case Err(e) => Err(e)
    case Ok(c) =>
      var fs', base := c.fs, c.baseDir;
      match Monitor.SetItem(world.monitor, Monitor.PyStr(id), Monitor.PyStr(base))
      case Err(e) => Err(e)
      case Ok(monitor') =>
        Ok(Built(world.(fs := fs', monitor := monitor'), LegacyWorker(id, root, base, false, existing)))
  }

  /** `lock`: only the flag changes. */
  function Lock(w: LegacyWorker): (r: LegacyWorker)
    ensures r.locked
    ensures r.(locked := w.locked) == w
  {
    w.(locked := true)
  }

  /** `unlock`: only the flag changes. */
  function Unlock(w: LegacyWorker): (r: LegacyWorker)
    ensures !r.locked
    ensures r.(locked := w.locked) == w
  {
    w.(locked := false)
  }

  /** A release removes the directory when the Monitor holds an existing
      directory for the id, no other id shares it, and the worker is unlocked. */
  predicate DeletesOnRelease(world: World, w: LegacyWorker) {
    && w.id in world.monitor && world.monitor[w.id] in world.fs.dirs
    && Monitor.SoleSharer(world.monitor, w.id) && !w.locked
  }

  /** `_delete_directory`: exactly `Monitor.delete_cache(id, locked)`. The
      worker's id leaves the Monitor; the directory the Monitor holds for it
      is removed only when it exists, no other id shares it, and the worker
      is unlocked. */
  function Release(world: World, w: LegacyWorker): (r: World)
    ensures w.id !in r.monitor
    ensures r.monitor == world.monitor - {w.id}
    ensures w.locked ==> r.fs == world.fs
    ensures DeletesOnRelease(world, w) ==> r.fs == RemoveTree(world.fs, world.monitor[w.id])
    ensures !DeletesOnRelease(world, w) ==> r.fs == world.fs
    ensures w.id in world.monitor && world.monitor[w.id] in world.fs.dirs ==>
      (world.monitor[w.id] in r.fs.dirs <==> w.locked || !Monitor.SoleSharer(world.monitor, w.id))
    ensures r.register == world.register && r.objects == world.objects
  {
    var d := Monitor.DeleteCache(world.monitor, world.fs, w.id, w.locked);
    world.(monitor := d.entries, fs := d.fs)
  }
}
