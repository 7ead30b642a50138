/** The local cache worker of the current package (`monolithcaching`): owns
 one directory, allocated fresh under `<root>/cache/<id>/` or attached to an
 existing one, and, when a Redis endpoint is configured, keeps the directory's
 reference count in the register. The random id is an input; the
 `timestamp.txt` log written at allocation is not modelled. */
module Worker {
  import opened Outcomes
  import opened Storage
  import opened Register

  /** A worker: its id, the root its fresh directory goes under, the
      directory it owns, its lock flag, and the register endpoint. */
  datatype Worker = Worker(
    id: string,
    classBaseDir: string,
    baseDir: string,
    locked: bool,
    port: Option<int>,
    host: Option<string>,
    existingCache: Option<string>)

  /** The directory a fresh worker allocates. */
  function CandidateDir(root: string, id: string): string {
    root + "/cache/" + id + "/"
  }

  function MissingCacheMessage(existing: string): string {
    "directory '" + existing + "' was supplied as an existing cache but does not exist"
  }

  function CollisionMessage(dir: string): string {
    "directory " + dir + " already exists. Check __del__ and self.id methods"
  }

  /** `_generate_directory`: raises WorkerCacheError, creating nothing, when
      the directory already exists; otherwise creates exactly that directory. */
  function GenerateDirectory(fs: Fs, dir: string): (r: Result<Fs>)
    ensures r.Err? <==> dir in fs.dirs
    ensures r.Err? ==> r.error == WorkerCacheError(CollisionMessage(dir))
    ensures r.Ok? ==> r.value.dirs == fs.dirs + {dir} && dir !in fs.dirs && r.value.files == fs.files
  {
    if dir in fs.dirs then Err(WorkerCacheError(CollisionMessage(dir)))
    else Ok(fs.(dirs := fs.dirs + {dir}))
  }

  /** The filesystem and the worker's directory once it is connected. */
  datatype Connected = Connected(fs: Fs, baseDir: string)

  /** `_connect_directory`: an existing cache must be a directory and becomes
      the worker's directory with nothing created; without one, the candidate
      directory is generated. */
  function ConnectDirectory(fs: Fs, existing: Option<string>, candidate: string): (r: Result<Connected>)
    ensures existing.Some? ==> (r.Err? <==> existing.value !in fs.dirs)
    ensures existing.Some? && r.Err? ==> r.error == WorkerCacheError(MissingCacheMessage(existing.value))
    ensures existing.Some? && r.Ok? ==> r.value == Connected(fs, existing.value)
    ensures existing.None? ==> (r.Err? <==> candidate in fs.dirs)
    ensures existing.None? && r.Ok? ==>
      r.value.baseDir == candidate && r.value.fs.dirs == fs.dirs + {candidate} && r.value.fs.files == fs.files
  {
    match existing
    case Some(e) =>
      if e !in fs.dirs then Err(WorkerCacheError(MissingCacheMessage(e)))
      else Ok(Connected(fs, e))
    case None =>
      match GenerateDirectory(fs, candidate)
      case Err(err) => Err(err)
      case Ok(fs') => Ok(Connected(fs', candidate))
  }

  /** The world and the worker after a successful construction. */
  datatype Built = Built(world: World, worker: Worker)

  /** Registration happens only when both port and host are given. */
  predicate Registers(port: Option<int>, host: Option<string>) {
    port.Some? && host.Some?
  }

  /** `Worker.__init__`: picks the root (`localCache`, else the package
      directory), connects the directory, then registers it once when both
      port and host are set. A failure raises before anything changes. */
  function New(world: World, id: string, port: Option<int>, host: Option<string>,
               existing: Option<string>, localCache: Option<string>, packageDir: string): (r: Result<Built>)
    ensures var candidate := CandidateDir(localCache.GetOr(packageDir), id);
      && (r.Err? <==> (existing.Some? && existing.value !in world.fs.dirs) || (existing.None? && candidate in world.fs.dirs))
      && (r.Ok? ==> var w := r.value.worker;
           && w.id == id && !w.locked && w.port == port && w.host == host
           && w.existingCache == existing
           && w.baseDir == (if existing.Some? then existing.value else candidate)
           && w.baseDir in r.value.world.fs.dirs
           && (existing.Some? ==> r.value.world.fs == world.fs)
           && (existing.None? ==> candidate !in world.fs.dirs && r.value.world.fs.dirs == world.fs.dirs + {candidate})
           && CountOf(r.value.world.register, w.baseDir)
              == CountOf(world.register, w.baseDir) + (if Registers(port, host) then 1 else 0)
           && (forall p :: p != w.baseDir ==> (p in r.value.world.register <==> p in world.register))
           && (forall p :: p in world.register && p != w.baseDir ==> r.value.world.register[p] == world.register[p])
           && r.value.world.objects == world.objects && r.value.world.monitor == world.monitor)
  {
    var root := localCache.GetOr(packageDir);
    var candidate := CandidateDir(root, id);
    match ConnectDirectory(world.fs, existing, candidate)
    case Err(e) => Err(e)
    case Ok(Connected(fs', base)) =>
      var register' := if Registers(port, host) then RegisterCache(world.register, base) else world.register;
      var w := Worker(id, root, base, false, port, host, existing);
      Ok(Built(world.(fs := fs', register := register'), w))
  }

  /** `lock`: only the flag changes; no storage is touched. */
  function Lock(w: Worker): (r: Worker)
    ensures r.locked
    ensures r.(locked := w.locked) == w
  {
    w.(locked := true)
  }

  /** `unlock`: only the flag changes; no storage is touched. */
  function Unlock(w: Worker): (r: Worker)
    ensures !r.locked
    ensures r.(locked := w.locked) == w
  {
    w.(locked := false)
  }

  /** Release deletes the directory exactly when the worker is unlocked and
      either no register is configured or the register's count was 0 or 1,
      so that it is 0 after this worker's decrement. */
  predicate DeletesOnRelease(world: World, w: Worker) {
    && !w.locked
    && (w.port.None? || (w.baseDir in world.register && 0 <= world.register[w.baseDir] <= 1))
  }

  /** `_delete_directory` (run by the finaliser): without a port, removes the
      directory unless locked; with a port, always deregisters (raising
      RegisterError, nothing changed, for an untracked path) and removes the
      directory only when the returned count is 0 and the cache is unlocked.
      Removing a directory that is already gone raises FileNotFoundError after
      the deregister has taken effect. */
  function Release(world: World, w: Worker): (r: Step<World>)
    ensures w.locked ==> r.state.fs == world.fs
    ensures r.state.fs == world.fs || r.state.fs == RemoveTree(world.fs, w.baseDir)
    ensures w.baseDir in world.fs.dirs ==> (w.baseDir in r.state.fs.dirs <==> !DeletesOnRelease(world, w))
    ensures w.port.None? ==> r.state.register == world.register
    ensures w.port.Some? && w.baseDir !in world.register ==>
      r == Step(world, Some(RegisterError(NotRegisteredMessage(Monolith, w.baseDir))))
    ensures w.port.Some? && w.baseDir in world.register ==>
      r.state.register == DeregisterCache(world.register, w.baseDir, w.locked, Monolith).value.table
    ensures r.state.objects == world.objects && r.state.monitor == world.monitor
  {
    if w.port.None? then
      if !w.locked then RemoveDir(world, w.baseDir) else Step(world, None)
    else
      match DeregisterCache(world.register, w.baseDir, w.locked, Monolith)
      case Err(e) => Step(world, Some(e))
      case Ok(Released(table, count)) =>
        var world' := world.(register := table);
        if count == 0 && !w.locked then RemoveDir(world', w.baseDir) else Step(world', None)
  }

  /** Construction then release of a fresh, unlocked worker without a
      register gives back the filesystem's directories as they were. */
  lemma FreshThenReleaseRestoresDirs(world: World, id: string, localCache: Option<string>, packageDir: string)
    requires CandidateDir(localCache.GetOr(packageDir), id) !in world.fs.dirs
    requires forall d :: d in world.fs.dirs ==> !Under(d, CandidateDir(localCache.GetOr(packageDir), id))
    ensures New(world, id, None, None, None, localCache, packageDir).Ok?
    ensures var b := New(world, id, None, None, None, localCache, packageDir).value;
      Release(b.world, b.worker) == Step(b.world.(fs := RemoveTree(b.world.fs, b.worker.baseDir)), None)
      && Release(b.world, b.worker).state.fs.dirs == world.fs.dirs
  {
    var b := New(world, id, None, None, None, localCache, packageDir).value;
    var after := RemoveTree(b.world.fs, b.worker.baseDir);
    assert after.dirs == world.fs.dirs;
  }

  /** With a port but no host the constructor does not register, yet the
      release still deregisters: on a path the register does not track, the
      release raises RegisterError and leaves the directory in place. */
  lemma PortWithoutHostNeverRegisters(world: World, id: string, port: int, localCache: Option<string>, packageDir: string)
    requires CandidateDir(localCache.GetOr(packageDir), id) !in world.fs.dirs
    requires CandidateDir(localCache.GetOr(packageDir), id) !in world.register
    ensures New(world, id, Some(port), None, None, localCache, packageDir).Ok?
    ensures var b := New(world, id, Some(port), None, None, localCache, packageDir).value;
      && Release(b.world, b.worker).raised == Some(RegisterError(NotRegisteredMessage(Monolith, b.worker.baseDir)))
      && b.worker.baseDir in Release(b.world, b.worker).state.fs.dirs
  {
  }
}
