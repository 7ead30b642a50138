/** The cache manager of the older package (`caching`). It differs from the
 current manager in what it checks: the register endpoint is mandatory, the
 object-storage branch is chosen by `s3` alone and always makes a fresh
 worker, the metadata is local-only (`meta` is `{}` and `insert_meta` does
 nothing under `s3`), and no worker-type check guards the metadata calls.

 As in the current manager, `Missing` is the state after `del self.worker`
 when the constructor that follows raised. */
module LegacyManager {
  import opened Outcomes
  import opened Storage
  import opened MetaDoc
  import LW = LegacyWorker
  import LS = LegacyS3Worker
  import S = S3Worker

  /** The constructor's settings. `packageDir` is the worker class's own
      directory, the root used when no local cache path is given. */
  datatype Config = Config(
    port: int,
    host: string,
    s3: bool,
    s3CachePath: Option<string>,
    localCachePath: Option<string>,
    packageDir: string)

  /** What the `worker` attribute holds. */
  datatype Held =
    | Missing
    | NoWorker
    | Local(local: LW.LegacyWorker)
    | Remote(remote: LS.LegacyS3Worker)

  datatype Manager = Manager(config: Config, held: Held)

  datatype Sys = Sys(world: World, manager: Manager)

  const NoneBaseDir: Error := AttributeError("'NoneType' object has no attribute 'base_dir'")
  const NoneCachePath: Error := TypeError("unsupported operand type(s) for +: 'NoneType' and 'str'")
  const PortArgument: Error := TypeError("__init__() got an unexpected keyword argument 'port'")

  /** The error the older object-storage worker raises for a method it lacks. */
  function NoMethod(name: string): Error {
    AttributeError("'S3Worker' object has no attribute '" + name + "'")
  }

  /** `CacheManager.__init__`: the settings are kept as given, with no
      default filled in for the local cache path; no worker, so the manager
      starts consistent with its configuration. */
  function Construct(port: int, host: string, s3: bool, s3CachePath: Option<string>,
                     localCachePath: Option<string>, packageDir: string): (r: Manager)
    ensures r.held.NoWorker? && Consistent(r)
    ensures r.config == Config(port, host, s3, s3CachePath, localCachePath, packageDir)
  {
    Manager(Config(port, host, s3, s3CachePath, localCachePath, packageDir), NoWorker)
  }

  /** The held worker matches the configured back end. */
  predicate Consistent(m: Manager) {
    && (m.held.Local? ==> !m.config.s3)
    && (m.held.Remote? ==> m.config.s3)
  }

  /** Dropping the reference to a worker: a local worker's finaliser
      releases it through the Monitor; the older object-storage worker has no
      finaliser. */
  function Drop(world: World, held: Held): (r: World)
    ensures !held.Local? ==> r == world
    ensures held.Local? ==> r == LW.Release(world, held.local)
    ensures r.objects == world.objects && r.register == world.register
  {
    if held.Local? then LW.Release(world, held.local) else world
  }

  /** The directory of whatever worker is held. */
  function BaseDir(h: Held): (r: Result<string>)
    ensures r.Ok? <==> h.Local? || h.Remote?
    ensures h.Missing? ==> r == Err(NoWorkerAttribute)
    ensures h.NoWorker? ==> r == Err(NoneBaseDir)
  {
    match h
    case Missing => Err(NoWorkerAttribute)
    case NoWorker => Err(NoneBaseDir)
    case Local(w) => Ok(w.baseDir)
    case Remote(w) => Ok(w.baseDir)
  }

  /** The `meta` property: `{}` under `s3`; otherwise the local file
      `meta.json` in the held worker's directory. */
  function ReadMeta(sys: Sys): (r: Result<Doc>)
    ensures sys.manager.config.s3 ==> r == Ok(EmptyDoc)
    ensures !sys.manager.config.s3 && BaseDir(sys.manager.held).Err? ==> r == Err(BaseDir(sys.manager.held).error)
    ensures !sys.manager.config.s3 && BaseDir(sys.manager.held).Ok? ==>
      r == ReadDoc(sys.world.fs, MetaPath(BaseDir(sys.manager.held).value))
  {
    if sys.manager.config.s3 then Ok(EmptyDoc)
    else
      var base :- BaseDir(sys.manager.held);
      ReadDoc(sys.world.fs, MetaPath(base))
  }

  /** `insert_meta`: under `s3`, nothing; otherwise one key of the local
      metadata file is set. A failed read writes nothing. */
  function InsertMeta(sys: Sys, key: string, value: Value): (r: Result<World>)
    ensures sys.manager.config.s3 ==> r == Ok(sys.world)
    ensures !sys.manager.config.s3 ==> (r.Ok? <==> ReadMeta(sys).Ok?)
    ensures !sys.manager.config.s3 && r.Err? ==> r.error == ReadMeta(sys).error
    ensures !sys.manager.config.s3 && r.Ok? ==>
      ReadMeta(sys.(world := r.value)) == Ok(Insert(ReadMeta(sys).value, key, value))
    ensures r.Ok? ==> r.value.fs.dirs == sys.world.fs.dirs && r.value.monitor == sys.world.monitor
    ensures r.Ok? ==> r.value.register == sys.world.register && r.value.objects == sys.world.objects
  {
    if sys.manager.config.s3 then Ok(sys.world)
    else
      var base :- BaseDir(sys.manager.held);
      var d :- ReadDoc(sys.world.fs, MetaPath(base));
      Ok(sys.world.(fs := WriteDoc(sys.world.fs, MetaPath(base), Insert(d, key, value))))
  }

  /** `_create_meta`: under a local configuration the held worker's metadata
      file becomes `{}`. */
  function CreateMeta(sys: Sys): (r: Result<World>)
    ensures sys.manager.config.s3 ==> r == Ok(sys.world)
    ensures !sys.manager.config.s3 ==> (r.Ok? <==> BaseDir(sys.manager.held).Ok?)
    ensures !sys.manager.config.s3 && r.Ok? ==> ReadMeta(sys.(world := r.value)) == Ok(EmptyDoc)
    ensures r.Ok? ==> r.value.fs.dirs == sys.world.fs.dirs && r.value.monitor == sys.world.monitor
  {
    if sys.manager.config.s3 then Ok(sys.world)
    else
      var base :- BaseDir(sys.manager.held);
      Ok(sys.world.(fs := WriteDoc(sys.world.fs, MetaPath(base), EmptyDoc)))
  }

  /** The object-storage half of `create_cache`: a fresh worker under the
      configured cache path whatever `existing` says; a missing cache path
      raises TypeError with the attribute gone. */
  function InstallRemote(sys: Sys, freshId: string): (r: Step<Sys>)
    requires !sys.manager.held.Missing?
    ensures var world := Drop(sys.world, sys.manager.held);
      && (sys.manager.config.s3CachePath.None? ==>
            r == Step(Sys(world, sys.manager.(held := Missing)), Some(NoneCachePath)))
      && (sys.manager.config.s3CachePath.Some? ==>
            r == Step(Sys(world, sys.manager.(held := Remote(LS.New(sys.manager.config.s3CachePath.value, freshId)))), None))
  {
    var world := Drop(sys.world, sys.manager.held);
    match sys.manager.config.s3CachePath
    case None => Step(Sys(world, sys.manager.(held := Missing)), Some(NoneCachePath))
    case Some(path) => Step(Sys(world, sys.manager.(held := Remote(LS.New(path, freshId)))), None)
  }

  /** The local half of `create_cache` once the worker is built: a fresh
      cache gets `{}` as metadata; an attached cache inherits the lock its
      metadata records. */
  function SettleLocal(sys: Sys, existing: Option<string>): (r: Step<Sys>)
    requires sys.manager.held.Local? && !sys.manager.config.s3
    ensures existing.None? ==> r.raised.None? && ReadMeta(r.state) == Ok(EmptyDoc) && r.state.manager == sys.manager
    ensures existing.Some? ==> (r.raised.None? <==> ReadMeta(sys).Ok?)
    ensures existing.Some? && r.raised.None? ==>
      r.state.world == sys.world && r.state.manager.held.Local?
      && r.state.manager.held.local.locked == (sys.manager.held.local.locked || IsLocked(ReadMeta(sys).value))
  {
    if existing.None? then
      Step(sys.(world := CreateMeta(sys).value), None)
    else
      match ReadMeta(sys)
      case Err(e) => Step(sys, Some(e))
      case Ok(d) =>
        if IsLocked(d) then Step(sys.(manager := sys.manager.(held := Local(LW.Lock(sys.manager.held.local)))), None)
        else Step(sys, None)
  }

  /** `create_cache` as evidently intended: the local worker is built from
      the existing cache and the local cache path only. */
  function CreateCache(sys: Sys, existing: Option<string>, freshId: string): (r: Step<Sys>)
    ensures sys.manager.held.Missing? ==> r == Step(sys, Some(NoWorkerAttribute))
    ensures r.state.manager.config == sys.manager.config
    ensures Consistent(r.state.manager) || r.state == sys
    ensures !sys.manager.held.Missing? && sys.manager.config.s3 ==> r == InstallRemote(sys, freshId)
    ensures !sys.manager.held.Missing? && !sys.manager.config.s3 ==>
      var c := sys.manager.config;
      var built := LW.New(Drop(sys.world, sys.manager.held), freshId, existing, c.localCachePath, c.packageDir);
      && (built.Err? ==> r == Step(Sys(Drop(sys.world, sys.manager.held), sys.manager.(held := Missing)), Some(built.error)))
      && (built.Ok? ==> r == SettleLocal(Sys(built.value.world, sys.manager.(held := Local(built.value.worker))), existing))
  {
    var m := sys.manager;
    if m.held.Missing? then Step(sys, Some(NoWorkerAttribute))
    else if m.config.s3 then InstallRemote(sys, freshId)
    else
      var world := Drop(sys.world, m.held);
      match LW.New(world, freshId, existing, m.config.localCachePath, m.config.packageDir)
      case Err(e) => Step(Sys(world, m.(held := Missing)), Some(e))
      case Ok(b) => SettleLocal(Sys(b.world, m.(held := Local(b.worker))), existing)
  }

  /** `create_cache` exactly as written: the local branch hands the register
      endpoint to a worker constructor that does not accept it, so every
      local construction raises TypeError, after the old worker is dropped. */
  function CreateCacheAsWritten(sys: Sys, existing: Option<string>, freshId: string): (r: Step<Sys>)
    ensures sys.manager.held.Missing? || sys.manager.config.s3 ==> r == CreateCache(sys, existing, freshId)
    ensures !sys.manager.held.Missing? && !sys.manager.config.s3 ==>
      r == Step(Sys(Drop(sys.world, sys.manager.held), sys.manager.(held := Missing)), Some(PortArgument))
  {
    var m := sys.manager;
    if m.held.Missing? then Step(sys, Some(NoWorkerAttribute))
    else if m.config.s3 then InstallRemote(sys, freshId)
    else Step(Sys(Drop(sys.world, m.held), m.(held := Missing)), Some(PortArgument))
  }

  /** Sets the lock flag of the held worker. */
  function SetLock(h: Held, locked: bool): (r: Result<Held>)
    requires h.Local? || h.Remote?
    ensures h.Local? ==> r == Ok(Local(h.local.(locked := locked)))
    ensures h.Remote? ==> r.Err?
  {
    match h
    case Local(w) => Ok(Local(if locked then LW.Lock(w) else LW.Unlock(w)))
    case Remote(_) => Err(NoMethod(if locked then "lock" else "unlock"))
  }

  /** `lock_cache` (`locked`) and `unlock_cache` (`!locked`): no worker
      raises CacheManagerError; under `s3` nothing happens; otherwise the
      worker's flag is set and recorded in the metadata, and a failed write
      leaves the flag set. */
  function SetCacheLock(sys: Sys, locked: bool): (r: Step<Sys>)
    ensures sys.manager.held.Missing? ==> r == Step(sys, Some(NoWorkerAttribute))
    ensures sys.manager.held.NoWorker? ==>
      r == Step(sys, Some(CacheManagerError("cache worker is not defined so cannot be " + (if locked then "locked" else "unlocked"))))
    ensures sys.manager.config.s3 || sys.manager.held.Remote? ==> r.state == sys
    ensures !sys.manager.config.s3 && sys.manager.held.Local? ==>
      && r.state.manager.held == Local(sys.manager.held.local.(locked := locked))
      && (r.raised.None? <==> MetaPath(sys.manager.held.local.baseDir) in sys.world.fs.files)
      && (r.raised.None? ==> ReadMeta(r.state) == Ok(Insert(ReadMeta(sys).value, LockedKey, Bool(locked))))
      && (r.raised.None? ==> IsLocked(ReadMeta(r.state).value) == locked)
      && (r.raised.Some? ==> r.raised == Some(FileNotFound(MetaPath(sys.manager.held.local.baseDir))))
      && (r.raised.Some? ==> r.state.world == sys.world)
      && r.state.world.register == sys.world.register && r.state.world.fs.dirs == sys.world.fs.dirs
      && r.state.world.objects == sys.world.objects && r.state.world.monitor == sys.world.monitor
    ensures !sys.manager.config.s3 && sys.manager.held.Remote? ==>
      r == Step(sys, Some(NoMethod(if locked then "lock" else "unlock")))
  {
    var m := sys.manager;
    match m.held
    case Missing => Step(sys, Some(NoWorkerAttribute))
    case NoWorker =>
      Step(sys, Some(CacheManagerError("cache worker is not defined so cannot be " + (if locked then "locked" else "unlocked"))))
    case _ =>
      if m.config.s3 then Step(sys, None)
      else
        match SetLock(m.held, locked)
        case Err(e) => Step(sys, Some(e))
        case Ok(h) =>
          var flagged := sys.(manager := m.(held := h));
          match InsertMeta(flagged, LockedKey, Bool(locked))
          case Err(e) => Step(flagged, Some(e))
          case Ok(world) => Step(flagged.(world := world), None)
  }

  /** `wipe_cache` (also `__exit__` and the finaliser): drops the worker and
      sets the attribute to None; a missing attribute raises AttributeError. */
  function WipeCache(sys: Sys): (r: Step<Sys>)
    ensures sys.manager.held.Missing? ==> r == Step(sys, Some(NoWorkerAttribute))
    ensures !sys.manager.held.Missing? ==> r.raised.None? && r.state.manager == sys.manager.(held := NoWorker)
    ensures !sys.manager.held.Local? ==> r.state.world == sys.world
    ensures sys.manager.held.Local? ==> r.state.world == LW.Release(sys.world, sys.manager.held.local)
  {
    if sys.manager.held.Missing? then Step(sys, Some(NoWorkerAttribute))
    else Step(Sys(Drop(sys.world, sys.manager.held), sys.manager.(held := NoWorker)), None)
  }

  /** The `cache_path` property. */
  function CachePath(m: Manager): (r: Result<Option<string>>)
    ensures m.held.Missing? <==> r.Err?
    ensures r == Ok(None) <==> m.held.NoWorker?
    ensures m.held.Local? || m.held.Remote? ==> r == Ok(Some(BaseDir(m.held).value))
  {
    match m.held
    case Missing => Err(NoWorkerAttribute)
    case NoWorker => Ok(None)
    case Local(w) => Ok(Some(w.baseDir))
    case Remote(w) => Ok(Some(w.baseDir))
  }

  /** `__enter__`: creates a fresh cache. */
  function Enter(sys: Sys, freshId: string): Step<Sys>
  {
    CreateCache(sys, None, freshId)
  }

  /** `__exit__`: wipes the cache. */
  function Exit(sys: Sys): Step<Sys>
  {
    WipeCache(sys)
  }
}
