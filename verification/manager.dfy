/** The cache manager of the current package (`monolithcaching`): holds at
 most one worker, chosen by configuration (object storage when `s3` is set and
 an object-storage cache path is given, the local filesystem otherwise), and
 keeps the cache's metadata document (`meta.json` in the cache directory) in
 step with the worker's lock flag.

 Python's `del self.worker` both drops the worker (running a local worker's
 finaliser) and removes the attribute; if the constructor that follows raises,
 the attribute stays missing and every later use of it raises
 AttributeError. That state is `Missing`. */
module Manager {
  import opened Outcomes
  import opened Storage
  import opened MetaDoc
  import W = Worker
  import S = S3Worker
  import Register

  /** The constructor's settings; `localCachePath` is already resolved. */
  datatype Config = Config(
    port: Option<int>,
    host: Option<string>,
    s3: bool,
    s3CachePath: Option<string>,
    localCachePath: string)

  /** What the `worker` attribute holds. */
  datatype Held =
    | Missing                     // deleted and not reassigned
    | NoWorker                    // None
    | Local(local: W.Worker)
    | Remote(remote: S.S3Worker)

  datatype Manager = Manager(config: Config, held: Held)

  /** The storage world together with the one manager acting on it. */
  datatype Sys = Sys(world: World, manager: Manager)


  /** The object-storage back end is used exactly when `s3` is set and a
      cache path for it is given. */
  predicate UsesS3(c: Config) {
    c.s3 && c.s3CachePath.Some?
  }

  /** The held worker matches the configured back end. */
  predicate Consistent(m: Manager) {
    && (m.held.Local? ==> !UsesS3(m.config))
    && (m.held.Remote? ==> UsesS3(m.config))
  }

  /** `CacheManager.__init__`: no worker yet; without a local cache path the
      root directory's path (a parameter here) is used. */
  function Construct(port: Option<int>, host: Option<string>, s3: bool, s3CachePath: Option<string>,
                     localCachePath: Option<string>, rootDirectory: string): (r: Manager)
    ensures r.held == NoWorker && Consistent(r)
    ensures r.config.localCachePath == (if localCachePath.Some? then localCachePath.value else rootDirectory)
    ensures UsesS3(r.config) <==> s3 && s3CachePath.Some?
    ensures r.config.port == port && r.config.host == host && r.config.s3 == s3 && r.config.s3CachePath == s3CachePath
  {
    Manager(Config(port, host, s3, s3CachePath, localCachePath.GetOr(rootDirectory)), NoWorker)
  }

  /** Dropping the manager's reference to a worker. A local worker's
      finaliser releases its directory; whatever it raises is swallowed, as
      Python does for finalisers. An object-storage worker has no finaliser. */
  function Drop(world: World, held: Held): (r: World)
    ensures !held.Local? ==> r == world
    ensures held.Local? ==> r == W.Release(world, held.local).state
    ensures r.objects == world.objects && r.monitor == world.monitor
    ensures held.Local? && held.local.locked ==> r.fs == world.fs
  {
    if held.Local? then W.Release(world, held.local).state else world
  }

  /** The `meta` property: a local worker under a local configuration reads
      its `meta.json`; an object-storage worker reads its metadata object;
      anything else raises CacheManagerError. */
  function ReadMeta(sys: Sys): (r: Result<Doc>)
    ensures sys.manager.held.Missing? ==> r == Err(NoWorkerAttribute)
    ensures !sys.manager.config.s3 && sys.manager.held.Local? ==>
      r == ReadDoc(sys.world.fs, MetaPath(sys.manager.held.local.baseDir))
    ensures sys.manager.held.Remote? ==> r == S.Meta(sys.world.objects, sys.manager.held.remote)
    ensures sys.manager.held.NoWorker? || (sys.manager.config.s3 && sys.manager.held.Local?) ==>
      r == Err(CacheManagerError("worker is not present for meta data"))
  {
    var m := sys.manager;
    match m.held
    case Missing => Err(NoWorkerAttribute)
    case Local(w) =>
      if !m.config.s3 then ReadDoc(sys.world.fs, MetaPath(w.baseDir))
      else Err(CacheManagerError("worker is not present for meta data"))
    case Remote(w) => S.Meta(sys.world.objects, w)
    case NoWorker => Err(CacheManagerError("worker is not present for meta data"))
  }

  /** `insert_meta`: sets one key of the metadata document, through the local
      file for a local worker under a local configuration, through the
      metadata object for an object-storage worker under an object-storage
      configuration. No worker, or a worker of the other kind, raises
      CacheManagerError; a failed read writes nothing. */
  function InsertMeta(sys: Sys, key: string, value: Value): (r: Result<World>)
    ensures sys.manager.held.Missing? ==> r == Err(NoWorkerAttribute)
    ensures sys.manager.held.NoWorker? ==>
      r == Err(CacheManagerError("you are trying to insert meta data when no cache is made"))
    ensures (sys.manager.held.Local? && sys.manager.config.s3) || (sys.manager.held.Remote? && !sys.manager.config.s3) ==>
      r == Err(CacheManagerError("worker type is not consistent with setup"))
    ensures sys.manager.held.Local? || sys.manager.held.Remote? ==>
      (r.Ok? <==> ReadMeta(sys).Ok? && (sys.manager.held.Local? <==> !sys.manager.config.s3))
    ensures r.Ok? ==> ReadMeta(sys.(world := r.value)) == Ok(Insert(ReadMeta(sys).value, key, value))
    ensures r.Ok? ==> r.value.register == sys.world.register && r.value.monitor == sys.world.monitor
    ensures r.Ok? ==> r.value.fs.dirs == sys.world.fs.dirs
  {
    var m := sys.manager;
    match m.held
    case Missing => Err(NoWorkerAttribute)
    case NoWorker => Err(CacheManagerError("you are trying to insert meta data when no cache is made"))
    case Local(w) =>
      if !m.config.s3 then
        var path := MetaPath(w.baseDir);
        var d :- ReadDoc(sys.world.fs, path);
        Ok(sys.world.(fs := WriteDoc(sys.world.fs, path, Insert(d, key, value))))
      else Err(CacheManagerError("worker type is not consistent with setup"))
    case Remote(w) =>
      if m.config.s3 then
        var objects :- S.InsertMeta(sys.world.objects, w, key, value);
        Ok(sys.world.(objects := objects))
      else Err(CacheManagerError("worker type is not consistent with setup"))
  }

  /** `insert_meta` touches nothing but the one document: a local insert
      rewrites only the metadata file and leaves every other file and the
      object store alone; an object-storage insert rewrites only the
      metadata object and leaves the filesystem alone. */
  lemma InsertMetaFrame(sys: Sys, key: string, value: Value)
    ensures var r := InsertMeta(sys, key, value);
      r.Ok? && sys.manager.held.Local? ==>
        var path := MetaPath(sys.manager.held.local.baseDir);
        && r.value.objects == sys.world.objects
        && r.value.fs.files.Keys == sys.world.fs.files.Keys
        && (forall f :: f in sys.world.fs.files && f != path ==> r.value.fs.files[f] == sys.world.fs.files[f])
    ensures var r := InsertMeta(sys, key, value);
      r.Ok? && sys.manager.held.Remote? ==>
        var objectKey := S.MetaKey(sys.manager.held.remote);
        && r.value.fs == sys.world.fs
        && r.value.objects.Keys == sys.world.objects.Keys
        && (forall o :: o in sys.world.objects && o != objectKey ==> r.value.objects[o] == sys.world.objects[o])
  {
    match sys.manager.held
    case Local(w) =>
      var path := MetaPath(w.baseDir);
      if !sys.manager.config.s3 && path in sys.world.fs.files {
        var d := sys.world.fs.files[path];
        assert InsertMeta(sys, key, value) == Ok(sys.world.(fs := WriteDoc(sys.world.fs, path, Insert(d, key, value))));
      }
    case Remote(w) =>
      if sys.manager.config.s3 && S.InsertMeta(sys.world.objects, w, key, value).Ok? {
        assert InsertMeta(sys, key, value) == Ok(sys.world.(objects := S.InsertMeta(sys.world.objects, w, key, value).value));
      }
    case _ =>
  }

  /** `_create_meta` as evidently intended: a local worker under a local
      configuration gets an empty metadata file; nothing else happens. */
  function CreateMeta(sys: Sys): (r: World)
    ensures !sys.manager.config.s3 && sys.manager.held.Local? ==>
      ReadMeta(sys.(world := r)) == Ok(EmptyDoc) && r.fs.dirs == sys.world.fs.dirs
    ensures !sys.manager.config.s3 && sys.manager.held.Local? ==>
      var path := MetaPath(sys.manager.held.local.baseDir);
      && r.fs.files.Keys == sys.world.fs.files.Keys + {path}
      && (forall f :: f in sys.world.fs.files && f != path ==> r.fs.files[f] == sys.world.fs.files[f])
    ensures !(!sys.manager.config.s3 && sys.manager.held.Local?) ==> r == sys.world
    ensures r.register == sys.world.register && r.objects == sys.world.objects && r.monitor == sys.world.monitor
  {
    match sys.manager.held
    case Local(w) =>
      if !sys.manager.config.s3 then sys.world.(fs := WriteDoc(sys.world.fs, MetaPath(w.baseDir), EmptyDoc))
      else sys.world
    case _ => sys.world
  }

  /** `_create_meta` as written: it tests for an object-storage worker under a
      local configuration, a combination `create_cache` never produces, so a
      local worker's metadata file is never written. */
  function CreateMetaAsWritten(sys: Sys): (r: World)
    ensures sys.manager.held.Local? || sys.manager.config.s3 ==> r == sys.world
    ensures !sys.manager.config.s3 && sys.manager.held.Remote? ==>
      r.fs == WriteDoc(sys.world.fs, MetaPath(sys.manager.held.remote.baseDir), EmptyDoc)
  {
    match sys.manager.held
    case Remote(w) =>
      if !sys.manager.config.s3 then sys.world.(fs := WriteDoc(sys.world.fs, MetaPath(w.baseDir), EmptyDoc))
      else sys.world
    case _ => sys.world
  }

  /** The lock of whatever worker is held (a no-op for object storage). */
  function LockHeld(h: Held): (r: Held)
    ensures h.Local? ==> r == Local(W.Lock(h.local))
    ensures !h.Local? ==> r == h
  {
    match h
    case Local(w) => Local(W.Lock(w))
    case Remote(w) => Remote(S.Lock(w))
    case _ => h
  }

  /** The object-storage worker `create_cache` builds: with `extract_id` as
      written, or with the intended extraction. */
  function NewRemote(objects: Objects, cachePath: string, existing: Option<string>, freshId: string,
                     asWritten: bool): (r: S.Built)
    ensures asWritten ==> r == S.NewAsWritten(objects, cachePath, existing, freshId)
    ensures !asWritten ==> r == S.New(objects, cachePath, existing, freshId)
  {
    if asWritten then S.NewAsWritten(objects, cachePath, existing, freshId)
    else S.New(objects, cachePath, existing, freshId)
  }

  /** The first half of `create_cache`: drop the old worker (deleting the
      attribute), then build the new one for the configured back end, with
      the object-storage id extraction as written or as intended. A failing
      local construction leaves the attribute missing. */
  function Install(sys: Sys, existing: Option<string>, freshId: string, asWritten: bool): (r: Step<Sys>)
    ensures sys.manager.held.Missing? ==> r == Step(sys, Some(NoWorkerAttribute))
    ensures r.state.manager.config == sys.manager.config
    ensures !sys.manager.held.Missing? && UsesS3(sys.manager.config) ==>
      var b := NewRemote(sys.world.objects, sys.manager.config.s3CachePath.value, existing, freshId, asWritten);
      r == Step(Sys(Drop(sys.world, sys.manager.held).(objects := b.objects), sys.manager.(held := Remote(b.worker))), None)
    ensures !sys.manager.held.Missing? && UsesS3(sys.manager.config) && existing.None? ==>
      ReadMeta(r.state) == Ok(EmptyDoc)
    ensures !sys.manager.held.Missing? && !UsesS3(sys.manager.config) ==>
      var c := sys.manager.config;
      var built := W.New(Drop(sys.world, sys.manager.held), freshId, c.port, c.host, existing,
                         Some(c.localCachePath), c.localCachePath);
      && (built.Err? ==> r == Step(Sys(Drop(sys.world, sys.manager.held), sys.manager.(held := Missing)), Some(built.error)))
      && (built.Ok? ==> r == Step(Sys(built.value.world, sys.manager.(held := Local(built.value.worker))), None))
    ensures Consistent(r.state.manager) || r.state == sys
    ensures !sys.manager.held.Missing? && !UsesS3(sys.manager.config) && r.state.manager.held.Local? ==>
      var c := sys.manager.config;
      var dropped := Drop(sys.world, sys.manager.held);
      var w := r.state.manager.held.local;
      && r.raised.None? && !w.locked
      && w.id == freshId && w.port == c.port && w.host == c.host
      && w.baseDir == (if existing.Some? then existing.value else W.CandidateDir(c.localCachePath, freshId))
      && w.baseDir in r.state.world.fs.dirs
      && r.state.world.fs.dirs == dropped.fs.dirs + {w.baseDir}
      && r.state.world.fs.files == dropped.fs.files
      && (existing.None? ==> w.baseDir !in dropped.fs.dirs)
      && Register.CountOf(r.state.world.register, w.baseDir)
         == Register.CountOf(dropped.register, w.baseDir) + (if W.Registers(c.port, c.host) then 1 else 0)
      && r.state.world.objects == dropped.objects && r.state.world.monitor == dropped.monitor
  {
    var m := sys.manager;
    if m.held.Missing? then Step(sys, Some(NoWorkerAttribute))
    else
      var world := Drop(sys.world, m.held);
      if UsesS3(m.config) then
        var b := NewRemote(world.objects, m.config.s3CachePath.value, existing, freshId, asWritten);
        Step(Sys(world.(objects := b.objects), m.(held := Remote(b.worker))), None)
      else
        match W.New(world, freshId, m.config.port, m.config.host, existing, Some(m.config.localCachePath), m.config.localCachePath)
        case Err(e) => Step(Sys(world, m.(held := Missing)), Some(e))
        case Ok(b) => Step(Sys(b.world, m.(held := Local(b.worker))), None)
  }

  /** The attach half of `create_cache`: read the metadata and lock the
      worker when it records `"locked": true`. A failed read raises with the
      new worker already in place. */
  function InheritLock(sys: Sys): (r: Step<Sys>)
    ensures r.raised.Some? <==> ReadMeta(sys).Err?
    ensures r.raised.Some? ==> r == Step(sys, Some(ReadMeta(sys).error))
    ensures r.raised.None? ==> r.state.world == sys.world
    ensures r.raised.None? && sys.manager.held.Local? ==>
      r.state.manager.held.Local? && r.state.manager.held.local.locked == (sys.manager.held.local.locked || IsLocked(ReadMeta(sys).value))
  {
    match ReadMeta(sys)
    case Err(e) => Step(sys, Some(e))
    case Ok(d) =>
      if IsLocked(d) then Step(sys.(manager := sys.manager.(held := LockHeld(sys.manager.held))), None)
      else Step(sys, None)
  }

  /** `create_cache` with the evidently intended `_create_meta`. A fresh
      local cache starts with an empty, unlocked metadata document; an
      attached local cache inherits the lock its metadata records; an
      object-storage cache needs no follow-up. */
  function CreateCache(sys: Sys, existing: Option<string>, freshId: string): (r: Step<Sys>)
    ensures sys.manager.held.Missing? ==> r == Step(sys, Some(NoWorkerAttribute))
    ensures r.state.manager.config == sys.manager.config
    ensures Consistent(r.state.manager) || r.state == sys
    ensures !sys.manager.held.Missing? && UsesS3(sys.manager.config) ==>
      r == Install(sys, existing, freshId, false)
    ensures !sys.manager.held.Missing? && UsesS3(sys.manager.config) && existing.None? ==>
      ReadMeta(r.state) == Ok(EmptyDoc)
    ensures !sys.manager.held.Missing? && UsesS3(sys.manager.config) ==>
      && r.raised.None? && r.state.manager.held.Remote?
      && (Consistent(sys.manager) ==> r.state.world.fs == sys.world.fs && r.state.world.register == sys.world.register)
    ensures !sys.manager.held.Missing? && !UsesS3(sys.manager.config) && r.raised.None? ==>
      r.state.manager.held.Local?
    ensures !sys.manager.held.Missing? && !UsesS3(sys.manager.config) ==>
      var dropped := Drop(sys.world, sys.manager.held);
      var candidate := W.CandidateDir(sys.manager.config.localCachePath, freshId);
      r.state.manager.held.Missing? <==>
        (existing.Some? && existing.value !in dropped.fs.dirs) || (existing.None? && candidate in dropped.fs.dirs)
    ensures !sys.manager.held.Missing? && !UsesS3(sys.manager.config) && r.state.manager.held.Local? ==>
      var c := sys.manager.config;
      var dropped := Drop(sys.world, sys.manager.held);
      var w := r.state.manager.held.local;
      && w.id == freshId && w.port == c.port && w.host == c.host
      && w.baseDir in r.state.world.fs.dirs
      && r.state.world.fs.dirs == dropped.fs.dirs + {w.baseDir}
      && (existing.None? ==> w.baseDir == W.CandidateDir(c.localCachePath, freshId) && w.baseDir !in dropped.fs.dirs)
      && Register.CountOf(r.state.world.register, w.baseDir)
         == Register.CountOf(dropped.register, w.baseDir) + (if W.Registers(c.port, c.host) then 1 else 0)
      && r.state.world.objects == dropped.objects && r.state.world.monitor == dropped.monitor
    ensures !sys.manager.config.s3 && existing.None? && r.state.manager.held.Local? ==>
      r.raised.None? && ReadMeta(r.state) == Ok(EmptyDoc) && !r.state.manager.held.local.locked
    ensures !sys.manager.config.s3 && existing.Some? && r.state.manager.held.Local? ==>
      var path := MetaPath(existing.value);
      && r.state.manager.held.local.baseDir == existing.value
      && (r.raised.None? <==> path in r.state.world.fs.files)
      && (r.raised.None? ==> r.state.manager.held.local.locked == IsLocked(r.state.world.fs.files[path]))
  {
    var s := Install(sys, existing, freshId, false);
    if s.raised.Some? || !s.state.manager.held.Local? then s
    else if existing.None? then Step(s.state.(world := CreateMeta(s.state)), None)
    else InheritLock(s.state)
  }

  /** `create_cache` exactly as written: a fresh local cache gets no metadata
      file, and an object-storage attach uses `extract_id` as written. A
      local attach is the same as the intended one. */
  function CreateCacheAsWritten(sys: Sys, existing: Option<string>, freshId: string): (r: Step<Sys>)
    ensures existing.Some? && !UsesS3(sys.manager.config) ==> r == CreateCache(sys, existing, freshId)
    ensures existing.None? ==> r.state.manager == CreateCache(sys, existing, freshId).state.manager
    ensures existing.None? ==> r.state.world == Install(sys, existing, freshId, true).state.world
    ensures !sys.manager.held.Missing? && UsesS3(sys.manager.config) ==>
      var b := S.NewAsWritten(sys.world.objects, sys.manager.config.s3CachePath.value, existing, freshId);
      && r.raised.None?
      && r.state.manager == sys.manager.(held := Remote(b.worker))
      && r.state.world == Drop(sys.world, sys.manager.held).(objects := b.objects)
  {
    var s := Install(sys, existing, freshId, true);
    if s.raised.Some? || !s.state.manager.held.Local? then s
    else if existing.None? then Step(s.state.(world := CreateMetaAsWritten(s.state)), None)
    else InheritLock(s.state)
  }

  /** `lock_cache`: raises CacheManagerError without a worker. Under a local
      configuration the worker is locked and `"locked": true` is written to
      the metadata; if that write fails, the worker stays locked. Under an
      object-storage configuration nothing happens. */
  function LockCache(sys: Sys): (r: Step<Sys>)
    ensures sys.manager.held.Missing? ==> r == Step(sys, Some(NoWorkerAttribute))
    ensures sys.manager.held.NoWorker? ==>
      r == Step(sys, Some(CacheManagerError("cache worker is not defined so cannot be locked")))
    ensures sys.manager.config.s3 ==> r.state == sys
    ensures !sys.manager.config.s3 && sys.manager.held.Local? ==>
      && r.state.manager.held == Local(W.Lock(sys.manager.held.local))
      && (r.raised.None? <==> MetaPath(sys.manager.held.local.baseDir) in sys.world.fs.files)
      && (r.raised.None? ==> ReadMeta(r.state) == Ok(Insert(ReadMeta(sys).value, LockedKey, Bool(true))))
      && (r.raised.None? ==> IsLocked(ReadMeta(r.state).value))
      && (r.raised.Some? ==> r.raised == Some(FileNotFound(MetaPath(sys.manager.held.local.baseDir))))
      && (r.raised.Some? ==> r.state.world == sys.world)
      && r.state.world.register == sys.world.register && r.state.world.fs.dirs == sys.world.fs.dirs
      && r.state.world.objects == sys.world.objects && r.state.world.monitor == sys.world.monitor
    ensures !sys.manager.config.s3 && sys.manager.held.Remote? ==>
      r == Step(sys, Some(CacheManagerError("worker type is not consistent with setup")))
  {
    var m := sys.manager;
    match m.held
    case Missing => Step(sys, Some(NoWorkerAttribute))
    case NoWorker => Step(sys, Some(CacheManagerError("cache worker is not defined so cannot be locked")))
    case _ =>
      if m.config.s3 then Step(sys, None)
      else
        var locked := sys.(manager := m.(held := LockHeld(m.held)));
        match InsertMeta(locked, LockedKey, Bool(true))
        case Err(e) => Step(locked, Some(e))
        case Ok(world) => Step(locked.(world := world), None)
  }

  /** `unlock_cache`: raises CacheManagerError without a worker. A local
      worker under a local configuration is unlocked and `"locked": false` is
      written; in every other case nothing happens. */
  function UnlockCache(sys: Sys): (r: Step<Sys>)
    ensures sys.manager.held.Missing? ==> r == Step(sys, Some(NoWorkerAttribute))
    ensures sys.manager.held.NoWorker? ==>
      r == Step(sys, Some(CacheManagerError("cache worker is not defined so cannot be unlocked")))
    ensures sys.manager.config.s3 || sys.manager.held.Remote? ==> r.state == sys
    ensures !sys.manager.config.s3 && sys.manager.held.Local? ==>
      && r.state.manager.held == Local(W.Unlock(sys.manager.held.local))
      && (r.raised.None? <==> MetaPath(sys.manager.held.local.baseDir) in sys.world.fs.files)
      && (r.raised.None? ==> ReadMeta(r.state) == Ok(Insert(ReadMeta(sys).value, LockedKey, Bool(false))))
      && (r.raised.None? ==> !IsLocked(ReadMeta(r.state).value))
      && (r.raised.Some? ==> r.raised == Some(FileNotFound(MetaPath(sys.manager.held.local.baseDir))))
      && (r.raised.Some? ==> r.state.world == sys.world)
      && r.state.world.register == sys.world.register && r.state.world.fs.dirs == sys.world.fs.dirs
      && r.state.world.objects == sys.world.objects && r.state.world.monitor == sys.world.monitor
  {
    var m := sys.manager;
    match m.held
    case Missing => Step(sys, Some(NoWorkerAttribute))
    case NoWorker => Step(sys, Some(CacheManagerError("cache worker is not defined so cannot be unlocked")))
    case Remote(_) => Step(sys, None)
    case Local(w) =>
      if m.config.s3 then Step(sys, None)
      else
        var unlocked := sys.(manager := m.(held := Local(W.Unlock(w))));
        match InsertMeta(unlocked, LockedKey, Bool(false))
        case Err(e) => Step(unlocked, Some(e))
        case Ok(world) => Step(unlocked.(world := world), None)
  }

  /** `wipe_cache` (also `__exit__` and the manager's finaliser): drops the
      worker and sets the attribute to None. A missing attribute raises
      AttributeError and changes nothing. */
  function WipeCache(sys: Sys): (r: Step<Sys>)
    ensures sys.manager.held.Missing? ==> r == Step(sys, Some(NoWorkerAttribute))
    ensures !sys.manager.held.Missing? ==> r.raised.None? && r.state.manager == sys.manager.(held := NoWorker)
    ensures !sys.manager.held.Local? ==> r.state.world == sys.world
    ensures sys.manager.held.Local? ==> r.state.world == W.Release(sys.world, sys.manager.held.local).state
  {
    if sys.manager.held.Missing? then Step(sys, Some(NoWorkerAttribute))
    else Step(Sys(Drop(sys.world, sys.manager.held), sys.manager.(held := NoWorker)), None)
  }

  /** The `cache_path` property: the worker's directory, or None without a
      worker. */
  function CachePath(m: Manager): (r: Result<Option<string>>)
    ensures m.held.Missing? <==> r.Err?
    ensures r.Err? ==> r.error == NoWorkerAttribute
    ensures r == Ok(None) <==> m.held.NoWorker?
    ensures m.held.Local? ==> r == Ok(Some(m.held.local.baseDir))
    ensures m.held.Remote? ==> r == Ok(Some(m.held.remote.baseDir))
  {
    match m.held
    case Missing => Err(NoWorkerAttribute)
    case NoWorker => Ok(None)
    case Local(w) => Ok(Some(w.baseDir))
    case Remote(w) => Ok(Some(w.baseDir))
  }

  /** `__enter__`: creates a fresh cache. */
  function Enter(sys: Sys, freshId: string): Step<Sys>
  {
    CreateCache(sys, None, freshId)
  }

  /** `__exit__`: wipes the cache. */
  function Exit(sys: Sys): Step<Sys>
  {
    WipeCache(sys)
  }
}
