/** Reference counting across many workers that share one cache directory:
 every attach counts one reference, every release gives one back, and the
 directory is removed exactly at the release of the last reference, never by
 a locked release. The current package counts in the register; the older one
 counts the Monitor's entries. */
module Lifecycle {
  import opened Outcomes
  import opened Storage
  import opened Register
  import W = Worker
  import LW = LegacyWorker
  import Monitor

  /** The world after a sequence of attaches, and the workers made. */
  datatype Attached = Attached(world: World, workers: seq<W.Worker>)

  /** Every worker is an unlocked, registered worker on `path`. */
  predicate AllUnlockedOn(workers: seq<W.Worker>, path: string) {
    forall i :: 0 <= i < |workers| ==> workers[i].baseDir == path && !workers[i].locked && workers[i].port.Some?
  }

  /** Attaches one worker per id to the existing directory `path`, with the
      register configured. Each attach counts one more reference to `path`;
      nothing else changes. */
  function AttachAll(world: World, path: string, ids: seq<string>, port: int, host: string): (r: Attached)
    requires path in world.fs.dirs
    ensures |r.workers| == |ids|
    ensures AllUnlockedOn(r.workers, path)
    ensures forall i :: 0 <= i < |ids| ==> r.workers[i].id == ids[i]
    ensures r.world.fs == world.fs && r.world.objects == world.objects && r.world.monitor == world.monitor
    ensures path in r.world.register || |ids| == 0
    ensures CountOf(r.world.register, path) == CountOf(world.register, path) + |ids|
    ensures forall q :: q != path ==> (q in r.world.register <==> q in world.register)
    ensures forall q :: q in world.register && q != path ==> r.world.register[q] == world.register[q]
    decreases |ids|
  {
    if |ids| == 0 then Attached(world, [])
    else
      var b := W.New(world, ids[0], Some(port), Some(host), Some(path), None, "").value;
      var rest := AttachAll(b.world, path, ids[1..], port, host);
      Attached(rest.world, [b.worker] + rest.workers)
  }

  /** Releases the workers in order; whatever a release raises is swallowed,
      as the finalisers do. */
  function ReleaseAll(world: World, workers: seq<W.Worker>): World
    decreases |workers|
  {
    if |workers| == 0 then world
    else W.Release(ReleaseAll(world, workers[..|workers| - 1]), workers[|workers| - 1]).state
  }

  /** One unlocked release of a path with `m` references: the count drops to
      `m - 1`; the directory survives while that is positive, and at zero the
      directory and the register entry are both gone. Nothing is raised. */
  lemma ReleaseOne(world: World, w: W.Worker, m: int)
    requires !w.locked && w.port.Some? && w.baseDir in world.fs.dirs
    requires w.baseDir in world.register && world.register[w.baseDir] == m && m >= 1
    ensures var r := W.Release(world, w);
      && r.raised.None?
      && (m >= 2 ==> w.baseDir in r.state.fs.dirs && r.state.fs == world.fs
                     && w.baseDir in r.state.register && r.state.register[w.baseDir] == m - 1)
      && (m == 1 ==> w.baseDir !in r.state.fs.dirs && w.baseDir !in r.state.register)
      && (forall q :: q != w.baseDir ==> (q in r.state.register <==> q in world.register))
  {
  }

  /** After the first `k` of `n` unlocked releases on a path counted `n`
      times, the path holds `n - k` references and its directory exists; the
      `n`-th release removes both. */
  lemma {:induction false} ReleasesCountDown(world: World, path: string, workers: seq<W.Worker>, k: nat)
    requires AllUnlockedOn(workers, path)
    requires path in world.fs.dirs && path in world.register && world.register[path] == |workers|
    requires 1 <= |workers| && k <= |workers|
    ensures var after := ReleaseAll(world, workers[..k]);
      && (k < |workers| ==> path in after.fs.dirs && path in after.register && after.register[path] == |workers| - k)
      && (k == |workers| ==> path !in after.fs.dirs && path !in after.register)
  {
    if k > 0 {
      ReleasesCountDown(world, path, workers, k - 1);
      assert workers[..k][..k - 1] == workers[..k - 1];
      var before := ReleaseAll(world, workers[..k - 1]);
      ReleaseOne(before, workers[k - 1], |workers| - (k - 1));
    } else {
      assert workers[..0] == [];
    }
  }

  /** The headline property of the current package. `n` workers attach to a
      directory the register does not yet track; releasing them unlocked, in
      order, keeps the directory through the first `n - 1` releases and
      removes it, with its register entry, at the `n`-th. */
  lemma LastReleaseDeletes(world: World, path: string, ids: seq<string>, port: int, host: string, k: nat)
    requires path in world.fs.dirs && path !in world.register
    requires |ids| >= 1 && k <= |ids|
    ensures var a := AttachAll(world, path, ids, port, host);
      var after := ReleaseAll(a.world, a.workers[..k]);
      && (path in after.fs.dirs <==> k < |ids|)
      && (path in after.register <==> k < |ids|)
      && (k < |ids| ==> after.register[path] == |ids| - k)
  {
    var a := AttachAll(world, path, ids, port, host);
    ReleasesCountDown(a.world, path, a.workers, k);
  }

  /** A locked release never removes the directory, even for the last
      reference; the register keeps the path at count 0. */
  lemma LockedLastReleaseKeeps(world: World, w: W.Worker)
    requires w.locked && w.port.Some? && w.baseDir in world.fs.dirs
    requires w.baseDir in world.register && world.register[w.baseDir] == 1
    ensures var r := W.Release(world, w);
      && r.raised.None? && r.state.fs == world.fs
      && w.baseDir in r.state.register && r.state.register[w.baseDir] == 0
  {
  }

  /** The world after a sequence of older-package attaches, and the workers. */
  datatype LegacyAttached = LegacyAttached(world: World, workers: seq<LW.LegacyWorker>)

  /** The ids are pairwise different. */
  predicate Distinct(ids: seq<string>) {
    forall i, j :: 0 <= i < j < |ids| ==> ids[i] != ids[j]
  }

  /** The ids of the workers from position `k` on. */
  function IdsFrom(workers: seq<LW.LegacyWorker>, k: nat): set<string> {
    set i | k <= i < |workers| :: workers[i].id
  }

  /** One older-package attach to an existing directory: the Monitor maps
      the id to it; nothing else changes. */
  function LegacyAttach(world: World, path: string, id: string): (r: LW.Built)
    requires path in world.fs.dirs
    ensures r.world == world.(monitor := world.monitor[id := path])
    ensures r.worker.id == id && r.worker.baseDir == path && !r.worker.locked
  {
    LW.New(world, id, Some(path), None, "").value
  }

  /** The Monitor after each id in turn is pointed at `path`. */
  function PointAll(m: Monitor.Entries, ids: seq<string>, path: string): Monitor.Entries
    decreases |ids|
  {
    if |ids| == 0 then m else PointAll(m[ids[0] := path], ids[1..], path)
  }

  /** Pointing ids at `path` adds exactly those ids, each pointing at
      `path`, and leaves the other entries alone. */
  lemma {:induction false} PointAllEntries(m: Monitor.Entries, ids: seq<string>, path: string)
    ensures forall k :: k in PointAll(m, ids, path) <==> k in m || k in ids
    ensures forall k :: k in PointAll(m, ids, path) ==>
      PointAll(m, ids, path)[k] == (if k in ids then path else m[k])
    decreases |ids|
  {
    if |ids| > 0 {
      PointAllEntries(m[ids[0] := path], ids[1..], path);
      assert forall k :: k in ids <==> k == ids[0] || k in ids[1..];
    }
  }

  /** Attaches one older-package worker per id to the existing directory
      `path`; each adds its id to the Monitor, pointing at `path`, and
      nothing else changes. */
  function LegacyAttachAll(world: World, path: string, ids: seq<string>): (r: LegacyAttached)
    requires path in world.fs.dirs
    ensures |r.workers| == |ids|
    ensures forall i :: 0 <= i < |ids| ==>
      r.workers[i].id == ids[i] && r.workers[i].baseDir == path && !r.workers[i].locked
    ensures r.world == world.(monitor := PointAll(world.monitor, ids, path))
    decreases |ids|
  {
    if |ids| == 0 then LegacyAttached(world, [])
    else
      var b := LegacyAttach(world, path, ids[0]);
      var rest := LegacyAttachAll(b.world, path, ids[1..]);
      LegacyAttached(rest.world, [b.worker] + rest.workers)
  }

  /** Releases the older-package workers in order. */
  function LegacyReleaseAll(world: World, workers: seq<LW.LegacyWorker>): World
    decreases |workers|
  {
    if |workers| == 0 then world
    else LW.Release(LegacyReleaseAll(world, workers[..|workers| - 1]), workers[|workers| - 1])
  }

  /** One release in the Monitor count-down: the released id leaves the
      sharers of `path`, and the directory goes exactly when that id was the
      last one. */
  lemma LegacyReleaseOne(world: World, workers: seq<LW.LegacyWorker>, path: string, k: nat)
    requires k < |workers|
    requires Distinct(seq(|workers|, i requires 0 <= i < |workers| => workers[i].id))
    requires forall i :: 0 <= i < |workers| ==> workers[i].baseDir == path && !workers[i].locked
    requires path in world.fs.dirs
    requires Monitor.Sharers(world.monitor, path) == IdsFrom(workers, k)
    ensures var r := LW.Release(world, workers[k]);
      && Monitor.Sharers(r.monitor, path) == IdsFrom(workers, k + 1)
      && (path in r.fs.dirs <==> k + 1 < |workers|)
  {
    var w := workers[k];
    var ids := seq(|workers|, i requires 0 <= i < |workers| => workers[i].id);
    assert ids[k] == w.id;
    assert w.id in Monitor.Sharers(world.monitor, path);
    var d := Monitor.DeleteCache(world.monitor, world.fs, w.id, false);
    Monitor.DeleteShrinksSharers(world.monitor, world.fs, w.id, false, path);
    assert IdsFrom(workers, k) - {w.id} == IdsFrom(workers, k + 1) by {
      forall i | k + 1 <= i < |workers| ensures workers[i].id != w.id {
        assert ids[k] != ids[i];
      }
    }
    if k + 1 < |workers| {
      assert ids[k] != ids[k + 1];
      assert workers[k + 1].id in IdsFrom(workers, k);
      assert !Monitor.SoleSharer(world.monitor, w.id);
    } else {
      assert IdsFrom(workers, k) == {w.id};
      assert Monitor.SoleSharer(world.monitor, w.id);
    }
  }

  /** After the first `k` releases the Monitor's sharers of `path` are the
      ids not yet released, and the directory exists until the last one. */
  lemma {:induction false} LegacyReleasesCountDown(world: World, workers: seq<LW.LegacyWorker>, path: string, k: nat)
    requires k <= |workers|
    requires Distinct(seq(|workers|, i requires 0 <= i < |workers| => workers[i].id))
    requires forall i :: 0 <= i < |workers| ==> workers[i].baseDir == path && !workers[i].locked
    requires path in world.fs.dirs
    requires Monitor.Sharers(world.monitor, path) == IdsFrom(workers, 0)
    ensures var after := LegacyReleaseAll(world, workers[..k]);
      && Monitor.Sharers(after.monitor, path) == IdsFrom(workers, k)
      && (path in after.fs.dirs <==> k < |workers| || |workers| == 0)
  {
    if k > 0 {
      LegacyReleasesCountDown(world, workers, path, k - 1);
      assert workers[..k][..k - 1] == workers[..k - 1];
      LegacyReleaseOne(LegacyReleaseAll(world, workers[..k - 1]), workers, path, k - 1);
    } else {
      assert workers[..0] == [];
    }
  }

  /** The headline property of the older package: `n` workers with fresh,
      distinct ids attach to a directory no Monitor entry points at; released
      unlocked in order, the directory survives the first `n - 1` releases
      and goes at the `n`-th. */
  lemma LegacyLastReleaseDeletes(world: World, path: string, ids: seq<string>, k: nat)
    requires path in world.fs.dirs
    requires Monitor.Sharers(world.monitor, path) == {}
    requires Distinct(ids) && forall i :: 0 <= i < |ids| ==> ids[i] !in world.monitor
    requires |ids| >= 1 && k <= |ids|
    ensures var a := LegacyAttachAll(world, path, ids);
      path in LegacyReleaseAll(a.world, a.workers[..k]).fs.dirs <==> k < |ids|
  {
    var a := LegacyAttachAll(world, path, ids);
    PointAllEntries(world.monitor, ids, path);
    assert seq(|a.workers|, i requires 0 <= i < |a.workers| => a.workers[i].id) == ids;
    forall x | x in world.monitor ensures world.monitor[x] != path {
      assert x !in Monitor.Sharers(world.monitor, path);
    }
    assert Monitor.Sharers(a.world.monitor, path) == IdsFrom(a.workers, 0);
    LegacyReleasesCountDown(a.world, a.workers, path, k);
  }
}
