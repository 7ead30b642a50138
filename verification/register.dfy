/** The reference register: a Redis hash (`CACHE_REGISTER`) mapping a cache
 path to the number of workers pointing at it. Both package generations carry
 the same logic; they differ only in the wording of one error message. Each
 operation reads the count, computes, and writes it back; the model is one
 sequential process, so the read-modify-write race between processes does not
 arise here. */
module Register {
  import opened Outcomes

  /** Cache path -> reference count. */
  type Table = map<string, int>

  /** `monolithcaching` is the current package, `caching` the older one. */
  datatype Generation = Monolith | Legacy

  /** The RegisterError text for deregistering an unknown path. */
  function NotRegisteredMessage(gen: Generation, path: string): string {
    "cache " + path + " is not in cache register so it cannot be "
    + (if gen == Monolith then "de-registered" else "deregistered")
  }

  /** An absent entry counts as zero references. */
  function CountOf(t: Table, path: string): int {
    if path in t then t[path] else 0
  }

  /** No stored count is negative. */
  predicate NonNegative(t: Table) {
    forall p :: p in t ==> t[p] >= 0
  }

  /** `get_count`: None for an untracked path, otherwise the stored integer. */
  function GetCount(t: Table, path: string): (r: Option<int>)
    ensures r.None? <==> path !in t
    ensures r.Some? ==> r.value == t[path] && r.value == CountOf(t, path)
  {
    if path in t then Some(t[path]) else None
  }

  /** `register_cache`: an untracked path is stored at 1, a tracked one goes up
      by one; every other entry is left alone. */
  function RegisterCache(t: Table, path: string): (r: Table)
    ensures r.Keys == t.Keys + {path}
    ensures path !in t ==> r[path] == 1
    ensures path in t ==> r[path] == t[path] + 1
    ensures CountOf(r, path) == CountOf(t, path) + 1
    ensures forall p :: p in t && p != path ==> r[p] == t[p]
  {
    match GetCount(t, path)
    case None => t[path := 1]
    case Some(count) => t[path := count + 1]
  }

  /** The table after a deregister, and the count it returned. */
  datatype Released = Released(table: Table, count: int)

  /** `deregister_cache`: raises RegisterError for an untracked path, with
      the table untouched. Otherwise the count goes down by one unless it is
      already 0 or less; an unlocked cache whose count is then 0 or less loses
      its entry, and in every other case the new count is written back. Only
      `path`'s entry is touched. */
  function DeregisterCache(t: Table, path: string, locked: bool, gen: Generation): (r: Result<Released>)
    ensures r.Err? <==> path !in t
    ensures r.Err? ==> r.error == RegisterError(NotRegisteredMessage(gen, path))
    ensures r.Ok? ==> r.value.count == (if t[path] > 0 then t[path] - 1 else t[path])
    ensures r.Ok? && t[path] >= 0 ==> r.value.count >= 0
    ensures r.Ok? ==> (path in r.value.table <==> locked || r.value.count > 0)
    ensures r.Ok? && path in r.value.table ==> r.value.table[path] == r.value.count
    ensures r.Ok? && t[path] >= 0 && path !in r.value.table ==> r.value.count == 0
    ensures r.Ok? ==> forall p :: p != path ==> (p in r.value.table <==> p in t)
    ensures r.Ok? ==> forall p :: p in t && p != path ==> r.value.table[p] == t[p]
  {
    match GetCount(t, path)
    case None => Err(RegisterError(NotRegisteredMessage(gen, path)))
    case Some(stored) =>
      var count := if stored > 0 then stored - 1 else stored;
      if count <= 0 && !locked then Ok(Released(t - {path}, count))
      else Ok(Released(t[path := count], count))
  }

  /** Registering then deregistering unlocked a path the table did not track
      leaves the table as it was, and reports 0 references. */
  lemma RegisterDeregisterFresh(t: Table, path: string, gen: Generation)
    requires path !in t
    ensures DeregisterCache(RegisterCache(t, path), path, false, gen) == Ok(Released(t, 0))
  {
    assert RegisterCache(t, path) - {path} == t;
  }

  /** Registering then deregistering a tracked path restores the table
      exactly, unless the count was 0 and the release is unlocked, in which
      case the entry is dropped. */
  lemma RegisterDeregisterTracked(t: Table, path: string, locked: bool, gen: Generation)
    requires path in t && t[path] >= 0
    ensures t[path] > 0 || locked ==>
      DeregisterCache(RegisterCache(t, path), path, locked, gen) == Ok(Released(t, t[path]))
    ensures t[path] == 0 && !locked ==>
      DeregisterCache(RegisterCache(t, path), path, locked, gen) == Ok(Released(t - {path}, 0))
  {
    assert RegisterCache(t, path)[path := t[path]] == t;
    assert RegisterCache(t, path) - {path} == t - {path};
  }

  /** Neither operation ever stores a negative count. */
  lemma CountsStayNonNegative(t: Table, path: string, locked: bool, gen: Generation)
    requires NonNegative(t)
    ensures NonNegative(RegisterCache(t, path))
    ensures DeregisterCache(t, path, locked, gen).Ok? ==> NonNegative(DeregisterCache(t, path, locked, gen).value.table)
  {
  }
}
