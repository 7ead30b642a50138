/** The older package's in-process Monitor: a process-wide dictionary from
 worker id to cache directory. It counts references by counting the ids that
 point at the same directory. The process-wide instance is the `monitor`
 field of the storage world. */
module Monitor {
  import opened Outcomes
  import opened Storage

  /** Worker id -> cache directory. */
  type Entries = map<string, string>

  /** A Python value handed to `__setitem__`: a `str`, or something else
      whose type prints as `typeName` (for example `<class 'int'>`). */
  datatype PyValue = PyStr(s: string) | PyOther(typeName: string)

  /** `__setitem__`: a non-string key, then a non-string value, raises
      MonitorError with the map untouched; otherwise the pair is stored. */
  function SetItem(m: Entries, key: PyValue, value: PyValue): (r: Result<Entries>)
    ensures r.Ok? <==> key.PyStr? && value.PyStr?
    ensures key.PyOther? ==> r == Err(MonitorError("key type is " + key.typeName + " instead of string"))
    ensures key.PyStr? && value.PyOther? ==>
      r == Err(MonitorError("value type is " + value.typeName + " instead of string"))
    ensures r.Ok? ==> r.value.Keys == m.Keys + {key.s} && r.value[key.s] == value.s
    ensures r.Ok? ==> forall k :: k in m && k != key.s ==> r.value[k] == m[k]
  {
    match key
    case PyOther(t) => Err(MonitorError("key type is " + t + " instead of string"))
    case PyStr(k) =>
      match value
      case PyOther(t) => Err(MonitorError("value type is " + t + " instead of string"))
      case PyStr(v) => Ok(m[k := v])
  }

  /** The ids whose entry points at `path`. */
  function Sharers(m: Entries, path: string): set<string> {
    set k | k in m && m[k] == path
  }

  /** The loop of `delete_cache` that counts the ids pointing at `path`. */
  method CountSharers(m: Entries, path: string) returns (count: nat)
    ensures count == |Sharers(m, path)|
  {
    count := 0;
    var todo := m.Keys;
    while todo != {}
      invariant todo <= m.Keys
      invariant count == |set k | k in m.Keys - todo && m[k] == path|
      decreases todo
    {
      var k :| k in todo;
      ghost var before := set j | j in m.Keys - todo && m[j] == path;
      if m[k] == path {
        assert (set j | j in m.Keys - (todo - {k}) && m[j] == path) == before + {k};
        count := count + 1;
      } else {
        assert (set j | j in m.Keys - (todo - {k}) && m[j] == path) == before;
      }
      todo := todo - {k};
    }
    assert m.Keys - todo == m.Keys;
  }

  /** The number of sharers `delete_cache` computes: zero unless the entry
      exists and its directory is on disk. */
  function SharerCount(m: Entries, dirs: set<string>, entryId: string): nat {
    if entryId in m && m[entryId] in dirs then |Sharers(m, m[entryId])| else 0
  }

  /** `entryId` is the only id pointing at its directory. */
  predicate SoleSharer(m: Entries, entryId: string) {
    entryId in m && Sharers(m, m[entryId]) == {entryId}
  }

  /** Counting one sharer is the same as being the only sharer. */
  lemma CountOneIsSole(m: Entries, entryId: string)
    requires entryId in m
    ensures |Sharers(m, m[entryId])| == 1 <==> SoleSharer(m, entryId)
  {
    var s := Sharers(m, m[entryId]);
    assert entryId in s;
    if |s| == 1 {
      assert s - {entryId} == {} by {
        assert |s - {entryId}| == |s| - 1;
      }
    }
  }

  /** The Monitor table and the filesystem after `delete_cache`. */
  datatype Deleted = Deleted(entries: Entries, fs: Fs)

  /** `delete_cache`: the directory of `entryId` is removed when the entry
      exists, the directory exists, no other id points at it, and the cache
      is unlocked; then the entry itself is dropped if present. An absent id
      changes nothing. */
  function DeleteCache(m: Entries, fs: Fs, entryId: string, locked: bool): (r: Deleted)
    ensures r.entries.Keys == m.Keys - {entryId}
    ensures forall k :: k in r.entries ==> r.entries[k] == m[k]
    ensures entryId in m && m[entryId] in fs.dirs && SoleSharer(m, entryId) && !locked ==>
      r.fs == RemoveTree(fs, m[entryId])
    ensures !(entryId in m && m[entryId] in fs.dirs && SoleSharer(m, entryId) && !locked) ==>
      r.fs == fs
  {
    var count := SharerCount(m, fs.dirs, entryId);
    var fs' := if count == 1 && !locked then RemoveTree(fs, m[entryId]) else fs;
    if entryId in m then
      CountOneIsSole(m, entryId);
      Deleted(m - {entryId}, fs')
    else
      Deleted(m, fs')
  }

  /** Deleting through an id the Monitor does not hold changes nothing. */
  lemma DeleteAbsentIsNoOp(m: Entries, fs: Fs, entryId: string, locked: bool)
    requires entryId !in m
    ensures DeleteCache(m, fs, entryId, locked) == Deleted(m, fs)
  {
    assert m - {entryId} == m;
  }

  /** Dropping one id removes it from the sharers of every path and leaves the other sharers in place. */
  lemma DeleteShrinksSharers(m: Entries, fs: Fs, entryId: string, locked: bool, path: string)
    ensures Sharers(DeleteCache(m, fs, entryId, locked).entries, path) == Sharers(m, path) - {entryId}
  {
  }
}
