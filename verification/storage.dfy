/** The storage every component works against, as abstract state: the
 register's counter table, the local filesystem, the object store, and the
 in-process Monitor table. The Redis, filesystem and object-storage clients
 are replaced by these values. */
module Storage {
  import opened Outcomes
  import opened Text
  import opened MetaDoc

  /** The local filesystem as the cache sees it: which directories exist, and
      the metadata documents held in files, by full path. */
  datatype Fs = Fs(dirs: set<string>, files: map<string, Doc>)

  /** An object address in the object store. */
  datatype ObjectKey = ObjectKey(bucket: string, key: string)

  /** An object body: a metadata document, or any other content. */
  datatype Blob = Document(doc: Doc) | Opaque

  type Objects = map<ObjectKey, Blob>

  /** Everything outside the worker objects themselves.
      - register: the Redis hash of reference counts, by cache path;
      - fs: the local filesystem;
      - objects: the object store;
      - monitor: the older package's process-wide id -> path table. */
  datatype World = World(
    register: map<string, int>,
    fs: Fs,
    objects: Objects,
    monitor: map<string, string>)

  /** The prefix shared by every path inside directory `p`. */
  function DirPrefix(p: string): string {
    if |p| > 0 && p[|p| - 1] == '/' then p else p + "/"
  }

  /** `x` is the directory `p` itself or lies beneath it. */
  predicate Under(x: string, p: string) {
    x == p || StartsWith(x, DirPrefix(p))
  }

  /** The filesystem once the tree rooted at `p` is gone: exactly the
      directories and files outside it remain, each file with its contents. */
  function RemoveTree(fs: Fs, p: string): (r: Fs)
    ensures p !in r.dirs
    ensures forall d :: d in r.dirs <==> d in fs.dirs && !Under(d, p)
    ensures forall f :: f in r.files <==> f in fs.files && !Under(f, p)
    ensures forall f :: f in r.files ==> r.files[f] == fs.files[f]
  {
    Fs(set d | d in fs.dirs && !Under(d, p),
       map f | f in fs.files && !Under(f, p) :: fs.files[f])
  }

  /** `shutil.rmtree(p)`: removes the tree, or raises FileNotFoundError, with
      nothing removed, when `p` is not a directory. */
  function RemoveDir(w: World, p: string): (r: Step<World>)
    ensures r.raised.None? <==> p in w.fs.dirs
    ensures r.raised.Some? ==> r == Step(w, Some(FileNotFound(p)))
    ensures r.raised.None? ==> r.state == w.(fs := RemoveTree(w.fs, p))
  {
    if p in w.fs.dirs then Step(w.(fs := RemoveTree(w.fs, p)), None)
    else Step(w, Some(FileNotFound(p)))
  }

  /** `json.load(open(path))`: the document in the file, or FileNotFoundError. */
  function ReadDoc(fs: Fs, path: string): (r: Result<Doc>)
    ensures r.Ok? <==> path in fs.files
    ensures r.Ok? ==> r.value == fs.files[path]
    ensures r.Err? ==> r.error == FileNotFound(path)
  {
    if path in fs.files then Ok(fs.files[path]) else Err(FileNotFound(path))
  }

  /** `json.dump(doc, open(path, "w"))`: the file now holds `doc`. */
  function WriteDoc(fs: Fs, path: string, doc: Doc): (r: Fs)
    ensures r.dirs == fs.dirs
    ensures r.files.Keys == fs.files.Keys + {path} && r.files[path] == doc
    ensures forall f :: f in fs.files && f != path ==> r.files[f] == fs.files[f]
  {
    fs.(files := fs.files[path := doc])
  }

  /** `bucket.objects.filter(Prefix=prefix).delete()`: every object of the
      bucket whose key starts with the prefix is gone; nothing else changes. */
  function DeletePrefix(objects: Objects, bucket: string, prefix: string): (r: Objects)
    ensures forall o :: o in r <==> o in objects && !(o.bucket == bucket && StartsWith(o.key, prefix))
    ensures forall o :: o in r ==> r[o] == objects[o]
  {
    map o | o in objects && !(o.bucket == bucket && StartsWith(o.key, prefix)) :: objects[o]
  }

  /** A name inside a directory path (one ending in "/") lies beneath it, so
      removing the directory's tree removes it. */
  lemma InsideDirectory(p: string, name: string)
    requires |p| > 0 && p[|p| - 1] == '/'
    ensures Under(p + name, p)
  {
    assert (p + name)[..|p|] == p;
  }

  /** Creating a fresh directory with one document in it and then removing
      its tree leaves the directories as they were and the document gone. */
  lemma RemoveFreshTree(fs: Fs, p: string, name: string, doc: Doc)
    requires |p| > 0 && p[|p| - 1] == '/'
    requires p !in fs.dirs && forall d :: d in fs.dirs ==> !Under(d, p)
    ensures var t := RemoveTree(WriteDoc(fs.(dirs := fs.dirs + {p}), p + name, doc), p);
      t.dirs == fs.dirs && p + name !in t.files
  {
    InsideDirectory(p, name);
  }
}
