/** The object-storage worker of the current package (`monolithcaching`):
 owns the prefix `<cache_path><id>/` of an `s3://bucket/...` location and
 keeps its metadata in the object `meta.json` under that prefix. There is no
 register and no finaliser: storage is removed only by an explicit
 `delete_directory`. The storage client is replaced by the object map. */
module S3Worker {
  import opened Outcomes
  import opened Text
  import opened MetaDoc
  import opened Storage

  const Scheme: string := "s3://"

  /** The three parts `_split_s3_path` returns. */
  datatype S3Path = S3Path(bucket: string, fileName: string, shortName: string)

  /** `_split_s3_path`: drop every "s3://", split on "/", and return the first
      segment (bucket), the rest rejoined by "/" (file name), and the last
      segment (short name). With a "/" present, bucket, "/" and file name
      spell the stripped path back and the file name ends with the short
      name; with none, bucket and short name are the whole stripped path. */
  function SplitS3Path(storagePath: string): (r: S3Path)
    ensures '/' !in r.bucket && '/' !in r.shortName
    ensures var path := RemoveAll(storagePath, Scheme);
      && ('/' in path ==> r.bucket + "/" + r.fileName == path && EndsWith(r.fileName, r.shortName))
      && ('/' !in path ==> r.bucket == path && r.fileName == "" && r.shortName == path)
      && r.shortName == LastSegment(path, '/')
  {
    var path := RemoveAll(storagePath, Scheme);
    var parts := Split(path, '/');
    JoinSplit(path, '/');
    SplitSingleIff(path, '/');
    JoinEndsWithLast(parts[1..], '/');
    S3Path(parts[0], Join(parts[1..], '/'), parts[|parts| - 1])
  }

  /** `extract_id` as written: the text after the last "/". It holds no "/",
      ends the input, is preceded by "/" unless it is the whole input, and is
      empty whenever the input ends in "/". */
  function ExtractIdAsWritten(storagePath: string): (r: string)
    ensures '/' !in r
    ensures EndsWith(storagePath, r)
    ensures |r| < |storagePath| ==> storagePath[|storagePath| - |r| - 1] == '/'
    ensures |storagePath| > 0 && storagePath[|storagePath| - 1] == '/' ==> r == ""
  {
    LastSegmentIsSuffix(storagePath, '/');
    LastSegmentOfTrailing(storagePath, '/');
    LastSegment(storagePath, '/')
  }

  /** One trailing "/" removed, as a cache path carries one. */
  function TrimSlash(s: string): string {
    if |s| > 0 && s[|s| - 1] == '/' then s[..|s| - 1] else s
  }

  /** `extract_id` as evidently intended: the last segment of the path once
      its trailing "/" is set aside, so that a worker's own base directory
      yields its id. It agrees with the code for inputs without a trailing "/". */
  function ExtractId(storagePath: string): (r: string)
    ensures '/' !in r
    ensures |storagePath| == 0 || storagePath[|storagePath| - 1] != '/' ==> r == ExtractIdAsWritten(storagePath)
  {
    LastSegmentIsSuffix(TrimSlash(storagePath), '/');
    LastSegment(TrimSlash(storagePath), '/')
  }

  /** The intended extraction inverts the base-directory construction. */
  lemma ExtractIdOfBaseDir(cachePath: string, id: string)
    requires |cachePath| == 0 || cachePath[|cachePath| - 1] == '/'
    requires '/' !in id
    ensures ExtractId(cachePath + id + "/") == id
  {
    assert TrimSlash(cachePath + id + "/") == cachePath + id;
    LastSegmentOfTail(cachePath, id, '/');
  }

  /** As written, the id of any base directory (which ends in "/") is empty. */
  lemma ExtractIdAsWrittenOfBaseDir(cachePath: string, id: string)
    ensures ExtractIdAsWritten(cachePath + id + "/") == ""
  {
  }

  datatype S3Worker = S3Worker(id: string, baseDir: string, locked: bool)

  /** The object store and the worker after construction. */
  datatype Built = Built(objects: Objects, worker: S3Worker)

  /** Where a worker keeps its metadata: `file_name + "meta.json"` in its bucket. */
  function MetaKey(w: S3Worker): ObjectKey {
    var p := SplitS3Path(w.baseDir);
    ObjectKey(p.bucket, p.fileName + MetaName)
  }

  /** `create_meta`: the metadata object becomes the empty document; no other object changes. */
  function CreateMeta(objects: Objects, w: S3Worker): (r: Objects)
    ensures MetaKey(w) in r && r[MetaKey(w)] == Document(EmptyDoc)
    ensures r.Keys == objects.Keys + {MetaKey(w)}
    ensures forall o :: o in objects && o != MetaKey(w) ==> r[o] == objects[o]
  {
    objects[MetaKey(w) := Document(EmptyDoc)]
  }

  /** The rest of `__init__` once the id is chosen: the base directory is
      `cache_path + id + "/"`, the worker starts unlocked, and a fresh cache
      gets its empty metadata object. */
  function Build(objects: Objects, cachePath: string, id: string, isNew: bool): (r: Built)
    ensures r.worker.id == id && r.worker.baseDir == cachePath + id + "/" && !r.worker.locked
    ensures isNew ==> r.objects == CreateMeta(objects, r.worker)
    ensures !isNew ==> r.objects == objects
  {
    var w := S3Worker(id, cachePath + id + "/", false);
    Built(if isNew then CreateMeta(objects, w) else objects, w)
  }

  /** `S3Worker.__init__` with the intended id extraction: a fresh worker
      uses the generated id and writes `{}`; an attach takes the id from the
      existing path and writes nothing. */
  function New(objects: Objects, cachePath: string, existing: Option<string>, freshId: string): (r: Built)
    ensures existing.None? ==> r == Build(objects, cachePath, freshId, true)
    ensures existing.Some? ==> r == Build(objects, cachePath, ExtractId(existing.value), false)
  {
    match existing
    case None => Build(objects, cachePath, freshId, true)
    case Some(e) => Build(objects, cachePath, ExtractId(e), false)
  }

  /** `S3Worker.__init__` exactly as written, with `extract_id` as written. */
  function NewAsWritten(objects: Objects, cachePath: string, existing: Option<string>, freshId: string): (r: Built)
    ensures existing.None? ==> r == New(objects, cachePath, existing, freshId)
    ensures existing.Some? ==> r == Build(objects, cachePath, ExtractIdAsWritten(existing.value), false)
  {
    match existing
    case None => Build(objects, cachePath, freshId, true)
    case Some(e) => Build(objects, cachePath, ExtractIdAsWritten(e), false)
  }

  /** Reattaching to a worker's own base directory finds the same directory
      again: with the intended extraction the attached worker has the same
      id and base directory and the store is untouched. */
  lemma AttachToOwnBaseDir(objects: Objects, cachePath: string, freshId: string)
    requires |cachePath| == 0 || cachePath[|cachePath| - 1] == '/'
    requires '/' !in freshId
    ensures var first := New(objects, cachePath, None, freshId);
      var again := New(first.objects, cachePath, Some(first.worker.baseDir), "unused");
      again.worker == first.worker && again.objects == first.objects
  {
    ExtractIdOfBaseDir(cachePath, freshId);
  }

  /** As written, reattaching to a base directory points at `cache_path + "/"` instead. */
  lemma AttachToOwnBaseDirAsWritten(objects: Objects, cachePath: string, freshId: string)
    ensures var first := NewAsWritten(objects, cachePath, None, freshId);
      var again := NewAsWritten(first.objects, cachePath, Some(first.worker.baseDir), "unused");
      again.worker.id == "" && again.worker.baseDir == cachePath + "/"
      && (again.worker.baseDir == first.worker.baseDir <==> freshId == "")
  {
    var first := NewAsWritten(objects, cachePath, None, freshId);
    ExtractIdAsWrittenOfBaseDir(cachePath, freshId);
    if freshId != "" {
      assert |cachePath + freshId + "/"| != |cachePath + "" + "/"|;
    } else {
      assert cachePath + freshId + "/" == cachePath + "/";
    }
  }

  /** `meta`: the document stored in the metadata object. A missing object is
      the service's NoSuchKey error; a body that is not a document does not
      parse. */
  function Meta(objects: Objects, w: S3Worker): (r: Result<Doc>)
    ensures r.Ok? <==> MetaKey(w) in objects && objects[MetaKey(w)].Document?
    ensures r.Ok? ==> r.value == objects[MetaKey(w)].doc
    ensures MetaKey(w) !in objects ==> r == Err(ClientError("NoSuchKey"))
  {
    var k := MetaKey(w);
    if k !in objects then Err(ClientError("NoSuchKey"))
    else match objects[k]
      case Document(d) => Ok(d)
      case Opaque => Err(Unreadable(k.bucket, k.key))
  }

  /** `insert_meta`: reads the whole document, sets one key, writes it back.
      Read back, the document has the new value at that key and every other
      key unchanged; no other object changes. A failed read writes nothing. */
  function InsertMeta(objects: Objects, w: S3Worker, key: string, value: Value): (r: Result<Objects>)
    ensures r.Ok? <==> Meta(objects, w).Ok?
    ensures r.Err? ==> r.error == Meta(objects, w).error
    ensures r.Ok? ==> Meta(r.value, w) == Ok(Insert(Meta(objects, w).value, key, value))
    ensures r.Ok? ==> r.value.Keys == objects.Keys
    ensures r.Ok? ==> forall o :: o in objects && o != MetaKey(w) ==> r.value[o] == objects[o]
  {
    var d :- Meta(objects, w);
    Ok(objects[MetaKey(w) := Document(Insert(d, key, value))])
  }

  /** What `ast.literal_eval` raises on JSON it cannot read as a Python literal. */
  const MalformedLiteral: Error := ValueError("malformed node or string")

  /** `meta` as written: the body, written by `json.dumps`, is parsed with
      `ast.literal_eval`, which reads it only when every value in it is a
      Python literal as well, and raises ValueError otherwise. */
  function MetaAsWritten(objects: Objects, w: S3Worker): (r: Result<Doc>)
    ensures Meta(objects, w).Err? ==> r == Meta(objects, w)
    ensures Meta(objects, w).Ok? ==> (r.Ok? <==> DocLiteralSafe(Meta(objects, w).value))
    ensures r.Ok? ==> r == Meta(objects, w)
    ensures Meta(objects, w).Ok? && r.Err? ==> r.error == MalformedLiteral
  {
    var d :- Meta(objects, w);
    if DocLiteralSafe(d) then Ok(d) else Err(MalformedLiteral)
  }

  /** `insert_meta` as written: it reads through the as-written `meta`, so
      it raises whenever that does; otherwise it writes what the intended
      `insert_meta` writes. */
  function InsertMetaAsWritten(objects: Objects, w: S3Worker, key: string, value: Value): (r: Result<Objects>)
    ensures r.Ok? <==> MetaAsWritten(objects, w).Ok?
    ensures r.Err? ==> r.error == MetaAsWritten(objects, w).error
    ensures r.Ok? ==> r == InsertMeta(objects, w, key, value)
  {
    var d :- MetaAsWritten(objects, w);
    Ok(objects[MetaKey(w) := Document(Insert(d, key, value))])
  }

  /** As written, a value inserted into readable metadata can be read back
      exactly when it is itself literal-safe; the intended reader always
      reads back the updated document. */
  lemma InsertThenReadAsWritten(objects: Objects, w: S3Worker, key: string, value: Value)
    requires MetaAsWritten(objects, w).Ok?
    ensures InsertMetaAsWritten(objects, w, key, value).Ok?
    ensures var after := InsertMetaAsWritten(objects, w, key, value).value;
      && Meta(after, w) == Ok(Insert(MetaAsWritten(objects, w).value, key, value))
      && (MetaAsWritten(after, w).Ok? <==> LiteralSafe(value))
  {
    InsertLiteralSafe(MetaAsWritten(objects, w).value, key, value);
  }

  /** Recording a lock flag in a fresh cache's metadata, as written: the
      write succeeds, but from then on `meta` and every later `insert_meta`
      raise ValueError, because `json.dumps` wrote `true` or `false`. The
      intended reader reads the flag back. */
  lemma LockFlagUnreadableAsWritten(objects: Objects, cachePath: string, freshId: string, flag: bool)
    ensures var b := New(objects, cachePath, None, freshId);
      var flagged := InsertMetaAsWritten(b.objects, b.worker, LockedKey, Bool(flag));
      && flagged.Ok?
      && MetaAsWritten(flagged.value, b.worker) == Err(MalformedLiteral)
      && InsertMetaAsWritten(flagged.value, b.worker, LockedKey, Bool(!flag)) == Err(MalformedLiteral)
      && Meta(flagged.value, b.worker) == Ok(map[LockedKey := Bool(flag)])
  {
    var b := New(objects, cachePath, None, freshId);
    InsertThenReadAsWritten(b.objects, b.worker, LockedKey, Bool(flag));
  }

  /** `delete_directory`: removes every object of the bucket whose key starts
      with the split file name; objects elsewhere stay. */
  function DeleteDirectory(objects: Objects, w: S3Worker): (r: Objects)
    ensures var p := SplitS3Path(w.baseDir);
      forall o :: o in r <==> o in objects && !(o.bucket == p.bucket && StartsWith(o.key, p.fileName))
    ensures MetaKey(w) !in r
  {
    var p := SplitS3Path(w.baseDir);
    assert StartsWith(p.fileName + MetaName, p.fileName);
    DeletePrefix(objects, p.bucket, p.fileName)
  }

  /** `check_file`: probes the object `file_name + file`. `fault` is an error
      code the service answers with instead of looking (None: it looks). A
      missing object answers "404", which is a plain False; any other code
      propagates as an error. */
  function CheckFile(objects: Objects, w: S3Worker, file: string, fault: Option<string>): (r: Result<bool>)
    ensures var p := SplitS3Path(w.baseDir);
      fault.None? ==> r == Ok(ObjectKey(p.bucket, p.fileName + file) in objects)
    ensures r.Err? <==> fault.Some? && fault.value != "404"
    ensures r.Err? ==> r.error == ClientError(fault.value)
    ensures fault == Some("404") ==> r == Ok(false)
  {
    var p := SplitS3Path(w.baseDir);
    var code :=
      if fault.Some? then fault
      else if ObjectKey(p.bucket, p.fileName + file) in objects then None
      else Some("404");
    match code
    case None => Ok(true)
    case Some(c) => if c == "404" then Ok(false) else Err(ClientError(c))
  }

  /** `lock`: a placeholder; the worker is unchanged, so it is never locked. */
  function Lock(w: S3Worker): (r: S3Worker)
    ensures r == w
  {
    w
  }

  /** A fresh cache's metadata is found by `check_file`, and is gone after
      `delete_directory`. */
  lemma CreateThenDeleteMeta(objects: Objects, cachePath: string, freshId: string)
    ensures var b := New(objects, cachePath, None, freshId);
      && CheckFile(b.objects, b.worker, MetaName, None) == Ok(true)
      && Meta(b.objects, b.worker) == Ok(EmptyDoc)
      && CheckFile(DeleteDirectory(b.objects, b.worker), b.worker, MetaName, None) == Ok(false)
  {
  }

  /** Stripping the scheme from a path that has no other ':' leaves the rest. */
  lemma StripScheme(rest: string)
    requires ':' !in rest
    ensures RemoveAll(Scheme + rest, Scheme) == rest
  {
    RemoveAllLeading(Scheme, rest);
    assert Scheme[2] == ':';
    RemoveAllAbsent(rest, Scheme, 2);
  }

  /** The split of a path is read off the pieces of its stripped form. */
  lemma SplitOfPieces(storagePath: string, parts: seq<string>)
    requires Split(RemoveAll(storagePath, Scheme), '/') == parts
    ensures SplitS3Path(storagePath) == S3Path(parts[0], Join(parts[1..], '/'), parts[|parts| - 1])
  {
  }

  /** Splitting inverts building a path from pieces: for `s3://` followed
      by at least two pieces without "/" or ":" joined by "/", the bucket is
      the first piece, the file name the rest joined back, and the short name
      the last piece. */
  lemma SplitOfJoined(parts: seq<string>)
    requires |parts| >= 2
    requires forall i :: 0 <= i < |parts| ==> '/' !in parts[i] && ':' !in parts[i]
    ensures SplitS3Path(Scheme + Join(parts, '/')) == S3Path(parts[0], Join(parts[1..], '/'), parts[|parts| - 1])
  {
    JoinAvoids(parts, '/', ':');
    var path := Scheme + Join(parts, '/');
    StripScheme(Join(parts, '/'));
    SplitJoin(parts, '/');
    SplitOfPieces(path, parts);
  }
}
