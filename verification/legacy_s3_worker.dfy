/** The object-storage worker of the older package (`caching`): a fresh
 prefix `<cache_path><id>/` and an explicit `delete_directory`. It has no
 metadata, no attach, and no lock. The path splitting is the same as the
 current worker's. */
module LegacyS3Worker {
  import opened Text
  import opened Storage
  import S3Worker

  /** A worker: its id, its directory, the (never used) list of cached files,
      and its lock flag. */
  datatype LegacyS3Worker = LegacyS3Worker(id: string, baseDir: string, cachedFiles: seq<string>, locked: bool)

  /** `S3Worker.__init__`: the base directory is `cache_path + id + "/"`, the
      list of cached files is empty and the worker is unlocked. */
  function New(cachePath: string, id: string): (r: LegacyS3Worker)
    ensures r.id == id && r.baseDir == cachePath + id + "/"
    ensures r.cachedFiles == [] && !r.locked
  {
    LegacyS3Worker(id, cachePath + id + "/", [], false)
  }

  /** The prefix `delete_directory` filters on, as written: the base
      directory with the short name and the scheme removed. The bucket name
      stays at its front. */
  function PrefixAsWritten(w: LegacyS3Worker): (r: string)
    ensures |r| <= |w.baseDir|
  {
    var p := S3Worker.SplitS3Path(w.baseDir);
    RemoveAll(RemoveAll(w.baseDir, p.shortName), S3Worker.Scheme)
  }

  /** The prefix as evidently intended: the file name inside the bucket with
      the short name removed, so that it names the cache directory relative to
      the bucket. */
  function Prefix(w: LegacyS3Worker): (r: string)
    ensures |r| <= |S3Worker.SplitS3Path(w.baseDir).fileName|
  {
    var p := S3Worker.SplitS3Path(w.baseDir);
    RemoveAll(p.fileName, p.shortName)
  }

  /** `delete_directory` as written: every object of the bucket whose key
      starts with the as-written prefix is removed. */
  function DeleteDirectoryAsWritten(objects: Objects, w: LegacyS3Worker): (r: Objects)
    ensures var b := S3Worker.SplitS3Path(w.baseDir).bucket;
      forall o :: o in r <==> o in objects && !(o.bucket == b && StartsWith(o.key, PrefixAsWritten(w)))
  {
    DeletePrefix(objects, S3Worker.SplitS3Path(w.baseDir).bucket, PrefixAsWritten(w))
  }

  /** `delete_directory` with the intended prefix. */
  function DeleteDirectory(objects: Objects, w: LegacyS3Worker): (r: Objects)
    ensures var b := S3Worker.SplitS3Path(w.baseDir).bucket;
      forall o :: o in r <==> o in objects && !(o.bucket == b && StartsWith(o.key, Prefix(w)))
  {
    DeletePrefix(objects, S3Worker.SplitS3Path(w.baseDir).bucket, Prefix(w))
  }

  /** The stripped path of a directory ends in "/", as every base directory
      built from an `s3://` cache path does. */
  predicate DirectoryPath(baseDir: string) {
    var path := RemoveAll(baseDir, S3Worker.Scheme);
    |path| > 0 && path[|path| - 1] == '/'
  }

  /** For a directory path the short name is empty. */
  lemma ShortNameOfDirectory(baseDir: string)
    requires DirectoryPath(baseDir)
    ensures S3Worker.SplitS3Path(baseDir).shortName == ""
    ensures '/' in RemoveAll(baseDir, S3Worker.Scheme)
  {
    LastSegmentOfTrailing(RemoveAll(baseDir, S3Worker.Scheme), '/');
  }

  /** For a directory path, the as-written prefix is the intended prefix with
      the bucket name and a "/" in front of it. */
  lemma PrefixAsWrittenKeepsBucket(w: LegacyS3Worker)
    requires DirectoryPath(w.baseDir)
    ensures var p := S3Worker.SplitS3Path(w.baseDir);
      PrefixAsWritten(w) == p.bucket + "/" + Prefix(w)
  {
    ShortNameOfDirectory(w.baseDir);
  }

  /** For a directory path the intended prefix is the file name, so the
      intended deletion is exactly the current worker's `delete_directory` on
      the same directory, which removes its metadata object. */
  lemma DeleteDirectoryAgreesWithCurrent(objects: Objects, w: LegacyS3Worker)
    requires DirectoryPath(w.baseDir)
    ensures Prefix(w) == S3Worker.SplitS3Path(w.baseDir).fileName
    ensures DeleteDirectory(objects, w) == S3Worker.DeleteDirectory(objects, S3Worker.S3Worker(w.id, w.baseDir, w.locked))
  {
    ShortNameOfDirectory(w.baseDir);
    var r1 := DeleteDirectory(objects, w);
    var r2 := S3Worker.DeleteDirectory(objects, S3Worker.S3Worker(w.id, w.baseDir, w.locked));
    assert forall o :: o in r1 <==> o in r2;
  }

  /** For a cache directory `s3://<bucket>/<dir>`, as written an object
      under `<dir>` survives the deletion unless its key also happens to start
      with `<bucket>/<dir>`; with the intended prefix it is removed. */
  lemma DeletionAsWrittenMisses(w: LegacyS3Worker, bucket: string, dir: string, key: string)
    requires '/' !in bucket && ':' !in bucket + "/" + dir
    requires |dir| > 0 && dir[|dir| - 1] == '/'
    requires w.baseDir == S3Worker.Scheme + (bucket + "/" + dir)
    requires StartsWith(key, dir)
    ensures PrefixAsWritten(w) == bucket + "/" + dir && Prefix(w) == dir
    ensures ObjectKey(bucket, key) in DeleteDirectoryAsWritten(map[ObjectKey(bucket, key) := Opaque], w)
      <==> !StartsWith(key, bucket + "/" + dir)
    ensures ObjectKey(bucket, key) !in DeleteDirectory(map[ObjectKey(bucket, key) := Opaque], w)
  {
    var rest := bucket + "/" + dir;
    S3Worker.StripScheme(rest);
    assert DirectoryPath(w.baseDir);
    var p := S3Worker.SplitS3Path(w.baseDir);
    PrefixAsWrittenKeepsBucket(w);
    DeleteDirectoryAgreesWithCurrent(map[ObjectKey(bucket, key) := Opaque], w);
    CutAtFirst(p.bucket, p.fileName, bucket, dir, '/');
  }

  /** The cache `s3://bucket/caches/abc/` holding `caches/abc/meta.json`: as
      written, the deletion filters on `bucket/caches/abc/` and the object
      survives; with the intended prefix it is removed. */
  lemma DeleteMissesCacheObjects(w: LegacyS3Worker, bucket: string, dir: string, key: string)
    requires bucket == "bucket" && dir == "caches/abc/" && key == "caches/abc/meta.json"
    requires w.baseDir == S3Worker.Scheme + (bucket + "/" + dir)
    ensures PrefixAsWritten(w) == bucket + "/" + dir
    ensures ObjectKey(bucket, key) in DeleteDirectoryAsWritten(map[ObjectKey(bucket, key) := Opaque], w)
    ensures ObjectKey(bucket, key) !in DeleteDirectory(map[ObjectKey(bucket, key) := Opaque], w)
  {
    var rest := bucket + "/" + dir;
    assert rest == "bucket/caches/abc/";
    assert ':' !in rest;
    assert StartsWith(key, dir) by { assert key[..|dir|] == dir; }
    assert !StartsWith(key, rest) by { assert key[0] != rest[0]; }
    DeletionAsWrittenMisses(w, bucket, dir, key);
  }
}
