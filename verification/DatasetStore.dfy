/** The worker's download, and the round trip through the bucket. */
module DatasetStore {
  import opened Wrappers
  import opened Paths
  import opened Store
  import opened Validation
  import opened ObjectStore
  import opened DatasetLayout
  import opened Clients

  predicate IsSingleFile(path: string) {
    Suffix(StripSlashes(path)) != []
  }

  /** What a download leaves below the local directory. */
  datatype Fetched = OneFile(name: string, content: string) | Tree(files: map<string, string>)

  function Prefix(path: string): string {
    StripSlashes(path) + "/"
  }

  /** The objects below the prefix whose keys do not end in a slash. */
  function Below(objects: Objects, prefix: string): set<string> {
    set k | k in objects && prefix <= k && !EndsInSlash(k)
  }

  function Relative(prefix: string, key: string): string {
    if |prefix| <= |key| then key[|prefix|..] else []
  }

  /** The files a prefix download writes, by relative path. */
  ghost predicate IsTreeOf(files: map<string, string>, objects: Objects, prefix: string) {
    && (forall k :: k in Below(objects, prefix) ==>
          Relative(prefix, k) in files && files[Relative(prefix, k)] == objects[k])
    && (forall r :: r in files ==> prefix + r in Below(objects, prefix))
  }

  /** What a download of `path` from these objects may answer. */
  ghost predicate DownloadGives(objects: Objects, path: string, r: Result<Fetched, string>) {
    if IsSingleFile(path) then
      r == if path in objects then Ok(OneFile(Name(path), objects[path])) else Err("failed to download dataset " + path)
    else
      && (r.Ok? <==> Below(objects, Prefix(path)) != {})
      && (r.Ok? ==> r.value.Tree? && IsTreeOf(r.value.files, objects, Prefix(path)))
  }

  /** The S3 call of a download that raises: the listing, or the fetch of one object. */
  datatype S3Fault = Listing | Fetch(key: string)

  /** The download makes that call. */
  predicate Strikes(objects: Objects, path: string, fault: Option<S3Fault>) {
    match fault
    case None => false
    case Some(Listing) => !IsSingleFile(path)
    case Some(Fetch(key)) => if IsSingleFile(path) then key == path else key in Below(objects, Prefix(path))
  }

  class GarageDatasetStore {
    const world: World

    constructor (world: World)
      ensures this.world == world
    {
      this.world := world;
    }

    method Download(path: string, fault: Option<S3Fault>) returns (r: Result<Fetched, string>)
      ensures Strikes(world.objects, path, fault) ==> r.Err?
      ensures !Strikes(world.objects, path, fault) ==> DownloadGives(world.objects, path, r)
    {
      if IsSingleFile(path) {
        r := DownloadFile(path, fault);
      } else {
        r := DownloadPrefix(path, fault);
      }
    }

    method DownloadFile(key: string, fault: Option<S3Fault>) returns (r: Result<Fetched, string>)
      ensures r == if key in world.objects && fault != Some(Fetch(key)) then Ok(OneFile(Name(key), world.objects[key]))
                   else Err("failed to download dataset " + key)
    {
      if key !in world.objects || fault == Some(Fetch(key)) {
        return Err("failed to download dataset " + key);
      }
      return Ok(OneFile(Name(key), world.objects[key]));
    }

    method DownloadPrefix(path: string, fault: Option<S3Fault>) returns (r: Result<Fetched, string>)
      ensures r.Ok? <==> && Below(world.objects, Prefix(path)) != {} && fault != Some(Listing)
                         && (fault.Some? && fault.value.Fetch? ==> fault.value.key !in Below(world.objects, Prefix(path)))
      ensures r.Ok? ==> r.value.Tree? && IsTreeOf(r.value.files, world.objects, Prefix(path))
    {
      var prefix := StripSlashes(path) + "/";
      var listed := ListKeys(prefix, fault == Some(Listing));
      if listed.Err? { return Err(listed.error); }
      var keys := listed.value;
      if keys == [] {
        return Err("no dataset objects found under " + prefix);
      }
      var files := FetchAll(keys, prefix, fault);
      return if files.Some? then Ok(Tree(files.value)) else Err("failed to download an object under " + prefix);
    }

    /** The loop over the listed keys. */
    method FetchAll(keys: seq<string>, prefix: string, fault: Option<S3Fault>) returns (r: Option<map<string, string>>)
      requires forall k :: k in keys ==> k in Below(world.objects, prefix)
      ensures r.None? <==> fault.Some? && fault.value.Fetch? && fault.value.key in keys
      ensures r.Some? ==> forall k :: k in keys && k in world.objects ==>
                Relative(prefix, k) in r.value && r.value[Relative(prefix, k)] == world.objects[k]
      ensures r.Some? ==> forall f :: f in r.value ==> prefix + f in keys
    {
      var files: map<string, string> := map[];
      for i := 0 to |keys|
        invariant forall k :: k in keys[..i] ==> fault != Some(Fetch(k))
        invariant forall k :: k in keys[..i] && k in world.objects ==>
                    Relative(prefix, k) in files && files[Relative(prefix, k)] == world.objects[k]
        invariant forall f :: f in files ==> prefix + f in keys[..i]
      {
        var key := keys[i];
        assert key in Below(world.objects, prefix);
        if fault == Some(Fetch(key)) { return None; }
        var relative := key[|prefix|..];
        assert prefix + relative == key;
        files := files[relative := world.objects[key]];
        forall k | k in keys[..i + 1] && k in world.objects
          ensures Relative(prefix, k) in files && files[Relative(prefix, k)] == world.objects[k]
        {
          assert k in keys && k in Below(world.objects, prefix) && prefix + Relative(prefix, k) == k;
          assert k == key || k in keys[..i];
        }
      }
      assert keys[..|keys|] == keys;
      return Some(files);
    }

    /** The listing pages through the bucket in some order. */
    method ListKeys(prefix: string, raises: bool) returns (r: Result<seq<string>, string>)
      ensures r.Err? <==> raises
      ensures r.Ok? ==> forall k :: k in r.value <==> k in Below(world.objects, prefix)
      ensures r.Ok? ==> forall k :: k in r.value <==> k in world.objects && prefix <= k && !(k != [] && k[|k| - 1] == '/')
      ensures r.Ok? ==> (r.value == [] <==> Below(world.objects, prefix) == {})
    {
      if raises {
        return Err("failed to list dataset prefix " + prefix);
      }
      var keys: seq<string> := [];
      var rest := world.objects.Keys;
      while rest != {}
        invariant rest <= world.objects.Keys
        invariant forall k :: k in keys <==> k in Below(world.objects, prefix) && k !in rest
        decreases rest
      {
        var key :| key in rest;
        if prefix <= key && !EndsInSlash(key) {
          keys := keys + [key];
        }
        rest := rest - {key};
      }
      if k :| k in Below(world.objects, prefix) {
        assert k in keys;
      }
      if keys != [] {
        assert keys[0] in Below(world.objects, prefix);
      }
      return Ok(keys);
    }
  }

  lemma SameBelowSameTree(o: Objects, o': Objects, prefix: string, files: map<string, string>)
    requires Below(o, prefix) == Below(o', prefix) && forall k :: k in Below(o, prefix) ==> o[k] == o'[k]
    ensures IsTreeOf(files, o, prefix) <==> IsTreeOf(files, o', prefix)
  {}

  /** Directory markers, objects whose keys end in a slash, make no difference to a
      prefix download. */
  lemma MarkersAreSkipped(objects: Objects, path: string, marker: string, content: string, r: Result<Fetched, string>)
    requires marker != [] && marker[|marker| - 1] == '/' && !IsSingleFile(path)
    ensures DownloadGives(objects[marker := content], path, r) <==> DownloadGives(objects, path, r)
  {
    var prefix := Prefix(path);
    assert Below(objects[marker := content], prefix) == Below(objects, prefix);
    if r.Ok? && r.value.Tree? {
      SameBelowSameTree(objects[marker := content], objects, prefix, r.value.files);
    }
  }

  // -------------------------------------------------------- round trip

  /** The storage path of a directory is read back as that prefix. */
  lemma DirectoryPathIsPrefix(d: Dataset)
    requires Valid(d) && d.local.Directory?
    ensures !IsSingleFile(StoragePath(d)) && Prefix(StoragePath(d)) == StoragePath(d)
  {
    var b := Base(d);
    assert b == ("datasets/" + d.name) + "/" + d.version;
    assert b[|b| - 1] == d.version[|d.version| - 1];
    StripNothing(b);
    assert (b + "/")[..|b + "/"| - 1] == b;
    assert StripSlashes(b + "/") == b;
    NameOfComponent("datasets/" + d.name, d.version);
  }

  /** The object name of a single file. */
  function FileName(d: Dataset): string
    requires d.local.SingleFile?
  {
    d.version + d.local.suffix
  }

  lemma FileNameFacts(d: Dataset)
    requires Valid(d) && d.local.SingleFile?
    ensures NoSlash(FileName(d)) && FileName(d) != [] && FileName(d) != "."
    ensures Name(FileName(d)) == FileName(d) && Name(StoragePath(d)) == FileName(d)
    ensures StripSlashes(StoragePath(d)) == StoragePath(d)
  {
    var n := FileName(d);
    var k := StoragePath(d);
    assert n[0] == d.version[0] && d.version[0] != '.';
    assert k == ("datasets/" + d.name) + "/" + n;
    NameOfComponent("datasets/" + d.name, n);
    assert k[|k| - 1] == n[|n| - 1];
    StripNothing(k);
  }

  lemma SuffixFrom(path: string, d: Dataset)
    requires Valid(d) && d.local.SingleFile? && Name(path) == FileName(d)
    ensures Suffix(path) == d.local.suffix
  {
    if d.local.suffix == [] {
      assert FileName(d) == d.version;
      NoSuffix(path);
    } else {
      WithSuffix(path, d.version, d.local.suffix);
    }
  }

  lemma WithSuffix(path: string, stem: string, suffix: string)
    requires stem != [] && IsSuffix(suffix) && suffix != [] && Name(path) == stem + suffix
    ensures Suffix(path) == suffix
  {
    assert suffix == "." + suffix[1..];
    assert stem + suffix == stem + "." + suffix[1..];
    SuffixOfName(path, stem, suffix[1..]);
  }

  /** The storage path of a single file names it exactly when it has a suffix. */
  lemma FilePathIsFile(d: Dataset)
    requires Valid(d) && d.local.SingleFile?
    ensures IsSingleFile(StoragePath(d)) <==> d.local.suffix != []
    ensures Name(StoragePath(d)) == FileName(d)
  {
    FileNameFacts(d);
    SuffixFrom(StoragePath(d), d);
  }

  /** Nothing below the directory's prefix is foreign to it. */
  ghost predicate OwnPrefix(objects: Objects, d: Dataset) {
    forall k :: k in Below(objects, StoragePath(d)) ==> exists f :: IsKey(d, f, k)
  }

  lemma StoredAt(objects: Objects, d: Dataset, f: File)
    requires AllStored(objects, d) && f in Puts(d)
    ensures StoragePath(d) + f.path in objects && objects[StoragePath(d) + f.path] == f.content
  {
    var i :| 0 <= i < |Puts(d)| && Puts(d)[i] == f;
  }

  lemma UploadStores(objects: Objects, d: Dataset)
    requires Valid(d)
    ensures AllStored(Uploaded(objects, d), d)
  {
    PutAllFacts(objects, StoragePath(d), Puts(d));
    assert forall i :: 0 <= i < |Puts(d)| ==> Puts(d)[i] in Puts(d);
  }

  lemma OwnFilesAreBelow(objects: Objects, d: Dataset, f: File)
    requires Valid(d) && d.local.Directory? && AllStored(objects, d) && f in d.local.files
    ensures StoragePath(d) + f.path in Below(objects, StoragePath(d))
    ensures objects[StoragePath(d) + f.path] == f.content
  {
    var k := StoragePath(d) + f.path;
    StoredAt(objects, d, f);
    assert k[|k| - 1] == f.path[|f.path| - 1];
  }

  lemma UploadKeepsOwnPrefix(objects: Objects, d: Dataset)
    requires Valid(d) && d.local.Directory? && OwnPrefix(objects, d)
    ensures OwnPrefix(Uploaded(objects, d), d)
  {
    var o := Uploaded(objects, d);
    PutAllFacts(objects, StoragePath(d), d.local.files);
    forall k | k in Below(o, StoragePath(d)) ensures exists f :: IsKey(d, f, k) {
      if k in objects {
        assert k in Below(objects, StoragePath(d));
      } else {
        var f :| f in d.local.files && k == StoragePath(d) + f.path;
        assert IsKey(d, f, k);
      }
    }
  }

  /** The answer is a copy of the files, path by path, or an error if there are none. */
  ghost predicate GivesBack(files: seq<File>, r: Result<Fetched, string>) {
    && (r.Ok? <==> files != [])
    && (r.Ok? ==> r.value.Tree?
                  && (forall f :: f in files ==> f.path in r.value.files && r.value.files[f.path] == f.content)
                  && (forall p :: p in r.value.files ==> exists f :: f in files && f.path == p))
  }

  lemma OwnPrefixComesBack(objects: Objects, d: Dataset, r: Result<Fetched, string>)
    requires Valid(d) && d.local.Directory? && AllStored(objects, d) && OwnPrefix(objects, d)
    ensures DownloadGives(objects, StoragePath(d), r) ==> GivesBack(d.local.files, r)
  {
    if DownloadGives(objects, StoragePath(d), r) {
      var prefix := StoragePath(d);
      DirectoryPathIsPrefix(d);
      if d.local.files != [] { OwnFilesAreBelow(objects, d, d.local.files[0]); }
      if k :| k in Below(objects, prefix) {
        var f :| IsKey(d, f, k);
      }
      if r.Ok? {
        forall f | f in d.local.files ensures f.path in r.value.files && r.value.files[f.path] == f.content {
          OwnFilesAreBelow(objects, d, f);
          assert Relative(prefix, prefix + f.path) == f.path;
        }
        forall p | p in r.value.files ensures exists f :: f in d.local.files && f.path == p {
          var f :| IsKey(d, f, prefix + p);
          DropHead(prefix, p, f.path);
        }
      }
    }
  }

  lemma ForeignFileShows(objects: Objects, d: Dataset, r: Result<Fetched, string>)
    requires Valid(d) && d.local.Directory? && !OwnPrefix(objects, d)
    ensures DownloadGives(objects, StoragePath(d), r) ==> !GivesBack(d.local.files, r)
  {
    var prefix := StoragePath(d);
    DirectoryPathIsPrefix(d);
    var k :| k in Below(objects, prefix) && forall f :: !IsKey(d, f, k);
    var rest := Relative(prefix, k);
    assert k == prefix + rest;
    forall f | f in d.local.files ensures f.path != rest {
      assert !IsKey(d, f, k);
    }
  }

  /** A directory whose objects are in the bucket is given back path by path, or
      refused if it has no files, exactly when nothing foreign lies below its prefix. */
  lemma StoredDirectoryComesBack(objects: Objects, d: Dataset, r: Result<Fetched, string>)
    requires Valid(d) && d.local.Directory? && AllStored(objects, d)
    ensures DownloadGives(objects, StoragePath(d), r) ==> (GivesBack(d.local.files, r) <==> OwnPrefix(objects, d))
  {
    if OwnPrefix(objects, d) {
      OwnPrefixComesBack(objects, d, r);
    } else {
      ForeignFileShows(objects, d, r);
    }
  }

  /** Directory round trip: the download gives back exactly the relative paths and
      contents uploaded, or fails for a directory without files, exactly when
      nothing foreign lay below the prefix before the upload. */
  lemma DirectoryRoundTrip(objects: Objects, d: Dataset, r: Result<Fetched, string>)
    requires Valid(d) && d.local.Directory?
    ensures DownloadGives(Uploaded(objects, d), StoragePath(d), r)
            ==> (GivesBack(d.local.files, r) <==> OwnPrefix(objects, d))
  {
    UploadStores(objects, d);
    PutAllFacts(objects, StoragePath(d), d.local.files);
    assert Below(objects, StoragePath(d)) <= Below(Uploaded(objects, d), StoragePath(d));
    if OwnPrefix(objects, d) { UploadKeepsOwnPrefix(objects, d); }
    StoredDirectoryComesBack(Uploaded(objects, d), d, r);
  }

  /** A single file in the bucket comes back, under the version and the original
      suffix, exactly when it has a suffix; without one its key is taken for a prefix. */
  lemma StoredFileComesBack(objects: Objects, d: Dataset, r: Result<Fetched, string>)
    requires Valid(d) && d.local.SingleFile? && AllStored(objects, d)
    requires DownloadGives(objects, StoragePath(d), r)
    ensures r == Ok(OneFile(FileName(d), d.local.content)) <==> d.local.suffix != []
  {
    FilePathIsFile(d);
    var f := File([], d.local.content);
    assert Puts(d) == [f];
    StoredAt(objects, d, f);
    assert StoragePath(d) + f.path == StoragePath(d);
  }

  lemma FileRoundTrip(objects: Objects, d: Dataset, r: Result<Fetched, string>)
    requires Valid(d) && d.local.SingleFile?
    requires DownloadGives(Uploaded(objects, d), StoragePath(d), r)
    ensures r == Ok(OneFile(FileName(d), d.local.content)) <==> d.local.suffix != []
  {
    UploadStores(objects, d);
    StoredFileComesBack(Uploaded(objects, d), d, r);
  }

  /** A single file whose declared format was accepted is loaded in that format. */
  lemma AcceptedFileIsLoaded(d: Dataset, format: string)
    requires Valid(d) && d.local.SingleFile?
    requires ValidateFormat(StoragePath(d)) == Ok(Some(format))
    ensures LoadSpec([FileName(d)]) == Ok(format)
  {
    var n := FileName(d);
    FileNameFacts(d);
    SuffixFrom(StoragePath(d), d);
    SuffixFrom(n, d);
    LoadOne(n, format);
  }

  lemma LoadOne(n: string, format: string)
    requires ValidateFormat(n) == Ok(Some(format))
    ensures LoadSpec([n]) == Ok(format)
  {
    assert n in [n] && FileFormat(n) == Some(format);
    assert AllLoadAs([n], format);
  }
}
