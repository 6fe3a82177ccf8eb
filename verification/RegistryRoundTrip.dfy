/** From registration to download: what a worker gets back for any ready dataset,
    whatever registrations ran against the bucket. */
module RegistryRoundTrip {
  import opened Wrappers
  import opened ObjectStore
  import opened DatasetLayout
  import opened DatasetStore
  import opened Registration
  import opened RegistrationScript

  /** Below the prefix of every directory of the universe lie only its own keys. */
  ghost predicate NothingForeign(objects: Objects, ds: set<Dataset>) {
    forall d :: d in ds && d.local.Directory? ==> OwnPrefix(objects, d)
  }

  /** A registration that writes below another's prefix writes one of its keys. */
  lemma PutKeepsOwnPrefix(r: Registry, ds: set<Dataset>, d: Dataset, e: Dataset, n: nat)
    requires Universe(ds) && d in ds && d.local.Directory? && e in ds && n < |Puts(e)|
    requires OwnPrefix(r.objects, d)
    ensures OwnPrefix(PutFile(r, e, n).objects, d)
  {
    var g := Puts(e)[n];
    var key := StoragePath(e) + g.path;
    forall k | k in Below(PutFile(r, e, n).objects, StoragePath(d)) ensures exists f :: IsKey(d, f, k) {
      if k in r.objects {
        assert k in Below(r.objects, StoragePath(d));
      } else {
        assert k == key;
        BelowPrefixIsOwn(d, k[|StoragePath(d)|..], e, g);
        assert IsKey(d, g, k);
      }
    }
  }

  lemma StepKeepsForeignOut(s: State, a: Action, ds: set<Dataset>)
    requires Inv(s, ds) && NothingForeign(s.reg.objects, ds)
    ensures NothingForeign(Apply(s, a).reg.objects, ds)
  {
    if a.PutNext? && a.p in s.runs && s.runs[a.p].Uploading? && s.runs[a.p].done < |Puts(s.runs[a.p].d)| {
      var g := s.runs[a.p];
      assert StageGood(s.reg, g, ds);
      forall d | d in ds && d.local.Directory? ensures OwnPrefix(PutFile(s.reg, g.d, g.done).objects, d) {
        PutKeepsOwnPrefix(s.reg, ds, d, g.d, g.done);
      }
    }
  }

  lemma {:induction false} ForeignStaysOut(s: State, acts: seq<Action>, ds: set<Dataset>)
    requires Inv(s, ds) && Within(acts, ds) && NothingForeign(s.reg.objects, ds)
    ensures NothingForeign(Exec(s, acts).reg.objects, ds)
    decreases |acts|
  {
    if acts != [] {
      assert acts[0] in acts;
      StepKeepsInv(s, acts[0], ds);
      StepKeepsForeignOut(s, acts[0], ds);
      ForeignStaysOut(Apply(s, acts[0]), acts[1..], ds);
    }
  }

  /** What a download of a registered dataset should answer. */
  ghost predicate ComesBack(d: Dataset, r: Result<Fetched, string>) {
    match d.local
    case Directory(files) => GivesBack(files, r)
    case SingleFile(suffix, content) => r == Ok(OneFile(FileName(d), content)) <==> suffix != []
  }

  /** From a bucket with nothing foreign below the prefixes, after any interleaving
      of registrations cut off anywhere, downloading any ready dataset gives back
      exactly its files. */
  lemma ReadyDatasetsComeBack(objects: Objects, acts: seq<Action>, ds: set<Dataset>, i: int, r: Result<Fetched, string>)
    requires Universe(ds) && Within(acts, ds) && NothingForeign(objects, ds)
    ensures var reg := Exec(State(Registry(map[], 1, objects), map[]), acts).reg;
            i in reg.rows && reg.rows[i].status == Ready ==>
              DownloadGives(reg.objects, StoragePath(reg.rows[i].source), r) ==> ComesBack(reg.rows[i].source, r)
  {
    var s := State(Registry(map[], 1, objects), map[]);
    var reg := Exec(s, acts).reg;
    InvKept(s, acts, ds);
    ForeignStaysOut(s, acts, ds);
    if i in reg.rows && reg.rows[i].status == Ready && DownloadGives(reg.objects, StoragePath(reg.rows[i].source), r) {
      ReadyComesBack(reg, ds, i, r);
    }
  }

  lemma ReadyComesBack(reg: Registry, ds: set<Dataset>, i: int, r: Result<Fetched, string>)
    requires Universe(ds) && RowsGood(reg, ds) && NothingForeign(reg.objects, ds)
    requires i in reg.rows && reg.rows[i].status == Ready
    requires DownloadGives(reg.objects, StoragePath(reg.rows[i].source), r)
    ensures ComesBack(reg.rows[i].source, r)
  {
    var d := reg.rows[i].source;
    assert AllStored(reg.objects, d) && d in ds;
    if d.local.Directory? {
      StoredDirectoryComesBack(reg.objects, d, r);
    } else {
      StoredFileComesBack(reg.objects, d, r);
    }
  }

  // ------------------------------------------- what the caller gets back

  /** Both directories, or both single files with the same suffix. */
  predicate SameForm(d: Dataset, e: Dataset) {
    match (d.local, e.local)
    case (Directory(_), Directory(_)) => true
    case (SingleFile(s, _), SingleFile(t, _)) => s == t
    case _ => false
  }

  /** Under one name and version, the same form is the same dataset. */
  lemma SameFormExactly(ds: set<Dataset>, d: Dataset, e: Dataset)
    requires Universe(ds) && d in ds && e in ds && SameRef(d, e)
    ensures d == e <==> SameForm(d, e)
  {}

  /** The download is the caller's dataset, with its own names. */
  ghost predicate Delivers(d: Dataset, r: Result<Fetched, string>) {
    match d.local
    case Directory(files) => GivesBack(files, r)
    case SingleFile(_, content) => r == Ok(OneFile(FileName(d), content))
  }

  /** A single file without a suffix, whose storage path a worker takes for the
      prefix of the directory of the same name and version. */
  predicate Mistaken(d: Dataset, e: Dataset) {
    d.local.Directory? && e.local.SingleFile? && e.local.suffix == []
  }

  /** A caller registers `d` and is given the row of `e`, ready under the same name
      and version.  Downloading that row delivers `d` exactly when `e` has the same
      form and is not a file without a suffix, or when such a file stands in for a
      directory whose objects are in the bucket all the same. */
  lemma GivenRowDeliversExactly(objects: Objects, ds: set<Dataset>, d: Dataset, e: Dataset, r: Result<Fetched, string>)
    requires Universe(ds) && d in ds && e in ds && SameRef(d, e)
    requires AllStored(objects, e) && NothingForeign(objects, ds)
    ensures DownloadGives(objects, StoragePath(e), r) ==>
              (Delivers(d, r) <==>
                 (SameForm(d, e) && (e.local.SingleFile? ==> e.local.suffix != []))
                 || (Mistaken(d, e) && AllStored(objects, d)))
  {
    if DownloadGives(objects, StoragePath(e), r) {
      if d.local.Directory? {
        if e.local.Directory? {
          SameFormExactly(ds, d, e);
          StoredDirectoryComesBack(objects, d, r);
        } else {
          FileForDirectory(objects, d, e, r);
        }
      } else if e.local.Directory? {
        DirectoryPathIsPrefix(e);
      } else {
        FileForFile(objects, ds, d, e, r);
      }
    }
  }

  lemma FileForFile(objects: Objects, ds: set<Dataset>, d: Dataset, e: Dataset, r: Result<Fetched, string>)
    requires Universe(ds) && d in ds && e in ds && SameRef(d, e) && d.local.SingleFile? && e.local.SingleFile?
    requires AllStored(objects, e) && DownloadGives(objects, StoragePath(e), r)
    ensures Delivers(d, r) <==> SameForm(d, e) && e.local.suffix != []
  {
    SameFormExactly(ds, d, e);
    FilePathIsFile(e);
    StoredFileComesBack(objects, e, r);
    if e.local.suffix != [] && d.local.suffix != e.local.suffix {
      DropNames(d.version, d.local.suffix, e.local.suffix);
    }
  }

  lemma DropNames(v: string, s: string, t: string)
    requires s != t
    ensures v + s != v + t
  {
    PrefixCancels(v, s, t);
  }

  lemma FileForDirectory(objects: Objects, d: Dataset, e: Dataset, r: Result<Fetched, string>)
    requires Valid(d) && Valid(e) && SameRef(d, e) && d.local.Directory? && e.local.SingleFile?
    requires OwnPrefix(objects, d) && AllStored(objects, e) && DownloadGives(objects, StoragePath(e), r)
    ensures Delivers(d, r) <==> e.local.suffix == [] && AllStored(objects, d)
  {
    FilePathIsFile(e);
    if e.local.suffix != [] {
      StoredFileComesBack(objects, e, r);
    } else {
      DirectoryPathIsPrefix(d);
      FileNameFacts(e);
      assert StoragePath(e) == Base(d);
      assert Prefix(StoragePath(e)) == Base(d) + "/" == StoragePath(d);
      assert DownloadGives(objects, StoragePath(d), r);
      if AllStored(objects, d) {
        StoredDirectoryComesBack(objects, d, r);
      } else {
        MissingFileShows(objects, d, r);
      }
    }
  }

  lemma MissingFileShows(objects: Objects, d: Dataset, r: Result<Fetched, string>)
    requires Valid(d) && d.local.Directory? && !AllStored(objects, d)
    requires DownloadGives(objects, StoragePath(d), r)
    ensures !GivesBack(d.local.files, r)
  {
    DirectoryPathIsPrefix(d);
    var prefix := StoragePath(d);
    var i :| 0 <= i < |Puts(d)| && !(prefix + Puts(d)[i].path in objects && objects[prefix + Puts(d)[i].path] == Puts(d)[i].content);
    var f := Puts(d)[i];
    assert f in d.local.files;
    if r.Ok? && f.path in r.value.files {
      assert prefix + f.path in Below(objects, prefix);
      assert Relative(prefix, prefix + f.path) == f.path;
    }
  }

  /** From a call of the script to a worker's download of the id it printed, in a
      bucket with nothing foreign: the caller's dataset is delivered as above, for
      the row that the call found ready or made. */
  lemma PrintedIdDeliversExactly(r: Registry, ds: set<Dataset>, d: Dataset, f: RunFaults, got: Result<Fetched, string>)
    requires Universe(ds) && RowsGood(r, ds) && NothingForeign(r.objects, ds) && d in ds
    ensures var (r1, id) := RunAlone(r, d, f);
            id.Some? ==>
              && id.value in r1.rows
              && var e := r1.rows[id.value].source;
                 DownloadGives(r1.objects, StoragePath(e), got) ==>
                   (Delivers(d, got) <==>
                      (SameForm(d, e) && (e.local.SingleFile? ==> e.local.suffix != []))
                      || (Mistaken(d, e) && AllStored(r1.objects, d)))
  {
    var (r1, id) := RunAlone(r, d, f);
    if id.Some? {
      RegisterKeepsRows(r, ds, d, f);
      RegisterKeepsForeignOut(r, ds, d, f);
      PrintedIsReady(r, ds, d, f);
      GivenRowDeliversExactly(r1.objects, ds, d, r1.rows[id.value].source, got);
    }
  }

  lemma RegisterKeepsForeignOut(r: Registry, ds: set<Dataset>, d: Dataset, f: RunFaults)
    requires Universe(ds) && RowsGood(r, ds) && NothingForeign(r.objects, ds) && d in ds
    ensures NothingForeign(RunAlone(r, d, f).0.objects, ds)
  {
    var s := State(r, map[]);
    RegisterIsARun(s, 0, d, f);
    RegisterTraceWithin(0, r, d, f, ds);
    ForeignStaysOut(s, RegisterTrace(0, r, d, f), ds);
  }
}
