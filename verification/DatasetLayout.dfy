/** Where a dataset's files go in the bucket, and that no two datasets meet there. */
module DatasetLayout {
  import opened Paths
  import opened ObjectStore

  /** What is registered: one file, of which only suffix and content count, or
      a directory of files. */
  datatype Local = SingleFile(suffix: string, content: string) | Directory(files: seq<File>)

  /** `version` is the checksum, kept as an opaque id of the content. */
  datatype Dataset = Dataset(name: string, version: string, local: Local)

  /** PurePath.suffix of a file name: nothing, or a dot and more dotless text. */
  predicate IsSuffix(s: string) {
    s == [] || (|s| > 1 && s[0] == '.' && NoDot(s[1..]) && NoSlash(s))
  }

  predicate Valid(d: Dataset) {
    && NoSlash(d.name)
    && d.version != [] && NoSlash(d.version) && NoDot(d.version)
    && match d.local
       case SingleFile(suffix, _) => IsSuffix(suffix)
       case Directory(files) =>
         DistinctPaths(files) && forall f | f in files :: f.path != [] && !EndsInSlash(f.path)
  }

  /** No local file is left out: the suffix of every path meets IsSuffix. */
  lemma EveryFileIsValid(path: string, name: string, version: string, content: string)
    requires NoSlash(name) && version != [] && NoSlash(version) && NoDot(version)
    ensures Valid(Dataset(name, version, SingleFile(Suffix(path), content)))
  {
    SuffixShape(path);
  }

  function Base(d: Dataset): string {
    "datasets/" + d.name + "/" + d.version
  }

  function StoragePath(d: Dataset): string {
    match d.local
    case SingleFile(suffix, _) => Base(d) + suffix
    case Directory(_) => Base(d) + "/"
  }

  /** The objects an upload writes. */
  function Puts(d: Dataset): seq<File> {
    match d.local
    case SingleFile(suffix, content) => [File([], content)]
    case Directory(files) => files
  }

  function Uploaded(objects: Objects, d: Dataset): Objects {
    PutAll(objects, StoragePath(d), Puts(d))
  }

  predicate IsKey(d: Dataset, f: File, key: string) {
    f in Puts(d) && key == StoragePath(d) + f.path
  }

  // -------------------------------------------------- keys do not collide

  lemma {:induction false} SplitAt(c: char, a1: string, b1: string, a2: string, b2: string)
    requires c !in a1 && c !in a2
    requires a1 + [c] + b1 == a2 + [c] + b2
    ensures a1 == a2 && b1 == b2
  {
    var s := a1 + [c] + b1;
    var t := a2 + [c] + b2;
    if a1 == [] {
      assert s[0] == c && t[0] == c;
      assert a2 == [];
      assert s[1..] == b1 && t[1..] == b2;
    } else {
      assert s[0] == a1[0];
      assert a2 != [];
      assert t[0] == a2[0];
      assert s[1..] == a1[1..] + [c] + b1 && t[1..] == a2[1..] + [c] + b2;
      SplitAt(c, a1[1..], b1, a2[1..], b2);
      assert a1 == [a1[0]] + a1[1..] && a2 == [a2[0]] + a2[1..];
    }
  }

  /** The key after "datasets/{name}/": version and suffix, or version, slash and relative path. */
  function Tail(d: Dataset, f: File): string {
    match d.local
    case SingleFile(suffix, _) => d.version + suffix + f.path
    case Directory(_) => d.version + "/" + f.path
  }

  lemma KeySplits(d: Dataset, f: File)
    ensures StoragePath(d) + f.path == "datasets/" + (d.name + ['/'] + Tail(d, f))
  {}

  /** Two valid datasets that write the same key have the same name and version
      and are of the same kind, and it is the same file of both. */
  lemma KeysDoNotCollide(d: Dataset, f: File, e: Dataset, g: File)
    requires Valid(d) && Valid(e) && f in Puts(d) && g in Puts(e)
    requires StoragePath(d) + f.path == StoragePath(e) + g.path
    ensures d.name == e.name && d.version == e.version && f.path == g.path
    ensures d.local.SingleFile? == e.local.SingleFile?
    ensures d.local.SingleFile? ==> d.local.suffix == e.local.suffix
  {
    KeySplits(d, f);
    KeySplits(e, g);
    DropHead("datasets/", d.name + ['/'] + Tail(d, f), e.name + ['/'] + Tail(e, g));
    SplitAt('/', d.name, Tail(d, f), e.name, Tail(e, g));
    TailsDoNotCollide(d, f, e, g);
  }

  lemma DropHead(p: string, a: string, b: string)
    requires p + a == p + b
    ensures a == b
  {
    assert (p + a)[|p|..] == a && (p + b)[|p|..] == b;
  }

  lemma TailsDoNotCollide(d: Dataset, f: File, e: Dataset, g: File)
    requires Valid(d) && Valid(e) && f in Puts(d) && g in Puts(e) && Tail(d, f) == Tail(e, g)
    ensures d.version == e.version && f.path == g.path
    ensures d.local.SingleFile? == e.local.SingleFile?
    ensures d.local.SingleFile? ==> d.local.suffix == e.local.suffix
  {
    if d.local.Directory? && e.local.Directory? {
      assert Tail(d, f) == d.version + ['/'] + f.path && Tail(e, g) == e.version + ['/'] + g.path;
      SplitAt('/', d.version, f.path, e.version, g.path);
    } else if d.local.Directory? {
      SlashTells(d, f, e, g);
    } else if e.local.Directory? {
      SlashTells(e, g, d, f);
    } else {
      FilesDoNotCollide(d.version, d.local.suffix, e.version, e.local.suffix);
    }
  }

  /** A directory's key has a slash after the version; a single file's has none. */
  lemma SlashTells(d: Dataset, f: File, e: Dataset, g: File)
    requires Valid(d) && Valid(e) && d.local.Directory? && e.local.SingleFile? && g in Puts(e)
    ensures Tail(d, f) != Tail(e, g)
  {
    assert Tail(d, f)[|d.version|] == '/';
    assert NoSlash(Tail(e, g));
  }

  lemma SuffixShows(w: string, t: string)
    requires IsSuffix(t) && t != []
    ensures !NoDot(w + t + [])
  {
    assert (w + t + [])[|w|] == '.';
  }

  lemma FilesDoNotCollide(v: string, s: string, w: string, t: string)
    requires NoDot(v) && NoDot(w) && IsSuffix(s) && IsSuffix(t) && v + s + [] == w + t + []
    ensures v == w && s == t
  {
    if s == [] {
      assert NoDot(v + s + []);
      if t != [] { SuffixShows(w, t); }
      assert v + s + [] == v && w + [] + [] == w;
    } else {
      SuffixShows(v, s);
      assert w + [] + [] == w;
      assert t != [];
      assert v + s + [] == v + ['.'] + s[1..] && w + t + [] == w + ['.'] + t[1..];
      SplitAt('.', v, s[1..], w, t[1..]);
    }
  }

  /** Whoever writes below a directory's prefix has its name and version, and is a
      directory writing that relative path. */
  lemma BelowPrefixIsOwn(d: Dataset, rest: string, e: Dataset, g: File)
    requires Valid(d) && d.local.Directory? && Valid(e) && g in Puts(e)
    requires StoragePath(e) + g.path == StoragePath(d) + rest
    ensures e.name == d.name && e.version == d.version && e.local.Directory? && g.path == rest
  {
    var f := File(rest, []);
    KeySplits(d, f);
    KeySplits(e, g);
    DropHead("datasets/", d.name + ['/'] + Tail(d, f), e.name + ['/'] + Tail(e, g));
    SplitAt('/', d.name, Tail(d, f), e.name, Tail(e, g));
    if e.local.SingleFile? {
      SlashTells(d, f, e, g);
    } else {
      assert Tail(d, f) == d.version + ['/'] + rest && Tail(e, g) == e.version + ['/'] + g.path;
      SplitAt('/', d.version, rest, e.version, g.path);
    }
  }

  // ------------------------------------------- what a version stands for

  /** Equal versions mean equal contents, file by file, within one kind. */
  ghost predicate ContentAddressed(ds: set<Dataset>) {
    forall d, e :: d in ds && e in ds && d.version == e.version ==>
      match (d.local, e.local)
      case (SingleFile(_, a), SingleFile(_, b)) => a == b
      case (Directory(a), Directory(b)) => a == b
      case _ => true
  }

  /** Under content addressing a key has one content, whichever dataset writes it. */
  lemma KeyDeterminesContent(ds: set<Dataset>, d: Dataset, f: File, e: Dataset, g: File)
    requires ContentAddressed(ds) && d in ds && e in ds && Valid(d) && Valid(e)
    requires f in Puts(d) && g in Puts(e) && StoragePath(d) + f.path == StoragePath(e) + g.path
    ensures f.content == g.content
  {
    KeysDoNotCollide(d, f, e, g);
    if d.local.Directory? {
      var i :| 0 <= i < |d.local.files| && d.local.files[i] == f;
      var j :| 0 <= j < |e.local.files| && e.local.files[j] == g;
      assert d.local.files == e.local.files;
      assert i == j;
    }
  }

  /** The first n objects of a dataset are in the bucket, with their contents. */
  ghost predicate Stored(objects: Objects, d: Dataset, n: nat)
    requires n <= |Puts(d)|
  {
    forall i :: 0 <= i < n ==>
      StoragePath(d) + Puts(d)[i].path in objects && objects[StoragePath(d) + Puts(d)[i].path] == Puts(d)[i].content
  }

  ghost predicate AllStored(objects: Objects, d: Dataset) {
    Stored(objects, d, |Puts(d)|)
  }

  /** What checksum_directory feeds to the hash: paths and contents, one after the other. */
  function DigestInput(files: seq<File>): string {
    if files == [] then [] else files[0].path + files[0].content + DigestInput(files[1..])
  }

  /** Two listings with as many files, and paths and contents of the same lengths. */
  ghost predicate SameShape(a: seq<File>, b: seq<File>) {
    && |a| == |b|
    && forall i :: 0 <= i < |a| ==> |a[i].path| == |b[i].path| && |a[i].content| == |b[i].content|
  }

  /** The feed has no separators: two layouts of the same contents can have the
      same version without any weakness of the hash. */
  lemma DirectoryVersionsCanCoincide()
    ensures var a := [File("a", "b"), File("bb", "")];
            var b := [File("ab", "b"), File("b", "")];
            DigestInput(a) == DigestInput(b) && a[0].content == b[0].content && a[1].content == b[1].content && a != b
  {
    var a := [File("a", "b"), File("bb", "")];
    var b := [File("ab", "b"), File("b", "")];
    assert a[1..] == [File("bb", "")] && a[1..][1..] == [];
    assert b[1..] == [File("b", "")] && b[1..][1..] == [];
    assert DigestInput(a[1..]) == "bb" && DigestInput(b[1..]) == "b";
    assert DigestInput(a) == "abbb";
    assert DigestInput(b) == "abbb";
  }

  /** When the version does tell two directories apart: equal feeds come from equal
      directories exactly when the listings have the same shape. */
  lemma {:induction false} EqualFeedsExactly(a: seq<File>, b: seq<File>)
    requires DigestInput(a) == DigestInput(b)
    ensures a == b <==> SameShape(a, b)
  {
    if a != [] && SameShape(a, b) {
      var x, y := a[0], b[0];
      assert |x.path| == |y.path| && |x.content| == |y.content|;
      CutAt(x.path, x.content + DigestInput(a[1..]), y.path, y.content + DigestInput(b[1..]), DigestInput(a));
      CutAt(x.content, DigestInput(a[1..]), y.content, DigestInput(b[1..]), x.content + DigestInput(a[1..]));
      assert SameShape(a[1..], b[1..]);
      EqualFeedsExactly(a[1..], b[1..]);
      assert a == [x] + a[1..] && b == [y] + b[1..];
    }
  }

  lemma CutAt(a1: string, b1: string, a2: string, b2: string, s: string)
    requires |a1| == |a2| && s == a1 + b1 && s == a2 + b2
    ensures a1 == a2 && b1 == b2
  {
    assert s[..|a1|] == a1 && s[..|a2|] == a2;
    assert s[|a1|..] == b1 && s[|a2|..] == b2;
  }

  /** With a collision-free hash, versions of directories determine contents exactly
      when no two different shapes feed the hash the same text. */
  lemma DirectoriesAreContentAddressedExactly(ds: set<Dataset>)
    requires forall d :: d in ds ==> d.local.Directory?
    requires forall d, e :: d in ds && e in ds ==>
               (d.version == e.version <==> DigestInput(d.local.files) == DigestInput(e.local.files))
    ensures ContentAddressed(ds) <==>
              forall d, e :: d in ds && e in ds && DigestInput(d.local.files) == DigestInput(e.local.files)
                ==> SameShape(d.local.files, e.local.files)
  {
    forall d, e | d in ds && e in ds && DigestInput(d.local.files) == DigestInput(e.local.files)
      ensures d.local.files == e.local.files <==> SameShape(d.local.files, e.local.files)
    {
      EqualFeedsExactly(d.local.files, e.local.files);
    }
  }
}
