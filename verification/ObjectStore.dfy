/** The Garage bucket: whole objects under flat keys. */
module ObjectStore {

  /** A file below some directory: its relative POSIX path and its bytes. */
  datatype File = File(path: string, content: string)

  type Objects = map<string, string>

  /** Uploading the files one after the other below a prefix. */
  function PutAll(objects: Objects, prefix: string, files: seq<File>): Objects {
    if files == [] then objects
    else
      var f := files[|files| - 1];
      PutAll(objects, prefix, files[..|files| - 1])[prefix + f.path := f.content]
  }

  predicate DistinctPaths(files: seq<File>) {
    forall i, j :: 0 <= i < j < |files| ==> files[i].path != files[j].path
  }

  /** After an upload every file is in the bucket under its own key, and every
      other object is as it was. */
  lemma {:induction false} PutAllFacts(objects: Objects, prefix: string, files: seq<File>)
    requires DistinctPaths(files)
    ensures var o := PutAll(objects, prefix, files);
            && (forall f :: f in files ==> prefix + f.path in o && o[prefix + f.path] == f.content)
            && (forall k :: k in o ==> k in objects || (exists f :: f in files && k == prefix + f.path))
            && (forall k :: k in objects ==> k in o)
            && (forall k :: k in objects && (forall f :: f in files ==> k != prefix + f.path) ==> o[k] == objects[k])
  {
    if files != [] {
      var rest := files[..|files| - 1];
      var last := files[|files| - 1];
      assert files == rest + [last];
      PutAllFacts(objects, prefix, rest);
      forall f | f in rest ensures prefix + f.path != prefix + last.path {
        assert f.path != last.path;
        PrefixCancels(prefix, f.path, last.path);
      }
    }
  }

  lemma PrefixCancels(p: string, a: string, b: string)
    requires a != b
    ensures p + a != p + b
  {
    assert (p + a)[|p|..] == a;
    assert (p + b)[|p|..] == b;
  }
}
