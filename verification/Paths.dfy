/** Object keys and pure POSIX paths, as far as the platform takes them apart. */
module Paths {

  predicate NoSlash(s: string) {
    '/' !in s
  }

  predicate NoDot(s: string) {
    '.' !in s
  }

  predicate EndsInSlash(s: string) {
    s != [] && s[|s| - 1] == '/'
  }

  /** rstrip("/"). */
  function StripSlashes(s: string): (r: string)
    ensures |r| <= |s|
  {
    if EndsInSlash(s) then StripSlashes(s[..|s| - 1]) else s
  }

  /** The text after the last occurrence of `c`, or all of it. */
  function AfterLast(s: string, c: char): (r: string)
    ensures |r| <= |s|
  {
    if s == [] || s[|s| - 1] == c then []
    else AfterLast(s[..|s| - 1], c) + [s[|s| - 1]]
  }

  /** The last component of a path: trailing slashes and "." components are dropped. */
  function Name(path: string): string
    decreases |path|
  {
    var p := StripSlashes(path);
    var n := AfterLast(p, '/');
    if n == "." && |p| > 1 then Name(p[..|p| - 1]) else if n == "." then [] else n
  }

  /** PurePosixPath.suffix: the name from its last dot, unless that dot is its
      first or last character. */
  function Suffix(path: string): string {
    var n := Name(path);
    var tail := AfterLast(n, '.');
    if '.' in n && tail != [] && |tail| + 1 < |n| then "." + tail else []
  }

  function Lower(c: char): char {
    if 'A' <= c <= 'Z' then (c as int + 32) as char else c
  }

  function LowerAll(s: string): string {
    if s == [] then [] else [Lower(s[0])] + LowerAll(s[1..])
  }

  /** The lower-case extension without its dot; empty when there is none. */
  function Extension(path: string): string {
    var s := Suffix(path);
    if s == [] then [] else LowerAll(s[1..])
  }

  /** What AfterLast returns: the dotless (or slashless) end of the text. */
  lemma {:induction false} AfterLastFacts(s: string, c: char)
    ensures c !in AfterLast(s, c)
    ensures c !in s ==> AfterLast(s, c) == s
    ensures c in s ==> |AfterLast(s, c)| < |s|
    ensures s[|s| - |AfterLast(s, c)|..] == AfterLast(s, c)
    decreases |s|
  {
    if s != [] && s[|s| - 1] != c {
      var t := s[..|s| - 1];
      AfterLastFacts(t, c);
      assert s == t + [s[|s| - 1]];
    }
  }

  lemma {:induction false} AfterLastIsPart(s: string, c: char, d: char)
    requires d !in s
    ensures d !in AfterLast(s, c)
  {
    if s != [] && s[|s| - 1] != c { AfterLastIsPart(s[..|s| - 1], c, d); }
  }

  lemma {:induction false} NameHasNoSlash(path: string)
    ensures NoSlash(Name(path))
    decreases |path|
  {
    var p := StripSlashes(path);
    AfterLastFacts(p, '/');
    if AfterLast(p, '/') == "." && |p| > 1 { NameHasNoSlash(p[..|p| - 1]); }
  }

  /** A suffix is empty, or a dot followed by more text without dots or slashes. */
  lemma SuffixShape(path: string)
    ensures Suffix(path) == []
            || (|Suffix(path)| > 1 && Suffix(path)[0] == '.' && NoDot(Suffix(path)[1..]) && NoSlash(Suffix(path)))
  {
    var n := Name(path);
    AfterLastFacts(n, '.');
    NameHasNoSlash(path);
    AfterLastIsPart(n, '.', '/');
  }

  lemma NameOfComponent(dir: string, name: string)
    requires NoSlash(name) && name != [] && name != "."
    ensures Name(dir + "/" + name) == name
    ensures Name(name) == name
  {
    StripNothing(dir + "/" + name);
    StripNothing(name);
    AfterLastFacts(name, '/');
    AfterLastOf(dir, '/', name);
    assert dir + "/" + name == dir + ['/'] + name;
  }

  lemma StripNothing(s: string)
    requires s != [] && s[|s| - 1] != '/'
    ensures StripSlashes(s) == s
  {}

  /** What follows the last `c` of a + c + b, when b has none. */
  lemma {:induction false} AfterLastOf(a: string, c: char, b: string)
    requires c !in b
    ensures AfterLast(a + [c] + b, c) == b
    decreases |b|
  {
    var s := a + [c] + b;
    if b != [] {
      var b' := b[..|b| - 1];
      assert b == b' + [b[|b| - 1]];
      assert s[..|s| - 1] == a + [c] + b';
      AfterLastOf(a, c, b');
    }
  }

  /** The suffix of stem + "." + extension. */
  lemma SuffixOfName(path: string, stem: string, extension: string)
    requires Name(path) == stem + "." + extension
    requires stem != [] && extension != [] && NoDot(extension)
    ensures Suffix(path) == "." + extension
  {
    AfterLastOf(stem, '.', extension);
    var n := Name(path);
    assert n[|stem|] == '.';
  }

  lemma NoSuffix(path: string)
    requires NoDot(Name(path))
    ensures Suffix(path) == []
  {
    AfterLastFacts(Name(path), '.');
  }

  lemma {:induction false} LowerAllExactly(s: string)
    ensures |LowerAll(s)| == |s|
    ensures forall i :: 0 <= i < |s| ==>
              LowerAll(s)[i] == if 'A' <= s[i] <= 'Z' then ((s[i] - 'A') as int + 'a' as int) as char else s[i]
  {
    if s != [] { LowerAllExactly(s[1..]); }
  }

  /** The extension of a file is the lower case of what follows its last dot. */
  lemma ExtensionExactly(dir: string, stem: string, extension: string)
    requires NoSlash(stem) && stem != [] && extension != [] && NoDot(extension) && NoSlash(extension)
    ensures var e := Extension(dir + "/" + (stem + "." + extension));
            && |e| == |extension|
            && forall i :: 0 <= i < |e| ==>
                 e[i] == if 'A' <= extension[i] <= 'Z' then ((extension[i] - 'A') as int + 'a' as int) as char else extension[i]
  {
    var name := stem + "." + extension;
    NameOfComponent(dir, name);
    SuffixOfName(dir + "/" + name, stem, extension);
    LowerAllExactly(extension);
    assert ("." + extension)[1..] == extension;
  }
}
