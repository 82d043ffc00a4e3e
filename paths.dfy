/** The part of Python's POSIX path handling the application relies on: `pathlib.Path(p).name`,
    `.suffix` and `.stem`, and `os.path.join` with two arguments. A path is split at every '/';
    pathlib drops the empty parts (repeated, leading or trailing slashes) and the "." parts. */
module Paths {

  /** A part that pathlib keeps. */
  predicate Significant(part: string) {
    part != "" && part != "."
  }

  /** A single file-name component: something pathlib keeps and that holds no separator. */
  predicate IsComponent(c: string) {
    Significant(c) && '/' !in c
  }

  /** `s.split('/')`. */
  function Split(s: string): (parts: seq<string>)
    ensures |parts| >= 1
    ensures forall k :: 0 <= k < |parts| ==> '/' !in parts[k]
    decreases |s|
  {
    if s == [] then [""]
    else
      var init, c := s[..|s| - 1], s[|s| - 1];
      var parts := Split(init);
      if c == '/' then parts + [""]
      else parts[..|parts| - 1] + [parts[|parts| - 1] + [c]]
  }

  /** The significant parts, in order. */
  function Keep(parts: seq<string>): (kept: seq<string>)
    ensures forall k :: 0 <= k < |kept| ==> kept[k] in parts && Significant(kept[k])
    decreases |parts|
  {
    if parts == [] then []
    else
      var last := parts[|parts| - 1];
      Keep(parts[..|parts| - 1]) + (if Significant(last) then [last] else [])
  }

  /** The components pathlib sees in `p` (its `parts`, without the root). */
  function Components(p: string): (cs: seq<string>)
    ensures forall k :: 0 <= k < |cs| ==> IsComponent(cs[k])
  {
    var parts := Split(p);
    var cs := Keep(parts);
    assert forall k :: 0 <= k < |cs| ==> exists j :: 0 <= j < |parts| && parts[j] == cs[k];
    cs
  }

  /** `Path(p).name`: the final component, or "" when there is none. */
  function Name(p: string): (n: string)
    ensures n == "" || IsComponent(n)
  {
    var cs := Components(p);
    if cs == [] then "" else cs[|cs| - 1]
  }

  /** `name.rfind('.')`: the index of the last dot, or -1. */
  function LastDot(name: string): (i: int)
    ensures -1 <= i < |name|
    ensures 0 <= i ==> name[i] == '.'
    ensures forall j :: i < j < |name| ==> name[j] != '.'
    decreases |name|
  {
    if name == [] then -1
    else if name[|name| - 1] == '.' then |name| - 1
    else LastDot(name[..|name| - 1])
  }

  /** Whether a name has a suffix at all: a dot that is neither its first nor its last character. */
  predicate HasSuffix(name: string) {
    0 < LastDot(name) < |name| - 1
  }

  /** The suffix of a file name: from its last dot on, or "". */
  function NameSuffix(name: string): string {
    if HasSuffix(name) then name[LastDot(name)..] else ""
  }

  /** The stem of a file name: up to its last dot, or the whole name. */
  function NameStem(name: string): string {
    if HasSuffix(name) then name[..LastDot(name)] else name
  }

  /** A suffix, when there is one, is a dot and at least one dot-free character that end the name
      after a non-empty start; the stem is the rest of the name in front of it. */
  lemma SuffixAndStemShape(name: string)
    ensures NameSuffix(name) == "" <==> !HasSuffix(name)
    ensures NameSuffix(name) != "" ==>
      var suffix := NameSuffix(name);
      2 <= |suffix| < |name| && suffix[0] == '.' && name[|name| - |suffix|..] == suffix &&
      forall j :: 0 < j < |suffix| ==> suffix[j] != '.'
    ensures NameStem(name) == name <==> !HasSuffix(name)
    ensures NameStem(name) + NameSuffix(name) == name
  {
  }

  /** `Path(p).suffix`. */
  function Suffix(p: string): string {
    NameSuffix(Name(p))
  }

  /** `Path(p).stem`. */
  function Stem(p: string): (s: string)
    ensures '/' !in s
  {
    var n := Name(p);
    assert forall k :: 0 <= k < |NameStem(n)| ==> NameStem(n)[k] == n[k];
    NameStem(n)
  }

  /** The stem followed by the suffix is the name again. */
  lemma StemAndSuffixMakeName(p: string)
    ensures Stem(p) + Suffix(p) == Name(p)
  {
  }

  /** `os.path.join(a, b)` on POSIX: an absolute `b` replaces `a`; otherwise a '/' is put between
      them unless `a` is empty or already ends with one. */
  function Join(a: string, b: string): (r: string)
    ensures b != [] && b[0] != '/' ==> a <= r
  {
    if b != [] && b[0] == '/' then b
    else if a == [] || a[|a| - 1] == '/' then a + b
    else a + "/" + b
  }

  /** The separator `os.path.join` puts after `a` before a relative path. */
  function Separator(a: string): string {
    if a == [] || a[|a| - 1] == '/' then "" else "/"
  }

  lemma JoinRelative(a: string, b: string)
    requires b != [] && b[0] != '/'
    ensures Join(a, b) == a + Separator(a) + b
  {
  }

  lemma {:induction false} SplitOfComponent(s: string)
    requires '/' !in s
    ensures Split(s) == [s]
    decreases |s|
  {
    if s != [] {
      var init := s[..|s| - 1];
      assert '/' !in init by { assert forall k :: 0 <= k < |init| ==> init[k] == s[k]; }
      SplitOfComponent(init);
      assert init + [s[|s| - 1]] == s;
    }
  }

  /** A '/' followed by slash-free text starts one new part holding that text. */
  lemma {:induction false} SplitAfterSlash(a: string, f: string)
    requires '/' !in f
    ensures Split(a + "/" + f) == Split(a) + [f]
    decreases |f|
  {
    var s := a + "/" + f;
    if f == [] {
      assert s[..|s| - 1] == a;
    } else {
      var init := f[..|f| - 1];
      assert '/' !in init by { assert forall k :: 0 <= k < |init| ==> init[k] == f[k]; }
      assert s[..|s| - 1] == a + "/" + init;
      assert s[|s| - 1] == f[|f| - 1];
      SplitAfterSlash(a, init);
      assert init + [f[|f| - 1]] == f;
    }
  }

  lemma {:induction false} KeepAppend(xs: seq<string>, ys: seq<string>)
    ensures Keep(xs + ys) == Keep(xs) + Keep(ys)
    decreases |ys|
  {
    if ys == [] {
      assert xs + ys == xs;
    } else {
      var init := ys[..|ys| - 1];
      assert (xs + ys)[..|xs + ys| - 1] == xs + init;
      KeepAppend(xs, init);
    }
  }

  /** Appending "/" and a component adds exactly that component, whatever the directory. */
  lemma ComponentsAfterSlash(dir: string, f: string)
    requires IsComponent(f)
    ensures Components(dir + "/" + f) == Components(dir) + [f]
    ensures Name(dir + "/" + f) == f
  {
    SplitAfterSlash(dir, f);
    KeepAppend(Split(dir), [f]);
    assert Keep([f]) == Keep([]) + [f];
  }

  /** The empty path has no name. */
  lemma NameOfEmpty()
    ensures Name("") == ""
  {
    assert Split("") == [""];
    assert Keep([""]) == Keep([]) + [];
  }

  /** A component names itself. */
  lemma NameOfComponent(f: string)
    requires IsComponent(f)
    ensures Components(f) == [f]
    ensures Name(f) == f
  {
    SplitOfComponent(f);
    assert Keep([f]) == Keep([]) + [f];
  }

  /** The directory part of a path does not change its name, suffix or stem. */
  lemma NameIgnoresDirectory(dir: string, f: string)
    requires IsComponent(f)
    ensures Name(dir + "/" + f) == Name(f)
    ensures Suffix(dir + "/" + f) == Suffix(f)
    ensures Stem(dir + "/" + f) == Stem(f)
  {
    ComponentsAfterSlash(dir, f);
    NameOfComponent(f);
  }

  /** Joining a folder with a component gives a path of exactly one more component, and that
      component is its name. */
  lemma JoinComponent(folder: string, f: string)
    requires IsComponent(f)
    ensures Components(Join(folder, f)) == Components(folder) + [f]
    ensures Name(Join(folder, f)) == f
    ensures folder <= Join(folder, f)
  {
    assert f[0] != '/' by { assert f[0] in f; }
    if folder == [] {
      NameOfComponent(f);
      assert Join(folder, f) == f;
      assert Split(folder) == [""];
      assert Keep([""]) == Keep([]) + [];
      assert Components(folder) == [];
    } else if folder[|folder| - 1] == '/' {
      JoinAfterTrailingSlash(folder, f);
    } else {
      ComponentsAfterSlash(folder, f);
    }
  }

  /** A folder that ends in '/' has the components of the folder without that '/', so the
      component is appended directly. */
  lemma JoinAfterTrailingSlash(folder: string, f: string)
    requires IsComponent(f) && folder != [] && folder[|folder| - 1] == '/'
    ensures Join(folder, f) == folder + f
    ensures Components(Join(folder, f)) == Components(folder) + [f]
    ensures Name(Join(folder, f)) == f
  {
    var g := folder[..|folder| - 1];
    assert g + "/" == folder;
    assert g + "/" + "" == folder;
    assert g + "/" + f == folder + f;
    SplitAfterSlash(g, "");
    KeepAppend(Split(g), [""]);
    assert Keep([""]) == [];
    ComponentsAfterSlash(g, f);
  }
}
