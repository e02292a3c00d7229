/**
 * Path strings as `os.path` treats them, and a read-only view of the file system.
 * Paths are plain strings; the only normalisation modelled is dropping leading "./"
 * components, which is what joining a name onto the root "." introduces.
 */
module Paths {

  predicate StartsWith(s: string, prefix: string) {
    |prefix| <= |s| && s[..|prefix|] == prefix
  }

  predicate EndsWith(s: string, suffix: string) {
    |suffix| <= |s| && s[|s| - |suffix|..] == suffix
  }

  /** `os.path.basename`: everything after the last '/'. */
  function Basename(path: string): string
    decreases |path|
  {
    if |path| == 0 || path[|path| - 1] == '/' then ""
    else Basename(path[..|path| - 1]) + [path[|path| - 1]]
  }

  /** The basename is the last component: a suffix without '/', preceded by '/' or nothing. */
  lemma {:induction false} BasenameIsLastComponent(path: string)
    ensures '/' !in Basename(path)
    ensures EndsWith(path, Basename(path))
    ensures |Basename(path)| < |path| ==> path[|path| - |Basename(path)| - 1] == '/'
    decreases |path|
  {
    if |path| > 0 && path[|path| - 1] != '/' {
      var init := path[..|path| - 1];
      BasenameIsLastComponent(init);
      var b := Basename(init);
      assert Basename(path) == b + [path[|path| - 1]];
      assert path[|path| - |b| - 1..] == init[|init| - |b|..] + [path[|path| - 1]];
    }
  }

  /** `os.path.join(a, b)` for two components. */
  function Join(a: string, b: string): string {
    if StartsWith(b, "/") then b
    else if a == "" || EndsWith(a, "/") then a + b
    else a + "/" + b
  }

  lemma StartsWithConcat(a: string, b: string)
    ensures StartsWith(a + b, a)
  {
    assert (a + b)[..|a|] == a;
  }

  /** Joining a relative name onto a directory gives a path that starts with it. */
  lemma JoinUnder(a: string, b: string)
    requires !StartsWith(b, "/")
    ensures StartsWith(Join(a, b), a)
  {
    if a == "" || EndsWith(a, "/") {
      assert (a + b)[..|a|] == a;
    } else {
      assert (a + "/" + b)[..|a|] == a;
    }
  }

  /** Drops leading "./" components, so that "./x" and "x" name the same file. */
  function Norm(p: string): string
    decreases |p|
  {
    if StartsWith(p, "./") then Norm(p[2..]) else p
  }

  /** A path that does not start with '.' is already normal. */
  lemma NormOfPlain(p: string)
    requires p == [] || p[0] != '.'
    ensures Norm(p) == p
  {
    assert !StartsWith(p, "./") by {
      if |p| >= 2 {
        assert p[..2][0] == p[0];
      }
    }
  }

  /** A relative name joined onto "." gets a "./" in front. */
  lemma JoinDot(name: string)
    requires '/' !in name
    ensures Join(".", name) == "./" + name
  {
    if |name| > 0 {
      assert name[..1][0] == name[0];
      assert name[0] in name;
    }
    assert !StartsWith(name, "/");
    assert !EndsWith(".", "/");
  }

  /** Joining onto "." adds a "./" that normalisation takes off again. */
  lemma NormDotSlash(p: string)
    ensures Norm("./" + p) == Norm(p)
  {
    assert ("./" + p)[..2] == "./";
    assert ("./" + p)[2..] == p;
  }

  /**
   * The file system as seen from one working directory: the (normalised) paths that
   * exist and those that are directories.
   */
  datatype FileSystem = FileSystem(paths: set<string>, dirs: set<string>) {
    /** `os.path.exists(p)` */
    predicate Exists(p: string) {
      Norm(p) in paths
    }
    /** `os.path.isdir(p)` */
    predicate IsDir(p: string) {
      Norm(p) in dirs
    }
    /** As on a real file system, every directory exists. */
    predicate Consistent() {
      dirs <= paths
    }
  }
}
