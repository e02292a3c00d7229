/**
 * The helpers the build scripts share (scripts/_mixin.py): the scoped change of
 * working directory, source-tree lookup, target-triple mapping, patch listing and
 * ordering, command running, and the decision procedure that lands one patch.
 */
module Mixin {
  import opened Outcomes
  import opened Paths
  import opened Vcs

  // ---------------------------------------------------------------------------
  // temp_cd: change into a directory for the length of a `with` block
  // ---------------------------------------------------------------------------

  /**
   * Why `temp_cd` cannot enter `absPath`: the assert on a missing path, or the error
   * `os.chdir` raises for an existing path that is not a directory.
   */
  function EnterError(absPath: string, present: bool): (e: Error)
    ensures !present ==> e == AssertionError(absPath + " does not exist.")
    ensures present ==> e.NotADirectoryError? && EndsWith(e.msg, absPath + "'")
  {
    if present then NotADirectoryError("[Errno 20] Not a directory: '" + absPath + "'")
    else AssertionError(absPath + " does not exist.")
  }

  /** The process's current working directory. */
  class Shell {
    var cwd: string

    constructor (start: string)
      ensures cwd == start
    {
      cwd := start;
    }

    /**
     * Entering `with temp_cd(path)`: the path must exist (an AssertionError
     * otherwise, raised before the directory changes) and `os.chdir` must be able to
     * enter it (NotADirectoryError for an existing file that is not a directory);
     * then the process moves into it and the directory it left is handed back for
     * the exit. `fs` is the file system as seen from the current directory.
     */
    method Enter(path: string, fs: FileSystem) returns (saved: Result<string>)
      modifies this
      ensures saved.Ok? <==> fs.Exists(path) && fs.IsDir(path)
      ensures saved.Ok? ==> saved.value == old(cwd) && cwd == Join(old(cwd), Norm(path))
      ensures saved.Err? ==> cwd == old(cwd) && saved.error == EnterError(Join(old(cwd), Norm(path)), fs.Exists(path))
    {
      var absPath := Join(cwd, Norm(path));
      if !fs.Exists(path) {
        return Err(EnterError(absPath, false));
      }
      if !fs.IsDir(path) {
        return Err(EnterError(absPath, true));
      }
      saved := Ok(cwd);
      cwd := absPath;
    }

    /** The `finally` of temp_cd: go back to the saved directory. */
    method Leave(saved: string)
      modifies this
      ensures cwd == saved
    {
      cwd := saved;
    }

    /**
     * A whole `with temp_cd(path): body` statement. The body is described by the
     * directory it leaves the process in and by the exception it ends with, if any.
     * Returns the directory the body ran in (None: the body never ran) and the
     * exception that leaves the statement.
     */
    method WithTempCd(path: string, fs: FileSystem, bodyCwd: string, bodyRaises: Option<Error>)
      returns (ranIn: Option<string>, raised: Option<Error>)
      requires fs.Consistent()
      modifies this
      ensures cwd == old(cwd)
      ensures ranIn.Some? <==> fs.Exists(path) && fs.IsDir(path)
      ensures ranIn.Some? <==> fs.IsDir(path)
      ensures ranIn.Some? ==> ranIn.value == Join(old(cwd), Norm(path)) && raised == bodyRaises
      ensures ranIn.None? ==> raised == Some(EnterError(Join(old(cwd), Norm(path)), fs.Exists(path)))
    {
      var saved := Enter(path, fs);
      if saved.Err? {
        return None, Some(saved.error);
      }
      ranIn := Some(cwd);
      cwd := bodyCwd;   // whatever the body does to the working directory
      raised := bodyRaises;
      Leave(saved.value);
    }
  }

  // ---------------------------------------------------------------------------
  // find_src_dir
  // ---------------------------------------------------------------------------

  const SrcPrefix := "camoufox-"

  /**
   * The folder test as written: `os.path.isdir(folder)` is asked about the bare
   * name, that is relative to the current directory rather than to `root`.
   */
  predicate IsSrcCandidateAsWritten(folder: string, fs: FileSystem)
    ensures IsSrcCandidateAsWritten(folder, fs) <==> IsSrcCandidate(".", folder, fs)
  {
    if StartsWith(folder, SrcPrefix) then
      PrefixedIsRelative(folder);
      NormDotSlash(folder);
      fs.IsDir(folder)
    else false
  }

  /** The folder test the loop evidently means: a camoufox-* directory under `root`. */
  predicate IsSrcCandidate(root: string, folder: string, fs: FileSystem)
    ensures IsSrcCandidate(root, folder, fs) ==> StartsWith(Join(root, folder), root)
  {
    if StartsWith(folder, SrcPrefix) then
      PrefixedIsRelative(folder);
      JoinUnder(root, folder);
      fs.IsDir(Join(root, folder))
    else false
  }

  /** A camoufox-* name is relative, so joining it onto "." puts "./" in front. */
  lemma PrefixedIsRelative(folder: string)
    requires StartsWith(folder, SrcPrefix)
    ensures !StartsWith(folder, "/") && Join(".", folder) == "./" + folder
  {
    assert folder[0] == folder[..|SrcPrefix|][0] == 'c';
    assert !EndsWith(".", "/");
  }

  /** The first camoufox-* entry by the test as written (the listing's length if none). */
  function FirstSrcIndexAsWritten(folders: seq<string>, fs: FileSystem): (i: nat)
    ensures i <= |folders|
    ensures forall j :: 0 <= j < i ==> !IsSrcCandidateAsWritten(folders[j], fs)
    ensures i < |folders| ==> IsSrcCandidateAsWritten(folders[i], fs)
  {
    if folders == [] || IsSrcCandidateAsWritten(folders[0], fs) then 0
    else
      var rest := folders[1..];
      assert forall j :: 1 <= j < |folders| ==> folders[j] == rest[j - 1];
      1 + FirstSrcIndexAsWritten(rest, fs)
  }

  /** For the root ".", the scan as written stops at the same entry as the intended one. */
  lemma {:induction false} ScanAgreesAtDot(folders: seq<string>, fs: FileSystem)
    ensures FirstSrcIndexAsWritten(folders, fs) == FirstSrcIndex(".", folders, fs)
  {
    if folders != [] && !IsSrcCandidate(".", folders[0], fs) {
      ScanAgreesAtDot(folders[1..], fs);
    }
  }

  /** The position of the first camoufox-* directory in the listing (its length if none). */
  function FirstSrcIndex(root: string, folders: seq<string>, fs: FileSystem): (i: nat)
    ensures i <= |folders|
    ensures forall j :: 0 <= j < i ==> !IsSrcCandidate(root, folders[j], fs)
    ensures i < |folders| ==> IsSrcCandidate(root, folders[i], fs)
  {
    if folders == [] || IsSrcCandidate(root, folders[0], fs) then 0
    else
      var rest := folders[1..];
      assert forall j :: 1 <= j < |folders| ==> folders[j] == rest[j - 1];
      1 + FirstSrcIndex(root, rest, fs)
  }

  /** An index with no candidate before it, and a candidate at it unless past the end, is the first. */
  lemma FirstSrcIndexAt(root: string, folders: seq<string>, fs: FileSystem, i: nat)
    requires i <= |folders|
    requires forall j :: 0 <= j < i ==> !IsSrcCandidate(root, folders[j], fs)
    requires i < |folders| ==> IsSrcCandidate(root, folders[i], fs)
    ensures FirstSrcIndex(root, folders, fs) == i
  {
    var k := FirstSrcIndex(root, folders, fs);
    assert !(k < i) && !(i < k);
  }

  /**
   * Where find_src_dir finds the source tree. `folders` is `os.listdir(root)` in
   * listing order; `fs` is the file system seen from the current directory.
   */
  function SourceDir(root: string, version: Option<string>, release: Option<string>,
                     folders: seq<string>, fs: FileSystem): (r: Result<string>)
    ensures r.Ok? ==> StartsWith(r.value, root)
    ensures r.Err? ==> (r.error.AssertionError? <==> Truthy(version) && Truthy(release))
    ensures r.Err? ==> r.error.AssertionError? || r.error.FileNotFoundError?
  {
    if Truthy(version) && Truthy(release) then
      var leaf := SrcPrefix + version.value + "-" + release.value;
      assert StartsWith(leaf, SrcPrefix) by { assert leaf[..|SrcPrefix|] == SrcPrefix; }
      PrefixedIsRelative(leaf);
      JoinUnder(root, leaf);
      var name := Join(root, leaf);
      if fs.Exists(name) then Ok(name) else Err(AssertionError(name + " does not exist."))
    else
      var i := FirstSrcIndex(root, folders, fs);
      if i < |folders| then Ok(Join(root, folders[i]))
      else Err(FileNotFoundError("No camoufox-* folder found"))
  }

  /**
   * Without both version and release, the tree found is the first camoufox-* directory
   * under `root` in listing order, and there is an error exactly when there is none.
   */
  lemma SourceDirIsFirstCandidate(root: string, version: Option<string>, release: Option<string>,
                                  folders: seq<string>, fs: FileSystem)
    requires !(Truthy(version) && Truthy(release))
    ensures var r := SourceDir(root, version, release, folders, fs);
            (r.Ok? <==> exists i :: 0 <= i < |folders| && IsSrcCandidate(root, folders[i], fs))
            && (r.Ok? ==> exists i :: 0 <= i < |folders| && IsSrcCandidate(root, folders[i], fs)
                            && r.value == Join(root, folders[i])
                            && forall j :: 0 <= j < i ==> !IsSrcCandidate(root, folders[j], fs))
            && (r.Err? ==> r.error == FileNotFoundError("No camoufox-* folder found"))
  {
    var i := FirstSrcIndex(root, folders, fs);
    if i < |folders| {
      assert IsSrcCandidate(root, folders[i], fs);
    }
  }

  /** With version and release both given, the tree is the one they name, which must exist. */
  lemma SourceDirNamedByRelease(root: string, version: Option<string>, release: Option<string>,
                                folders: seq<string>, fs: FileSystem)
    requires Truthy(version) && Truthy(release)
    ensures var r := SourceDir(root, version, release, folders, fs);
            var name := Join(root, SrcPrefix + version.value + "-" + release.value);
            (r.Ok? <==> fs.Exists(name))
            && (r.Ok? ==> r.value == name)
            && (r.Err? ==> r.error == AssertionError(name + " does not exist."))
  {
  }

  /**
   * What find_src_dir hands back exists; a tree found by the scan is moreover a
   * directory, so only a tree named by version and release can fail temp_cd.
   */
  lemma SourceDirFoundExists(root: string, version: Option<string>, release: Option<string>,
                             folders: seq<string>, fs: FileSystem)
    requires fs.Consistent()
    ensures var r := SourceDir(root, version, release, folders, fs);
            r.Ok? ==> fs.Exists(r.value) && (!(Truthy(version) && Truthy(release)) ==> fs.IsDir(r.value))
  {
    if !(Truthy(version) && Truthy(release)) {
      var i := FirstSrcIndex(root, folders, fs);
      if i < |folders| {
        assert IsSrcCandidate(root, folders[i], fs);
      }
    }
  }

  /** find_src_dir: an explicit version and release name the tree; otherwise scan the listing. */
  method FindSrcDir(root: string, version: Option<string>, release: Option<string>,
                    folders: seq<string>, fs: FileSystem) returns (r: Result<string>)
    ensures r == SourceDir(root, version, release, folders, fs)
  {
    if Truthy(version) && Truthy(release) {
      var name := Join(root, SrcPrefix + version.value + "-" + release.value);
      if !fs.Exists(name) {
        return Err(AssertionError(name + " does not exist."));
      }
      return Ok(name);
    }
    var i := 0;
    while i < |folders|
      invariant 0 <= i <= |folders|
      invariant forall j :: 0 <= j < i ==> !IsSrcCandidate(root, folders[j], fs)
    {
      if IsSrcCandidate(root, folders[i], fs) {
        FirstSrcIndexAt(root, folders, fs, i);
        return Ok(Join(root, folders[i]));
      }
      i := i + 1;
    }
    FirstSrcIndexAt(root, folders, fs, i);
    r := Err(FileNotFoundError("No camoufox-* folder found"));
  }

  /**
   * With a root other than ".", the test as written misses a tree that is there:
   * for `build/camoufox-135.0`, say, it asks about `camoufox-135.0` instead.
   */
  lemma IsDirTestMissesTreeUnderRoot(root: string, folder: string)
    requires StartsWith(folder, SrcPrefix)
    requires root != "" && root[0] != '.' && root[|root| - 1] != '/'
    ensures var fs := FileSystem({root + "/" + folder}, {root + "/" + folder});
            !IsSrcCandidateAsWritten(folder, fs) && IsSrcCandidate(root, folder, fs)
  {
    var path := root + "/" + folder;
    assert path[0] == root[0];
    NormOfPlain(path);
    BareNameIsNotThere(folder, path);
    NestedNameIsThere(root, folder, path);
  }

  /** The bare name of a directory that sits elsewhere is not a directory here. */
  lemma BareNameIsNotThere(folder: string, path: string)
    requires StartsWith(folder, SrcPrefix) && Norm(path) != folder
    ensures !IsSrcCandidateAsWritten(folder, FileSystem({path}, {path}))
  {
    assert folder[0] == 'c';
    NormOfPlain(folder);
  }

  /** A camoufox-* directory that sits under `root` passes the intended test. */
  lemma NestedNameIsThere(root: string, folder: string, path: string)
    requires StartsWith(folder, SrcPrefix) && root != "" && root[|root| - 1] != '/'
    requires path == root + "/" + folder && root[0] != '.'
    ensures IsSrcCandidate(root, folder, FileSystem({path}, {path}))
  {
    PrefixedIsRelative(folder);
    assert !EndsWith(root, "/");
    NormOfPlain(path);
  }

  // ---------------------------------------------------------------------------
  // get_moz_target
  // ---------------------------------------------------------------------------

  /** The Mozilla target triple for a build target and architecture. */
  function GetMozTarget(target: string, arch: string): (r: Result<string>)
    ensures r.Ok? <==> target == "linux" || target == "windows" || target == "macos"
    ensures r.Err? ==> r.error == ValueError("Unsupported target: " + target)
  {
    if target == "linux" then
      Ok(if arch == "arm64" then "aarch64-unknown-linux-gnu" else arch + "-pc-linux-gnu")
    else if target == "windows" then
      Ok(arch + "-pc-mingw32")
    else if target == "macos" then
      Ok(if arch == "arm64" then "aarch64-apple-darwin" else arch + "-apple-darwin")
    else
      Err(ValueError("Unsupported target: " + target))
  }

  /** The build target a triple belongs to, read from its vendor-system suffix. */
  function TriplePlatform(triple: string): Option<string> {
    if EndsWith(triple, "-linux-gnu") then Some("linux")
    else if EndsWith(triple, "-pc-mingw32") then Some("windows")
    else if EndsWith(triple, "-apple-darwin") then Some("macos")
    else None
  }

  /** The architecture part of a triple: what precedes its vendor-system suffix. */
  function TripleArch(triple: string): string {
    if EndsWith(triple, "-unknown-linux-gnu") then triple[..|triple| - 18]
    else if EndsWith(triple, "-pc-linux-gnu") then triple[..|triple| - 13]
    else if EndsWith(triple, "-pc-mingw32") then triple[..|triple| - 11]
    else if EndsWith(triple, "-apple-darwin") then triple[..|triple| - 13]
    else triple
  }

  /** The vendor part of a triple, read from the same suffixes ("" for none of them). */
  function TripleVendor(triple: string): string {
    if EndsWith(triple, "-unknown-linux-gnu") then "unknown"
    else if EndsWith(triple, "-pc-linux-gnu") || EndsWith(triple, "-pc-mingw32") then "pc"
    else if EndsWith(triple, "-apple-darwin") then "apple"
    else ""
  }

  lemma AppendedSuffix(a: string, s: string)
    ensures EndsWith(a + s, s) && (a + s)[..|a|] == a
  {
    assert (a + s)[|a + s| - |s|..] == s;
  }

  /** A suffix ending in character `c` is not a suffix of a string ending in another character. */
  lemma LastCharRulesOut(t: string, suffix: string)
    requires |t| > 0 && |suffix| > 0 && t[|t| - 1] != suffix[|suffix| - 1]
    ensures !EndsWith(t, suffix)
  {
  }

  /** A suffix is ruled out by one character, `d` places from the end, where the two differ. */
  lemma CharFromEndRulesOut(t: string, suffix: string, d: nat)
    requires 0 < d <= |t| && d <= |suffix| && t[|t| - d] != suffix[|suffix| - d]
    ensures !EndsWith(t, suffix)
  {
  }

  lemma LinuxTripleReadsBack(arch: string)
    requires arch != "arm64"
    ensures TriplePlatform(arch + "-pc-linux-gnu") == Some("linux")
    ensures TripleArch(arch + "-pc-linux-gnu") == arch
    ensures TripleVendor(arch + "-pc-linux-gnu") == "pc"
  {
    var t := arch + "-pc-linux-gnu";
    AppendedSuffix(arch, "-pc-linux-gnu");
    assert t == (arch + "-pc") + "-linux-gnu";
    AppendedSuffix(arch + "-pc", "-linux-gnu");
    assert t[|t| - 13] == '-';
    CharFromEndRulesOut(t, "-unknown-linux-gnu", 13);
    assert EndsWith(t, "-linux-gnu") && EndsWith(t, "-pc-linux-gnu") && !EndsWith(t, "-unknown-linux-gnu");
    assert t[..|t| - 13] == arch;
  }

  lemma WindowsTripleReadsBack(arch: string)
    ensures TriplePlatform(arch + "-pc-mingw32") == Some("windows")
    ensures TripleArch(arch + "-pc-mingw32") == arch
    ensures TripleVendor(arch + "-pc-mingw32") == "pc"
  {
    var t := arch + "-pc-mingw32";
    AppendedSuffix(arch, "-pc-mingw32");
    assert t[|t| - 1] == '2';
    LastCharRulesOut(t, "-linux-gnu");
    LastCharRulesOut(t, "-unknown-linux-gnu");
    LastCharRulesOut(t, "-pc-linux-gnu");
  }

  lemma MacTripleReadsBack(arch: string)
    requires arch != "arm64"
    ensures TriplePlatform(arch + "-apple-darwin") == Some("macos")
    ensures TripleArch(arch + "-apple-darwin") == arch
    ensures TripleVendor(arch + "-apple-darwin") == "apple"
  {
    var t := arch + "-apple-darwin";
    AppendedSuffix(arch, "-apple-darwin");
    assert t[|t| - 1] == 'n';
    LastCharRulesOut(t, "-linux-gnu");
    LastCharRulesOut(t, "-unknown-linux-gnu");
    LastCharRulesOut(t, "-pc-linux-gnu");
    LastCharRulesOut(t, "-pc-mingw32");
  }

  lemma UnknownLinuxTripleReadsBack(arch: string)
    ensures TriplePlatform(arch + "-unknown-linux-gnu") == Some("linux")
    ensures TripleArch(arch + "-unknown-linux-gnu") == arch
    ensures TripleVendor(arch + "-unknown-linux-gnu") == "unknown"
  {
    var t := arch + "-unknown-linux-gnu";
    AppendedSuffix(arch, "-unknown-linux-gnu");
    assert t == (arch + "-unknown") + "-linux-gnu";
    AppendedSuffix(arch + "-unknown", "-linux-gnu");
  }

  lemma LinuxArmTripleReadsBack()
    ensures TriplePlatform("aarch64-unknown-linux-gnu") == Some("linux")
    ensures TripleArch("aarch64-unknown-linux-gnu") == "aarch64"
    ensures TripleVendor("aarch64-unknown-linux-gnu") == "unknown"
  {
    assert "aarch64-unknown-linux-gnu" == "aarch64" + "-unknown-linux-gnu";
    UnknownLinuxTripleReadsBack("aarch64");
  }

  lemma MacArmTripleReadsBack()
    ensures TriplePlatform("aarch64-apple-darwin") == Some("macos")
    ensures TripleArch("aarch64-apple-darwin") == "aarch64"
    ensures TripleVendor("aarch64-apple-darwin") == "apple"
  {
    var t := "aarch64-apple-darwin";
    assert t == "aarch64" + "-apple-darwin";
    MacTripleReadsBack("aarch64");
  }

  /**
   * A triple can be read back: it names the target it was made for, the vendor that
   * goes with it (unknown only for Linux on arm64), and the architecture asked for
   * (arm64 being spelt aarch64 on Linux and macOS).
   */
  lemma MozTargetRoundTrip(target: string, arch: string)
    requires GetMozTarget(target, arch).Ok?
    ensures TriplePlatform(GetMozTarget(target, arch).value) == Some(target)
    ensures TripleArch(GetMozTarget(target, arch).value)
            == if arch == "arm64" && target != "windows" then "aarch64" else arch
    ensures TripleVendor(GetMozTarget(target, arch).value)
            == if target == "macos" then "apple" else if target == "linux" && arch == "arm64" then "unknown" else "pc"
  {
    if target == "linux" && arch != "arm64" {
      LinuxTripleReadsBack(arch);
    } else if target == "windows" {
      WindowsTripleReadsBack(arch);
    } else if target == "macos" && arch != "arm64" {
      MacTripleReadsBack(arch);
    } else if target == "linux" {
      LinuxArmTripleReadsBack();
    } else {
      MacArmTripleReadsBack();
    }
  }

  // ---------------------------------------------------------------------------
  // is_bootstrap_patch
  // ---------------------------------------------------------------------------

  predicate IsDigit(c: char) {
    '0' <= c <= '9'
  }

  /** The length of the run of digits that `s` starts with. */
  function LeadingDigits(s: string): (n: nat)
    ensures n <= |s|
    ensures forall i :: 0 <= i < n ==> IsDigit(s[i])
    ensures n < |s| ==> !IsDigit(s[n])
  {
    if |s| > 0 && IsDigit(s[0]) then 1 + LeadingDigits(s[1..]) else 0
  }

  /** `re.match(r'\d+\-.*', basename)`: one or more digits, then a '-'. */
  function IsBootstrapPatch(name: string): (r: bool)
    ensures r ==> var b := Basename(name); |b| >= 2 && IsDigit(b[0]) && '-' in b
  {
    var b := Basename(name);
    var n := LeadingDigits(b);
    1 <= n < |b| && b[n] == '-'
  }

  /** The pattern read literally: some non-empty prefix of digits is followed by '-'. */
  ghost predicate BootstrapPattern(b: string) {
    exists k :: 1 <= k < |b| && b[k] == '-' && forall i :: 0 <= i < k ==> IsDigit(b[i])
  }

  lemma BootstrapPatchIffPattern(name: string)
    ensures IsBootstrapPatch(name) <==> BootstrapPattern(Basename(name))
  {
    var b := Basename(name);
    var n := LeadingDigits(b);
    if BootstrapPattern(b) {
      var k :| 1 <= k < |b| && b[k] == '-' && forall i :: 0 <= i < k ==> IsDigit(b[i]);
      assert n == k;
    }
  }

  // ---------------------------------------------------------------------------
  // list_patches: sorted(list_files(...), key=os.path.basename)
  // ---------------------------------------------------------------------------

  /** Python's `a <= b` on strings: code point by code point, a prefix first. */
  predicate LexLe(a: string, b: string) {
    |a| == 0 || (|b| > 0 && (a[0] < b[0] || (a[0] == b[0] && LexLe(a[1..], b[1..]))))
  }

  lemma {:induction false} LexLeReflexive(a: string)
    ensures LexLe(a, a)
  {
    if |a| > 0 {
      LexLeReflexive(a[1..]);
    }
  }

  lemma {:induction false} LexLeTotal(a: string, b: string)
    ensures LexLe(a, b) || LexLe(b, a)
  {
    if |a| > 0 && |b| > 0 && a[0] == b[0] {
      LexLeTotal(a[1..], b[1..]);
    }
  }

  lemma {:induction false} LexLeTransitive(a: string, b: string, c: string)
    requires LexLe(a, b) && LexLe(b, c)
    ensures LexLe(a, c)
  {
    if |a| > 0 && a[0] == b[0] && b[0] == c[0] {
      LexLeTransitive(a[1..], b[1..], c[1..]);
    }
  }

  ghost predicate SortedByBasename(s: seq<string>) {
    forall i, j :: 0 <= i < j < |s| ==> LexLe(Basename(s[i]), Basename(s[j]))
  }

  /** The entries of `s` whose basename is `k`, in their order in `s`. */
  function WithBasename(s: seq<string>, k: string): seq<string> {
    if s == [] then [] else (if Basename(s[0]) == k then [s[0]] else []) + WithBasename(s[1..], k)
  }

  /** Inserts `x` before the first entry whose basename is not smaller than its own. */
  function InsertByBasename(x: string, s: seq<string>): (r: seq<string>)
    ensures |r| == |s| + 1
  {
    if s == [] then [x]
    else if LexLe(Basename(x), Basename(s[0])) then [x] + s
    else [s[0]] + InsertByBasename(x, s[1..])
  }

  /** list_patches: the patch files, stably sorted by their basename string. */
  function ListPatches(files: seq<string>): (r: seq<string>)
    ensures |r| == |files|
  {
    if files == [] then [] else InsertByBasename(files[0], ListPatches(files[1..]))
  }

  lemma {:induction false} InsertPermutes(x: string, s: seq<string>)
    ensures multiset(InsertByBasename(x, s)) == multiset(s) + multiset{x}
  {
    if s != [] && !LexLe(Basename(x), Basename(s[0])) {
      InsertPermutes(x, s[1..]);
      assert s == [s[0]] + s[1..];
    }
  }

  /** Every entry of `s` has a basename at least `k`. */
  ghost predicate AllAtLeast(k: string, s: seq<string>) {
    forall y :: y in s ==> LexLe(k, Basename(y))
  }

  lemma SortedCons(h: string, t: seq<string>)
    requires AllAtLeast(Basename(h), t) && SortedByBasename(t)
    ensures SortedByBasename([h] + t)
  {
    forall i, j | 0 <= i < j < |[h] + t|
      ensures LexLe(Basename(([h] + t)[i]), Basename(([h] + t)[j]))
    {
      assert ([h] + t)[j] == t[j - 1];
      if i == 0 {
        assert t[j - 1] in t;
      } else {
        assert ([h] + t)[i] == t[i - 1];
      }
    }
  }

  lemma SortedTail(s: seq<string>)
    requires s != [] && SortedByBasename(s)
    ensures SortedByBasename(s[1..]) && AllAtLeast(Basename(s[0]), s[1..])
  {
    var t := s[1..];
    forall i, j | 0 <= i < j < |t| ensures LexLe(Basename(t[i]), Basename(t[j])) {
      assert t[i] == s[i + 1] && t[j] == s[j + 1];
    }
    forall y | y in t ensures LexLe(Basename(s[0]), Basename(y)) {
      var j :| 0 <= j < |t| && t[j] == y;
      assert s[j + 1] == y;
    }
  }

  lemma {:induction false} InsertSorted(x: string, s: seq<string>)
    requires SortedByBasename(s)
    ensures SortedByBasename(InsertByBasename(x, s))
  {
    if s == [] {
    } else if LexLe(Basename(x), Basename(s[0])) {
      SortedTail(s);
      forall y | y in s ensures LexLe(Basename(x), Basename(y)) {
        if y != s[0] {
          assert y in s[1..] by {
            var j :| 0 <= j < |s| && s[j] == y;
            assert s[1..][j - 1] == y;
          }
          LexLeTransitive(Basename(x), Basename(s[0]), Basename(y));
        }
      }
      SortedCons(x, s);
    } else {
      var t := s[1..];
      SortedTail(s);
      InsertSorted(x, t);
      InsertPermutes(x, t);
      var r := InsertByBasename(x, t);
      LexLeTotal(Basename(x), Basename(s[0]));
      forall y | y in r ensures LexLe(Basename(s[0]), Basename(y)) {
        assert y in multiset(r);
        if y != x {
          assert y in multiset(t);
        }
      }
      SortedCons(s[0], r);
    }
  }

  /** Selecting by basename from a list with a head: the head, if it matches, then the rest. */
  lemma WithBasenameCons(y: string, t: seq<string>, k: string)
    ensures WithBasename([y] + t, k) == (if Basename(y) == k then [y] else []) + WithBasename(t, k)
  {
    assert ([y] + t)[0] == y && ([y] + t)[1..] == t;
  }

  lemma {:induction false} InsertStable(x: string, s: seq<string>, k: string)
    ensures WithBasename(InsertByBasename(x, s), k)
            == (if Basename(x) == k then [x] else []) + WithBasename(s, k)
  {
    if s == [] {
      WithBasenameCons(x, [], k);
    } else if LexLe(Basename(x), Basename(s[0])) {
      WithBasenameCons(x, s, k);
    } else {
      var r := InsertByBasename(x, s[1..]);
      assert InsertByBasename(x, s) == [s[0]] + r;
      InsertStable(x, s[1..], k);
      WithBasenameCons(s[0], r, k);
      var mx := if Basename(x) == k then [x] else [];
      var ms := if Basename(s[0]) == k then [s[0]] else [];
      assert WithBasename(s, k) == ms + WithBasename(s[1..], k);
      LexLeReflexive(Basename(x));
      assert mx == [] || ms == [];
      assert ms + (mx + WithBasename(s[1..], k)) == mx + (ms + WithBasename(s[1..], k));
    }
  }

  /** The listing is a permutation of the files found. */
  lemma {:induction false} ListPatchesPermutes(files: seq<string>)
    ensures multiset(ListPatches(files)) == multiset(files)
  {
    if files != [] {
      ListPatchesPermutes(files[1..]);
      InsertPermutes(files[0], ListPatches(files[1..]));
      assert files == [files[0]] + files[1..];
    }
  }

  /** The listing is in ascending order of basename string. */
  lemma {:induction false} ListPatchesSorted(files: seq<string>)
    ensures SortedByBasename(ListPatches(files))
  {
    if files != [] {
      ListPatchesSorted(files[1..]);
      InsertSorted(files[0], ListPatches(files[1..]));
    }
  }

  /** The sort is stable: files sharing a basename keep their relative order. */
  lemma {:induction false} ListPatchesStable(files: seq<string>, k: string)
    ensures WithBasename(ListPatches(files), k) == WithBasename(files, k)
  {
    if files != [] {
      ListPatchesStable(files[1..], k);
      InsertStable(files[0], ListPatches(files[1..]), k);
    }
  }

  lemma {:induction false} BasenameAfterSlash(dir: string, name: string)
    requires '/' !in name
    ensures Basename(dir + "/" + name) == name
    decreases |name|
  {
    if name != [] {
      var init := name[..|name| - 1];
      BasenameAfterSlash(dir, init);
      assert (dir + "/" + name)[..|dir + "/" + name| - 1] == dir + "/" + init;
      assert init + [name[|name| - 1]] == name;
    } else {
      assert dir + "/" + name == dir + "/";
    }
  }

  /** Two patches in one directory are listed in the string order of their names. */
  lemma {:induction false} ListTwoPatches(dir: string, a: string, b: string)
    requires '/' !in a && '/' !in b && !LexLe(a, b)
    ensures ListPatches([dir + "/" + a, dir + "/" + b]) == [dir + "/" + b, dir + "/" + a]
  {
    var pa, pb := dir + "/" + a, dir + "/" + b;
    BasenameAfterSlash(dir, a);
    BasenameAfterSlash(dir, b);
    assert [pa, pb][1..] == [pb];
    assert ListPatches([pb]) == [pb];
    assert InsertByBasename(pa, [pb]) == [pb] + InsertByBasename(pa, []);
  }

  /** The sort key is the plain string: "10-foo.patch" comes before "2-bar.patch". */
  lemma ListPatchesIsNotNumeric()
    ensures ListPatches(["patches" + "/" + "2-bar.patch", "patches" + "/" + "10-foo.patch"])
            == ["patches" + "/" + "10-foo.patch", "patches" + "/" + "2-bar.patch"]
  {
    // '1' < '2' decides the comparison at the first character.
    assert !LexLe("2-bar.patch", "10-foo.patch");
    ListTwoPatches("patches", "2-bar.patch", "10-foo.patch");
  }

  // ---------------------------------------------------------------------------
  // run
  // ---------------------------------------------------------------------------

  /** How `run` ends: it returns None, returns the status, or leaves through script_exit. */
  datatype RunResult = NotRun | Status(code: int) | ScriptExit(code: int)

  /**
   * `run(cmd, exit_on_fail)` on its own, where `status` is what `os.system(cmd)`
   * returns. `Checkout.Exec` is the case `patch` uses: a non-empty command without
   * exit_on_fail, which hands the status back.
   */
  function Run(cmd: string, exitOnFail: bool, status: int): (r: RunResult)
    ensures r.NotRun? <==> cmd == ""
    ensures r.ScriptExit? <==> cmd != "" && exitOnFail && status != 0
    ensures r.ScriptExit? ==> r.code == 1
    ensures r.Status? ==> r.code == status && (exitOnFail ==> r.code == 0)
  {
    if cmd == "" then NotRun
    else if status != 0 && exitOnFail then ScriptExit(1)
    else Status(status)
  }

  // ---------------------------------------------------------------------------
  // patch: land one patch file on the tree in the current directory
  // ---------------------------------------------------------------------------

  /** How `patch` ends: it returns, or leaves through script_exit(code). */
  datatype PatchEnd = Returned | Exited(code: int)

  /** What one call of `patch` does: the commands it runs, the tree it leaves, how it ends. */
  datatype Landing = Landing(cmds: seq<Cmd>, tree: Tree, end: PatchEnd)

  /** The forward probe says the patch is in: forward dry run fails, reverse dry run succeeds. */
  predicate ProbedApplied(p: string, tools: Tools, t: Tree) {
    tools.status(DryRun(p, false), t) != 0 && tools.status(DryRun(p, true), t) == 0
  }

  /** `git apply` is tried only in a git checkout and only when applying forward. */
  predicate TriesGit(reverse: bool, isGitRepo: bool) {
    isGitRepo && !reverse
  }

  /** The tree the fuzzy `patch` command sees: after a failed `git apply`, if one ran. */
  function TreeBeforeFuzzy(p: string, reverse: bool, isGitRepo: bool, tools: Tools, t0: Tree): Tree {
    if TriesGit(reverse, isGitRepo) then tools.effect(GitApply(p), t0) else t0
  }

  /**
   * Lines 172-175 as written: the outcome after a failed patch follows the exit
   * status of `find ... -print -quit`, which is 0 whenever the search completes,
   * whether or not a .rej file matched.
   */
  function FailureEndAsWritten(findStatus: int): (e: PatchEnd)
    ensures e == Exited(1) <==> findStatus == 0
    ensures e != Exited(1) ==> e == Returned
  {
    if findStatus == 0 then Exited(1) else Returned
  }

  /** The intended classification: a failure is fatal exactly when a .rej file is present. */
  function FailureEnd(t: Tree): (e: PatchEnd)
    ensures e == Exited(1) <==> HasRej(t)
    ensures e != Exited(1) ==> e == Returned
  {
    if HasRej(t) then Exited(1) else Returned
  }

  /**
   * The exit status of a completed search does not say whether it found anything:
   * as written, a failure that left no .rej file is fatal, and a search that stopped
   * on an error hides a .rej file that is there.
   */
  lemma FindStatusMisclassifies()
    ensures var clean: Tree := map["browser/app.js" := "patched"];
            FailureEndAsWritten(0) == Exited(1) && FailureEnd(clean) == Returned
    ensures var rejected: Tree := map["browser/app.js.rej" := "@@ -1 +1 @@"];
            FailureEndAsWritten(1) == Returned && FailureEnd(rejected) == Exited(1)
  {
    var clean: Tree := map["browser/app.js" := "patched"];
    assert !IsRej("browser/app.js") by {
      assert "browser/app.js"[|"browser/app.js"| - 1] != ".rej"[3];
    }
    assert !HasRej(clean);
    var rejected: Tree := map["browser/app.js.rej" := "@@ -1 +1 @@"];
    assert IsRej("browser/app.js.rej");
    assert "browser/app.js.rej" in rejected;
  }

  /**
   * The reference behaviour of `patch(p, reverse, silent, fuzz)` from tree `t0`:
   * probe, skip if already applied, `git apply --3way`, then the fuzzy `patch`, then
   * classify a failure. The lemmas below state what it promises.
   */
  function PatchLanding(p: string, reverse: bool, fuzz: int, isGitRepo: bool, tools: Tools, t0: Tree): (l: Landing)
    ensures l.end == Exited(1) <==> FindRej in l.cmds && HasRej(l.tree)
    ensures l.end != Exited(1) ==> l.end == Returned
    ensures l.tree != t0 ==> GitApply(p) in l.cmds || FuzzyPatch(p, reverse, fuzz) in l.cmds
  {
    var fwd := DryRun(p, false);
    var rev := DryRun(p, true);
    if !reverse && ProbedApplied(p, tools, t0) then
      Landing([fwd, rev], t0, Returned)
    else
      var l := ApplyLanding(p, reverse, fuzz, isGitRepo, tools, t0);
      var probes := Probes(p, reverse, tools, t0);
      assert (probes + l.cmds)[|probes|] == l.cmds[0];
      Landing(probes + l.cmds, l.tree, l.end)
  }

  /** The dry runs of a patch that is not skipped: none in reverse, the reverse one only after a failed forward one. */
  function Probes(p: string, reverse: bool, tools: Tools, t0: Tree): (cs: seq<Cmd>)
    ensures cs == [] <==> reverse
    ensures forall c :: c in cs ==> c == DryRun(p, false) || c == DryRun(p, true)
  {
    if reverse then []
    else if tools.status(DryRun(p, false), t0) == 0 then [DryRun(p, false)]
    else [DryRun(p, false), DryRun(p, true)]
  }

  /** The second half of `patch`, once the probe did not skip it: `git apply --3way`, then the fuzzy `patch`. */
  function ApplyLanding(p: string, reverse: bool, fuzz: int, isGitRepo: bool, tools: Tools, t0: Tree): (l: Landing)
    ensures l.cmds != [] && l.cmds[0] == if TriesGit(reverse, isGitRepo) then GitApply(p) else FuzzyPatch(p, reverse, fuzz)
    ensures l.end == Exited(1) <==> FindRej in l.cmds && HasRej(l.tree)
    ensures l.end != Exited(1) ==> l.end == Returned
  {
    if TriesGit(reverse, isGitRepo) && tools.status(GitApply(p), t0) == 0 then
      Landing([GitApply(p)], tools.effect(GitApply(p), t0), Returned)
    else
      var tried := if TriesGit(reverse, isGitRepo) then [GitApply(p)] else [];
      var fuzzy := FuzzyPatch(p, reverse, fuzz);
      var t1 := TreeBeforeFuzzy(p, reverse, isGitRepo, tools, t0);
      var t2 := tools.effect(fuzzy, t1);
      if tools.status(fuzzy, t1) == 0 then
        Landing(tried + [fuzzy], t2, Returned)
      else
        Landing(tried + [fuzzy, FindRej], t2, FailureEnd(t2))
  }

  /**
   * A landing as the code classifies it: the same commands and tree, but after the
   * .rej search the ending follows the search's exit status.
   */
  function AsWritten(l: Landing, tools: Tools): (r: Landing)
    ensures r.cmds == l.cmds && r.tree == l.tree
    ensures r.end != l.end ==> FindRej in l.cmds
  {
    if FindRej in l.cmds then l.(end := FailureEndAsWritten(tools.status(FindRej, l.tree))) else l
  }

  /** `patch` as written: the reference landing with the status-based classification. */
  function PatchLandingAsWritten(p: string, reverse: bool, fuzz: int, isGitRepo: bool, tools: Tools, t0: Tree): (l: Landing)
    ensures var ref := PatchLanding(p, reverse, fuzz, isGitRepo, tools, t0);
            l.cmds == ref.cmds && l.tree == ref.tree
    ensures l.end == Exited(1) <==> FindRej in l.cmds && tools.status(FindRej, l.tree) == 0
    ensures l.end != Exited(1) ==> l.end == Returned
  {
    AsWritten(PatchLanding(p, reverse, fuzz, isGitRepo, tools, t0), tools)
  }

  /** A skipped patch runs the two dry runs, leaves the tree alone and returns. */
  lemma AsWrittenWhenSkipped(p: string, reverse: bool, fuzz: int, isGitRepo: bool, tools: Tools, t0: Tree)
    requires !reverse && ProbedApplied(p, tools, t0)
    ensures PatchLandingAsWritten(p, reverse, fuzz, isGitRepo, tools, t0)
            == Landing([DryRun(p, false), DryRun(p, true)], t0, Returned)
  {
  }

  /** Past the probe, `patch` as written is its dry runs followed by the apply stage as written. */
  lemma AsWrittenAfterProbes(p: string, reverse: bool, fuzz: int, isGitRepo: bool, tools: Tools, t0: Tree)
    requires !(!reverse && ProbedApplied(p, tools, t0))
    ensures var l := AsWritten(ApplyLanding(p, reverse, fuzz, isGitRepo, tools, t0), tools);
            PatchLandingAsWritten(p, reverse, fuzz, isGitRepo, tools, t0)
              == Landing(Probes(p, reverse, tools, t0) + l.cmds, l.tree, l.end)
  {
    var l := ApplyLanding(p, reverse, fuzz, isGitRepo, tools, t0);
    var probes := Probes(p, reverse, tools, t0);
    assert FindRej in probes + l.cmds <==> FindRej in l.cmds;
  }

  /**
   * With a .rej search that completes (exit status 0, as `find ... -print -quit`
   * gives whether or not it matched), `patch` as written ends in script_exit(1)
   * exactly when the fuzzy patch ran and failed; it runs the same commands and
   * leaves the same tree as the reference, and ends differently from it exactly
   * when that failure left no .rej file.
   */
  lemma PatchAsWrittenFatalOnFinishedSearch(p: string, reverse: bool, fuzz: int, isGitRepo: bool, tools: Tools, t0: Tree)
    requires forall t :: tools.status(FindRej, t) == 0
    ensures var e := PatchLandingAsWritten(p, reverse, fuzz, isGitRepo, tools, t0);
            var c := PatchLanding(p, reverse, fuzz, isGitRepo, tools, t0);
            e.cmds == c.cmds && e.tree == c.tree
            && (e.end == Exited(1) <==>
                  FuzzyPatch(p, reverse, fuzz) in c.cmds
                  && tools.status(FuzzyPatch(p, reverse, fuzz), TreeBeforeFuzzy(p, reverse, isGitRepo, tools, t0)) != 0)
            && (e.end != c.end <==> FindRej in c.cmds && !HasRej(c.tree))
  {
    PatchClassifiesFailure(p, reverse, fuzz, isGitRepo, tools, t0);
  }

  /**
   * A concrete run: forward, outside git, the fuzzy patch fails on a tree with no
   * .rej file and the search completes. As written the build stops; the reference
   * returns quietly.
   */
  lemma CleanFailureIsFatalAsWritten()
    ensures var tools := Tools((c: Cmd, t: Tree) => if c.FuzzyPatch? then 1 else 0, (c: Cmd, t: Tree) => t);
            var t0: Tree := map["browser/app.js" := "patched"];
            PatchLandingAsWritten("fix.patch", false, 2, false, tools, t0).end == Exited(1)
            && PatchLanding("fix.patch", false, 2, false, tools, t0).end == Returned
  {
    var tools := Tools((c: Cmd, t: Tree) => if c.FuzzyPatch? then 1 else 0, (c: Cmd, t: Tree) => t);
    var t0: Tree := map["browser/app.js" := "patched"];
    assert !IsRej("browser/app.js") by {
      assert "browser/app.js"[|"browser/app.js"| - 1] != ".rej"[3];
    }
    assert !HasRej(t0);
    PatchAsWrittenFatalOnFinishedSearch("fix.patch", false, 2, false, tools, t0);
  }

  /** Forward mode starts with the forward dry run; an already-applied patch is skipped with nothing mutated. */
  lemma PatchSkipsAppliedPatch(p: string, reverse: bool, fuzz: int, isGitRepo: bool, tools: Tools, t0: Tree)
    ensures var e := PatchLanding(p, reverse, fuzz, isGitRepo, tools, t0);
            !reverse ==> |e.cmds| >= 1 && e.cmds[0] == DryRun(p, false)
    ensures var e := PatchLanding(p, reverse, fuzz, isGitRepo, tools, t0);
            !reverse && ProbedApplied(p, tools, t0) ==>
              e == Landing([DryRun(p, false), DryRun(p, true)], t0, Returned)
              && forall c :: c in e.cmds ==> !Mutates(c)
  {
  }

  /** Reverse mode: no dry-run probe and no git apply; only `patch -R --fuzz=N`, then the .rej search if it failed. */
  lemma PatchReverseRunsOnlyPatch(p: string, fuzz: int, isGitRepo: bool, tools: Tools, t0: Tree)
    ensures var e := PatchLanding(p, true, fuzz, isGitRepo, tools, t0);
            |e.cmds| >= 1 && e.cmds[0] == FuzzyPatch(p, true, fuzz)
            && forall c :: c in e.cmds ==> c == FuzzyPatch(p, true, fuzz) || c == FindRej
  {
  }

  /** In a git checkout, forward, `git apply --3way` is tried; when it succeeds the fuzzy patch never runs. */
  lemma PatchTriesGitFirst(p: string, reverse: bool, fuzz: int, isGitRepo: bool, tools: Tools, t0: Tree)
    ensures var e := PatchLanding(p, reverse, fuzz, isGitRepo, tools, t0);
            GitApply(p) in e.cmds <==> TriesGit(reverse, isGitRepo) && !ProbedApplied(p, tools, t0)
    ensures var e := PatchLanding(p, reverse, fuzz, isGitRepo, tools, t0);
            GitApply(p) in e.cmds && tools.status(GitApply(p), t0) == 0 ==>
              FuzzyPatch(p, false, fuzz) !in e.cmds && e.end == Returned && e.tree == tools.effect(GitApply(p), t0)
    ensures var e := PatchLanding(p, reverse, fuzz, isGitRepo, tools, t0);
            forall i, j :: 0 <= i < |e.cmds| && 0 <= j < |e.cmds| && e.cmds[i].GitApply? && e.cmds[j].FuzzyPatch? ==> i < j
  {
  }

  /** The fuzzy `patch` runs exactly when the patch was not skipped and git apply was not tried or failed. */
  lemma PatchFallsBackToFuzzy(p: string, reverse: bool, fuzz: int, isGitRepo: bool, tools: Tools, t0: Tree)
    ensures var e := PatchLanding(p, reverse, fuzz, isGitRepo, tools, t0);
            FuzzyPatch(p, reverse, fuzz) in e.cmds <==>
              (reverse || !ProbedApplied(p, tools, t0))
              && (!TriesGit(reverse, isGitRepo) || tools.status(GitApply(p), t0) != 0)
  {
  }

  /**
   * After a failed fuzzy patch the .rej search runs; a .rej file makes it fatal
   * (script_exit(1)), none makes it a quiet success. Nothing else ends in an exit.
   */
  lemma PatchClassifiesFailure(p: string, reverse: bool, fuzz: int, isGitRepo: bool, tools: Tools, t0: Tree)
    ensures var e := PatchLanding(p, reverse, fuzz, isGitRepo, tools, t0);
            FindRej in e.cmds <==>
              FuzzyPatch(p, reverse, fuzz) in e.cmds
              && tools.status(FuzzyPatch(p, reverse, fuzz), TreeBeforeFuzzy(p, reverse, isGitRepo, tools, t0)) != 0
    ensures var e := PatchLanding(p, reverse, fuzz, isGitRepo, tools, t0);
            (e.end == Exited(1) <==> FindRej in e.cmds && HasRej(e.tree))
            && (e.end != Exited(1) ==> e.end == Returned)
  {
  }

  /** The source tree the build works in, and the commands run on it so far. */
  class Checkout {
    var tree: Tree
    var log: seq<Cmd>
    /** `os.path.exists(".git")` in the current directory. */
    const isGitRepo: bool
    const tools: Tools

    constructor (start: Tree, isGitRepo: bool, tools: Tools)
      ensures tree == start && log == [] && this.isGitRepo == isGitRepo && this.tools == tools
    {
      this.tree := start;
      this.log := [];
      this.isGitRepo := isGitRepo;
      this.tools := tools;
    }

    /**
     * `run(cmd, exit_on_fail=False)`: run one command, record it, return its exit status.
     * Every command `patch` runs is non-empty and none exits on failure, so by the
     * contract of `Run` the call is `Status(status)`: the status is handed back as is.
     */
    method Exec(c: Cmd) returns (status: int)
      modifies this
      ensures status == tools.status(c, old(tree))
      ensures log == old(log) + [c]
      ensures tree == if Mutates(c) then tools.effect(c, old(tree)) else old(tree)
    {
      status := tools.status(c, tree);
      if Mutates(c) {
        tree := tools.effect(c, tree);
      }
      log := log + [c];
    }

    /**
     * patch(patchfile, reverse, silent, fuzz), as written. `silent` only chooses what
     * is printed. After a failed fuzzy patch the outcome follows the exit status of
     * the .rej search (see PatchLandingAsWritten and the lemmas after it).
     */
    method Patch(patchfile: string, reverse: bool, silent: bool, fuzz: int) returns (end: PatchEnd)
      modifies this
      ensures var e := PatchLandingAsWritten(patchfile, reverse, fuzz, isGitRepo, tools, old(tree));
              log == old(log) + e.cmds && tree == e.tree && end == e.end
    {
      ghost var t0, log0 := tree, log;
      var skip := ProbeStage(patchfile, reverse);
      if skip {
        AsWrittenWhenSkipped(patchfile, reverse, fuzz, isGitRepo, tools, t0);
        return Returned;
      }
      ghost var probes := Probes(patchfile, reverse, tools, t0);
      AsWrittenAfterProbes(patchfile, reverse, fuzz, isGitRepo, tools, t0);
      end := ApplyStage(patchfile, reverse, fuzz);
      ghost var l := AsWritten(ApplyLanding(patchfile, reverse, fuzz, isGitRepo, tools, t0), tools);
      ghost var e := PatchLandingAsWritten(patchfile, reverse, fuzz, isGitRepo, tools, t0);
      assert e.cmds == probes + l.cmds && e.tree == l.tree && e.end == l.end;
      assert log == log0 + probes + l.cmds;
      assert log0 + probes + l.cmds == log0 + e.cmds;
    }

    /** The dry-run probe of `patch`: in forward mode, skip a patch that is already in. */
    method ProbeStage(patchfile: string, reverse: bool) returns (skip: bool)
      modifies this
      ensures skip <==> !reverse && ProbedApplied(patchfile, tools, old(tree))
      ensures tree == old(tree)
      ensures log == old(log) + if skip then [DryRun(patchfile, false), DryRun(patchfile, true)]
                                else Probes(patchfile, reverse, tools, old(tree))
    {
      if reverse {
        return false;
      }
      var retval := Exec(DryRun(patchfile, false));
      if retval == 0 {
        return false;
      }
      var reverseRetval := Exec(DryRun(patchfile, true));
      return reverseRetval == 0;
    }

    /** `patch` past the probe: `git apply --3way` when it may, then the fuzzy `patch` and the .rej search. */
    method ApplyStage(patchfile: string, reverse: bool, fuzz: int) returns (end: PatchEnd)
      modifies this
      ensures var e := AsWritten(ApplyLanding(patchfile, reverse, fuzz, isGitRepo, tools, old(tree)), tools);
              log == old(log) + e.cmds && tree == e.tree && end == e.end
    {
      if isGitRepo && !reverse {
        var retval := Exec(GitApply(patchfile));
        if retval == 0 {
          return Returned;
        }
      }
      var retval := Exec(FuzzyPatch(patchfile, reverse, fuzz));
      if retval != 0 {
        var findResult := Exec(FindRej);
        return FailureEndAsWritten(findResult);
      }
      end := Returned;
    }
  }
}
