/**
 * The external tools the patch scripts shell out to (`patch`, `git`, `find`), as an
 * abstract capability: a working tree, the commands that act on it, and an oracle
 * that says what exit status a command returns and what it leaves behind.
 */
module Vcs {
  import opened Paths

  /** A working tree: every regular file under the source directory, by path, with its contents. */
  type Tree = map<string, string>

  /** The commands the scripts run, with the arguments that matter to the decisions. */
  datatype Cmd =
    | DryRun(patch: string, reverse: bool)                  // patch -p1 [-R] --dry-run --force --silent -i P
    | GitApply(patch: string)                               // git apply --3way --whitespace=fix P
    | FuzzyPatch(patch: string, reverse: bool, fuzz: int)   // patch -p1 -R --fuzz=N -i P  /  patch -p1 --fuzz=N --forward -i P
    | FindRej                                               // find . -name '*.rej' -type f ...
    | GitAddAll                                             // git add -A
    | GitCommit                                             // git commit -m ... -a --allow-empty
    | GitTag(name: string)                                  // git tag -f NAME
    | GitReset(name: string)                                // git reset --hard NAME
    | GitClean                                              // git clean -fd
    | DeleteRej                                             // find . -name *.rej -type f -delete

  /**
   * What running a command does: its exit status, and the tree it leaves. Only the
   * commands for which `Mutates` holds have an effect; the others leave the tree alone.
   */
  datatype Tools = Tools(status: (Cmd, Tree) -> int, effect: (Cmd, Tree) -> Tree)

  /** The patch-landing commands change the tree, whether or not they succeed. */
  predicate Mutates(c: Cmd) {
    c.GitApply? || c.FuzzyPatch?
  }

  /** A conflict artifact: the file `patch` writes for hunks it could not place. */
  predicate IsRej(p: string) {
    EndsWith(p, ".rej")
  }

  /** Some conflict artifact is present: `find . -name '*.rej' -type f` prints something. */
  predicate HasRej(t: Tree) {
    exists p :: p in t && IsRej(p)
  }

  /** The tree after every conflict artifact has been deleted. */
  function RemoveRej(t: Tree): (r: Tree)
    ensures !HasRej(r)
    ensures forall p :: p in r <==> p in t && !IsRej(p)
    ensures forall p :: p in r ==> r[p] == t[p]
  {
    map p | p in t && !IsRej(p) :: t[p]
  }
}
