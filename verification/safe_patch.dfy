/**
 * The safe single-patch tool (scripts/safe-patch.py): probe, confirm if the patch
 * already seems applied, checkpoint (commit plus forced tag), tiered apply, and on
 * failure either restore the checkpoint or leave the tree for inspection.
 */
module SafePatch {
  import opened Outcomes
  import opened Paths
  import opened Vcs
  import Mixin

  /** The fuzz factor of the fallback `patch` command. */
  const Fuzz := 2

  /** The command line: patch file, --version, --release, --no-revert, --checkpoint-tag. */
  datatype Args = Args(patchFile: string, version: Option<string>, release: Option<string>,
                       noRevert: bool, checkpointTag: string)

  /** How a run ends: sys.exit(code), an exception escaping `main`, or a KeyboardInterrupt. */
  datatype Ending = Exit(code: int) | Raised(error: Error) | Interrupted

  /**
   * The `__main__` block. SystemExit is not an `Exception`, so an exit code passes
   * through unchanged; an interrupt ends with 130 and any other exception with 1.
   */
  function ProcessExitCode(e: Ending): (code: int)
    ensures e.Exit? ==> code == e.code
    ensures e.Interrupted? ==> code == 130
    ensures e.Raised? ==> code == 1
  {
    match e
    case Exit(c) => c
    case Interrupted => 130
    case Raised(_) => 1
  }

  /** The repository: working tree, the snapshot HEAD points to, tags, and the commands run. */
  datatype RepoState = RepoState(tree: Tree, head: Tree, tags: map<string, Tree>, log: seq<Cmd>)

  // ---------------------------------------------------------------------------
  // The interactive reply
  // ---------------------------------------------------------------------------

  /**
   * The characters `str.strip()` removes: those for which `str.isspace()` holds,
   * that is tab, line feed, vertical tab, form feed, carriage return, the four
   * ASCII separators 0x1C-0x1F, space, and the Unicode spaces and line breaks.
   */
  predicate IsSpace(c: char) {
    ('\t' <= c <= '\r') || ('\U{1C}' <= c <= ' ')
    || c == '\U{85}' || c == '\U{A0}' || c == '\U{1680}'
    || ('\U{2000}' <= c <= '\U{200A}') || c == '\U{2028}' || c == '\U{2029}'
    || c == '\U{202F}' || c == '\U{205F}' || c == '\U{3000}'
  }

  function StripLeft(s: string): (r: string)
    ensures |r| <= |s| && r == s[|s| - |r|..]
    ensures forall i :: 0 <= i < |s| - |r| ==> IsSpace(s[i])
    ensures r != [] ==> !IsSpace(r[0])
  {
    if s != [] && IsSpace(s[0]) then StripLeft(s[1..]) else s
  }

  function StripRight(s: string): (r: string)
    ensures |r| <= |s| && r == s[..|r|]
    ensures forall i :: |r| <= i < |s| ==> IsSpace(s[i])
    ensures r != [] ==> !IsSpace(r[|r| - 1])
  {
    if s != [] && IsSpace(s[|s| - 1]) then StripRight(s[..|s| - 1]) else s
  }

  /** `str.strip()` */
  function Strip(s: string): (r: string)
    ensures |r| <= |s|
    ensures r != [] ==> !IsSpace(r[0]) && !IsSpace(r[|r| - 1])
    ensures r == [] <==> AllSpace(s)
  {
    StripRight(StripLeft(s))
  }

  function LowerChar(c: char): char {
    if 'A' <= c <= 'Z' then (c as int - 'A' as int + 'a' as int) as char else c
  }

  /** `str.lower()` on ASCII letters. */
  function Lower(s: string): (r: string)
    ensures |r| == |s| && forall i :: 0 <= i < |s| ==> r[i] == LowerChar(s[i])
  {
    if s == [] then [] else [LowerChar(s[0])] + Lower(s[1..])
  }

  /** The reply to "Continue anyway? [y/N]" says yes. */
  predicate Confirms(reply: string)
    ensures Confirms(reply) ==> |Strip(reply)| == 1 || |Strip(reply)| == 3
    ensures Confirms(reply) ==> !AllSpace(reply)
  {
    var r := Lower(Strip(reply));
    r == "y" || r == "yes"
  }

  predicate AllSpace(s: string) {
    forall i :: 0 <= i < |s| ==> IsSpace(s[i])
  }

  /** A word padded with whitespace on both sides strips back to the word. */
  lemma {:induction false} StripPadded(pre: string, w: string, post: string)
    requires AllSpace(pre) && AllSpace(post)
    requires w == [] || (!IsSpace(w[0]) && !IsSpace(w[|w| - 1]))
    ensures w != [] ==> Strip(pre + w + post) == w
  {
    if w != [] {
      StripLeftPadded(pre, w + post);
      assert pre + w + post == pre + (w + post);
      StripRightPadded(w, post);
    }
  }

  lemma {:induction false} StripLeftPadded(pre: string, rest: string)
    requires AllSpace(pre) && rest != [] && !IsSpace(rest[0])
    ensures StripLeft(pre + rest) == rest
  {
    if pre != [] {
      assert (pre + rest)[1..] == pre[1..] + rest;
      StripLeftPadded(pre[1..], rest);
    } else {
      assert pre + rest == rest;
    }
  }

  lemma {:induction false} StripRightPadded(rest: string, post: string)
    requires AllSpace(post) && rest != [] && !IsSpace(rest[|rest| - 1])
    ensures StripRight(rest + post) == rest
  {
    if post != [] {
      var init := post[..|post| - 1];
      assert (rest + post)[..|rest + post| - 1] == rest + init;
      StripRightPadded(rest, init);
    } else {
      assert rest + post == rest;
    }
  }

  /**
   * The reply is a yes exactly when, whitespace aside, it is "y" or "yes" in any
   * letter case.
   */
  lemma ConfirmsExactlyYes(pre: string, w: string, post: string)
    requires AllSpace(pre) && AllSpace(post)
    requires w != [] && !IsSpace(w[0]) && !IsSpace(w[|w| - 1])
    ensures Confirms(pre + w + post) <==> Lower(w) == "y" || Lower(w) == "yes"
  {
    StripPadded(pre, w, post);
  }

  /** An ASCII separator counts as whitespace: "\x1cyes" is a yes. */
  lemma SeparatorPaddedYesConfirms()
    ensures Confirms("\U{1C}yes")
  {
    assert "\U{1C}yes" == "\U{1C}" + "yes" + "";
    assert Lower("yes") == "yes";
    ConfirmsExactlyYes("\U{1C}", "yes", "");
  }

  /** A blank reply (the default N) is a no. */
  lemma BlankReplyDeclines(reply: string)
    requires AllSpace(reply)
    ensures !Confirms(reply)
  {
    assert StripLeft(reply) == [];
  }

  // ---------------------------------------------------------------------------
  // The version-control primitives
  // ---------------------------------------------------------------------------

  /**
   * `git reset --hard` onto `snap`: tracked files take their contents in `snap`;
   * files that neither the old HEAD nor `snap` track stay where they are.
   */
  function ResetHard(t: Tree, oldHead: Tree, snap: Tree): Tree {
    (map p | p in t && p !in oldHead && p !in snap :: t[p]) + snap
  }

  /** `git clean -fd`: removes every file that HEAD does not track. */
  function CleanUntracked(t: Tree, head: Tree): Tree {
    map p | p in t && p in head :: t[p]
  }

  /** A hard reset followed by a clean leaves exactly the snapshot. */
  lemma ResetThenCleanRestores(t: Tree, oldHead: Tree, snap: Tree)
    ensures CleanUntracked(ResetHard(t, oldHead, snap), snap) == snap
  {
    var r := CleanUntracked(ResetHard(t, oldHead, snap), snap);
    assert r.Keys == snap.Keys;
    forall p | p in snap ensures r[p] == snap[p] { }
  }

  // ---------------------------------------------------------------------------
  // The steps of the tool, as functions of the repository state
  // ---------------------------------------------------------------------------

  /** is_patch_applied: forward dry run; only if that fails, the reverse dry run. */
  function Probe(s: RepoState, tools: Tools, p: string): (r: (RepoState, bool))
    ensures r.0.tree == s.tree && r.0.head == s.head && r.0.tags == s.tags
    ensures tools.status(DryRun(p, false), s.tree) == 0 ==> !r.1 && r.0.log == s.log + [DryRun(p, false)]
    ensures tools.status(DryRun(p, false), s.tree) != 0 ==> r.0.log == s.log + [DryRun(p, false), DryRun(p, true)]
    ensures r.1 <==> tools.status(DryRun(p, false), s.tree) != 0 && tools.status(DryRun(p, true), s.tree) == 0
  {
    var fwd := DryRun(p, false);
    var rev := DryRun(p, true);
    if tools.status(fwd, s.tree) == 0 then (s.(log := s.log + [fwd]), false)
    else (s.(log := s.log + [fwd, rev]), tools.status(rev, s.tree) == 0)
  }

  /** The snapshot a checkpoint records: the working tree if the commit succeeds, else the old HEAD. */
  function CheckpointOf(s: RepoState, tools: Tools): Tree {
    if tools.status(GitCommit, s.tree) == 0 then s.tree else s.head
  }

  /**
   * create_checkpoint: `git add -A`, `git commit -a --allow-empty` (its failure is
   * ignored), then `git tag -f` (its failure raises CalledProcessError).
   */
  function Checkpoint(s: RepoState, tools: Tools, tag: string): (r: (RepoState, Option<Error>))
    ensures r.0.tree == s.tree
    ensures r.0.log == s.log + [GitAddAll, GitCommit, GitTag(tag)]
    ensures r.0.head == CheckpointOf(s, tools)
    ensures r.1.None? <==> tools.status(GitTag(tag), s.tree) == 0
    ensures r.1.None? ==> r.0.tags == s.tags[tag := CheckpointOf(s, tools)]
    ensures r.1.Some? ==> r.0.tags == s.tags && r.1.value.CalledProcessError?
  {
    var head := CheckpointOf(s, tools);
    var log := s.log + [GitAddAll, GitCommit, GitTag(tag)];
    if tools.status(GitTag(tag), s.tree) == 0 then (RepoState(s.tree, head, s.tags[tag := head], log), None)
    else (RepoState(s.tree, head, s.tags, log), Some(CalledProcessError("git tag -f " + tag)))
  }

  /** `git apply` succeeds on tree `t`. */
  predicate GitApplies(tools: Tools, p: string, t: Tree) {
    tools.status(GitApply(p), t) == 0
  }

  /** `patch -p1 --fuzz=2 --forward` succeeds, run on what a failed `git apply` left. */
  predicate FuzzyApplies(tools: Tools, p: string, t: Tree) {
    tools.status(FuzzyPatch(p, false, Fuzz), tools.effect(GitApply(p), t)) == 0
  }

  /** The tree an apply attempt leaves. */
  function TreeAfterApply(tools: Tools, p: string, t: Tree): Tree {
    var t1 := tools.effect(GitApply(p), t);
    if GitApplies(tools, p, t) then t1 else tools.effect(FuzzyPatch(p, false, Fuzz), t1)
  }

  /** apply_patch: `git apply --3way --whitespace=fix`, then the fuzzy `patch`, then the .rej search. */
  function Apply(s: RepoState, tools: Tools, p: string): (r: (RepoState, bool))
    ensures r.0.head == s.head && r.0.tags == s.tags && r.0.tree == TreeAfterApply(tools, p, s.tree)
    ensures GitApplies(tools, p, s.tree) ==> r.1 && r.0.log == s.log + [GitApply(p)]
    ensures !GitApplies(tools, p, s.tree) ==> (r.1 <==> FuzzyApplies(tools, p, s.tree))
    ensures !GitApplies(tools, p, s.tree) && r.1 ==> r.0.log == s.log + [GitApply(p), FuzzyPatch(p, false, Fuzz)]
    ensures !r.1 ==> r.0.log == s.log + [GitApply(p), FuzzyPatch(p, false, Fuzz), FindRej]
  {
    var t1 := tools.effect(GitApply(p), s.tree);
    if GitApplies(tools, p, s.tree) then
      (s.(tree := t1, log := s.log + [GitApply(p)]), true)
    else
      var t2 := tools.effect(FuzzyPatch(p, false, Fuzz), t1);
      if FuzzyApplies(tools, p, s.tree) then
        (s.(tree := t2, log := s.log + [GitApply(p), FuzzyPatch(p, false, Fuzz)]), true)
      else
        (s.(tree := t2, log := s.log + [GitApply(p), FuzzyPatch(p, false, Fuzz), FindRej]), false)
  }

  /** revert_to_checkpoint: `git reset --hard TAG` (a failure exits), then `git clean -fd`. */
  function Revert(s: RepoState, tools: Tools, tag: string): (r: (RepoState, bool))
    ensures r.1 <==> tag in s.tags && tools.status(GitReset(tag), s.tree) == 0
    ensures r.1 ==> r.0.tree == s.tags[tag] && r.0.head == s.tags[tag] && r.0.log == s.log + [GitReset(tag), GitClean]
    ensures !r.1 ==> r.0.tree == s.tree && r.0.head == s.head && r.0.log == s.log + [GitReset(tag)]
    ensures r.0.tags == s.tags
  {
    if tag in s.tags && tools.status(GitReset(tag), s.tree) == 0 then
      var snap := s.tags[tag];
      ResetThenCleanRestores(s.tree, s.head, snap);
      (RepoState(CleanUntracked(ResetHard(s.tree, s.head, snap), snap), snap, s.tags, s.log + [GitReset(tag), GitClean]), true)
    else
      (s.(log := s.log + [GitReset(tag)]), false)
  }

  /** cleanup_rej_files: delete every .rej file. */
  function CleanupRej(s: RepoState): (r: RepoState)
    ensures !HasRej(r.tree) && r.log == s.log + [DeleteRej]
    ensures forall p :: p in s.tree && !IsRej(p) ==> p in r.tree && r.tree[p] == s.tree[p]
    ensures r.head == s.head && r.tags == s.tags
  {
    s.(tree := RemoveRej(s.tree), log := s.log + [DeleteRej])
  }

  /**
   * The body of `with temp_cd(src_dir)` in `main`, from the git-repository check to
   * the final sys.exit: the tool's state machine.
   */
  function SafeApply(s: RepoState, tools: Tools, a: Args, isGitRepo: bool, reply: string): (r: (RepoState, Ending))
    ensures !Proceeds(s, tools, a, isGitRepo, reply) ==> r.0.tree == s.tree && r.0.tags == s.tags && r.1.Exit?
    ensures r.1.Raised? ==> r.0.tree == s.tree && r.1.error.CalledProcessError?
  {
    if !isGitRepo then (s, Exit(1))
    else
      var (s1, applied) := Probe(s, tools, a.patchFile);
      if applied && !Confirms(reply) then (s1, Exit(0))
      else
        var (s2, err) := Checkpoint(s1, tools, a.checkpointTag);
        if err.Some? then (s2, Raised(err.value))
        else ApplyOrRollBack(s2, tools, a)
  }

  /** Once the checkpoint is in place: apply, and on failure keep the tree or restore the checkpoint. */
  function ApplyOrRollBack(s: RepoState, tools: Tools, a: Args): (r: (RepoState, Ending))
    ensures r.1 == Exit(0) || r.1 == Exit(1)
    ensures r.1 == Exit(0) <==> PatchApplies(tools, a.patchFile, s.tree)
    ensures r.1 == Exit(0) ==> r.0.tree == TreeAfterApply(tools, a.patchFile, s.tree)
    ensures r.0.tags == s.tags
  {
    var (s3, ok) := Apply(s, tools, a.patchFile);
    if ok then (s3, Exit(0))
    else if a.noRevert then (s3, Exit(1))
    else
      var (s4, reverted) := Revert(s3, tools, a.checkpointTag);
      if !reverted then (s4, Exit(1))
      else (CleanupRej(s4), Exit(1))
  }

  // ---------------------------------------------------------------------------
  // What the state machine promises
  // ---------------------------------------------------------------------------

  /** The run goes past the probe: a git repository, and no already-applied patch declined. */
  predicate Proceeds(s: RepoState, tools: Tools, a: Args, isGitRepo: bool, reply: string) {
    isGitRepo && (!Probe(s, tools, a.patchFile).1 || Confirms(reply))
  }

  /** The patch goes in by one of the two tiers. */
  predicate PatchApplies(tools: Tools, p: string, t: Tree) {
    GitApplies(tools, p, t) || FuzzyApplies(tools, p, t)
  }

  /** In `cmds`, the checkpoint tag comes before anything that changes the tree. */
  predicate TaggedBeforeChange(cmds: seq<Cmd>, tag: string) {
    exists k :: 0 <= k < |cmds| && cmds[k] == GitTag(tag) && forall i :: 0 <= i < k ==> !Mutates(cmds[i])
  }

  predicate AnyMutation(cmds: seq<Cmd>) {
    exists i :: 0 <= i < |cmds| && Mutates(cmds[i])
  }

  /** Outside a git repository nothing runs and the tool exits with 1. */
  lemma NotGitRepoExits(s: RepoState, tools: Tools, a: Args, reply: string)
    ensures SafeApply(s, tools, a, false, reply) == (s, Exit(1))
  {
  }

  /**
   * An already-applied patch and a reply other than yes: exit 0 after the two dry
   * runs, with no checkpoint and no change to tree, HEAD or tags.
   */
  lemma DeclinedRunChangesNothing(s: RepoState, tools: Tools, a: Args, reply: string)
    requires Probe(s, tools, a.patchFile).1 && !Confirms(reply)
    ensures var (r, e) := SafeApply(s, tools, a, true, reply);
            e == Exit(0) && r.tree == s.tree && r.head == s.head && r.tags == s.tags
            && r.log == s.log + [DryRun(a.patchFile, false), DryRun(a.patchFile, true)]
  {
  }

  /** A failing `git tag -f` escapes as CalledProcessError before any patch command runs. */
  lemma TagFailureRaises(s: RepoState, tools: Tools, a: Args, isGitRepo: bool, reply: string)
    requires Proceeds(s, tools, a, isGitRepo, reply)
    requires tools.status(GitTag(a.checkpointTag), s.tree) != 0
    ensures var (r, e) := SafeApply(s, tools, a, isGitRepo, reply);
            e.Raised? && e.error.CalledProcessError? && r.tree == s.tree && r.tags == s.tags
  {
  }

  /** A patch that goes in: exit 0, the tree the apply left, the checkpoint tag kept for a manual revert. */
  lemma AppliedPatchSucceeds(s: RepoState, tools: Tools, a: Args, isGitRepo: bool, reply: string)
    requires Proceeds(s, tools, a, isGitRepo, reply)
    requires tools.status(GitTag(a.checkpointTag), s.tree) == 0
    requires PatchApplies(tools, a.patchFile, s.tree)
    ensures var (r, e) := SafeApply(s, tools, a, isGitRepo, reply);
            e == Exit(0) && r.tree == TreeAfterApply(tools, a.patchFile, s.tree)
            && r.tags == s.tags[a.checkpointTag := CheckpointOf(s, tools)]
  {
  }

  /** With --no-revert a failed patch exits 1 and leaves the tree as the attempt left it, with no reset. */
  lemma NoRevertKeepsFailedTree(s: RepoState, tools: Tools, a: Args, isGitRepo: bool, reply: string)
    requires Proceeds(s, tools, a, isGitRepo, reply)
    requires tools.status(GitTag(a.checkpointTag), s.tree) == 0
    requires !PatchApplies(tools, a.patchFile, s.tree) && a.noRevert
    ensures var (r, e) := SafeApply(s, tools, a, isGitRepo, reply);
            e == Exit(1) && r.tree == TreeAfterApply(tools, a.patchFile, s.tree)
            && GitReset(a.checkpointTag) !in r.log[|s.log|..]
  {
    var (r, e) := SafeApply(s, tools, a, isGitRepo, reply);
    var p := a.patchFile;
    var (s1, _) := Probe(s, tools, p);
    assert r.log[|s.log|..] == s1.log[|s.log|..] + [GitAddAll, GitCommit, GitTag(a.checkpointTag),
                                                    GitApply(p), FuzzyPatch(p, false, Fuzz), FindRej];
  }

  /**
   * Without --no-revert a failed patch exits 1 and, when the reset succeeds, leaves
   * exactly the checkpoint without its .rej files: the pre-run tree when nothing
   * there was a .rej file and the checkpoint commit went through.
   */
  lemma FailedPatchIsRolledBack(s: RepoState, tools: Tools, a: Args, isGitRepo: bool, reply: string)
    requires Proceeds(s, tools, a, isGitRepo, reply)
    requires tools.status(GitTag(a.checkpointTag), s.tree) == 0
    requires !PatchApplies(tools, a.patchFile, s.tree) && !a.noRevert
    requires tools.status(GitReset(a.checkpointTag), TreeAfterApply(tools, a.patchFile, s.tree)) == 0
    ensures var (r, e) := SafeApply(s, tools, a, isGitRepo, reply);
            e == Exit(1) && r.tree == RemoveRej(CheckpointOf(s, tools)) && r.head == CheckpointOf(s, tools)
    ensures !HasRej(s.tree) && tools.status(GitCommit, s.tree) == 0 ==>
            SafeApply(s, tools, a, isGitRepo, reply).0.tree == s.tree
  {
    if !HasRej(s.tree) && tools.status(GitCommit, s.tree) == 0 {
      RemoveRejOfClean(s.tree);
    }
  }

  /** A failed reset ends the run with 1 and leaves the failed tree in place. */
  lemma FailedResetExits(s: RepoState, tools: Tools, a: Args, isGitRepo: bool, reply: string)
    requires Proceeds(s, tools, a, isGitRepo, reply)
    requires tools.status(GitTag(a.checkpointTag), s.tree) == 0
    requires !PatchApplies(tools, a.patchFile, s.tree) && !a.noRevert
    requires tools.status(GitReset(a.checkpointTag), TreeAfterApply(tools, a.patchFile, s.tree)) != 0
    ensures var (r, e) := SafeApply(s, tools, a, isGitRepo, reply);
            e == Exit(1) && r.tree == TreeAfterApply(tools, a.patchFile, s.tree)
  {
  }

  /** Deleting .rej files from a tree that has none changes nothing. */
  lemma RemoveRejOfClean(t: Tree)
    requires !HasRej(t)
    ensures RemoveRej(t) == t
  {
    assert RemoveRej(t).Keys == t.Keys;
  }

  /** The steps after the checkpoint only append commands and leave the tags alone. */
  lemma RollBackKeepsLogAndTags(s: RepoState, tools: Tools, a: Args)
    ensures var r := ApplyOrRollBack(s, tools, a).0;
            |s.log| <= |r.log| && r.log[..|s.log|] == s.log && r.tags == s.tags
  {
    var s3 := Apply(s, tools, a.patchFile).0;
    var s4 := Revert(s3, tools, a.checkpointTag).0;
    var r := ApplyOrRollBack(s, tools, a).0;
    assert s3.log[..|s.log|] == s.log;
    assert s4.log[..|s.log|] == s.log;
    assert CleanupRej(s4).log[..|s.log|] == s.log;
    assert r == s3 || r == s4 || r == CleanupRej(s4);
  }

  /** A run that stops before or at the checkpoint only dry-runs and checkpoints: it changes nothing. */
  lemma StopsBeforeApply(s: RepoState, tools: Tools, a: Args, isGitRepo: bool, reply: string)
    requires !Proceeds(s, tools, a, isGitRepo, reply) || tools.status(GitTag(a.checkpointTag), s.tree) != 0
    ensures var r := SafeApply(s, tools, a, isGitRepo, reply).0;
            |s.log| <= |r.log| && r.log[..|s.log|] == s.log && !AnyMutation(r.log[|s.log|..])
  {
    var r := SafeApply(s, tools, a, isGitRepo, reply).0;
    var p := a.patchFile;
    var probes := if tools.status(DryRun(p, false), s.tree) == 0 then [DryRun(p, false)]
                  else [DryRun(p, false), DryRun(p, true)];
    var tail: seq<Cmd>;
    if !Proceeds(s, tools, a, isGitRepo, reply) {
      tail := StoppedAtGate(s, tools, a, isGitRepo, reply, probes);
    } else {
      tail := probes + [GitAddAll, GitCommit, GitTag(a.checkpointTag)];
      StoppedAtTag(s, tools, a, isGitRepo, reply, probes);
    }
    assert r.log[|s.log|..] == tail;
    NoMutationBeforeApply(probes, tail, a.checkpointTag);
  }

  /** Dry runs, add, commit and tag change nothing. */
  lemma NoMutationBeforeApply(probes: seq<Cmd>, tail: seq<Cmd>, tag: string)
    requires forall i :: 0 <= i < |probes| ==> probes[i].DryRun?
    requires tail == [] || tail == probes || tail == probes + [GitAddAll, GitCommit, GitTag(tag)]
    ensures !AnyMutation(tail)
  {
    forall i | 0 <= i < |tail| ensures !Mutates(tail[i]) {
      if i >= |probes| {
        assert tail[i] in [GitAddAll, GitCommit, GitTag(tag)];
      }
    }
  }

  /** Stopped by the git test or the confirmation: at most the two dry runs ran. */
  lemma StoppedAtGate(s: RepoState, tools: Tools, a: Args, isGitRepo: bool, reply: string, probes: seq<Cmd>)
    returns (tail: seq<Cmd>)
    requires !Proceeds(s, tools, a, isGitRepo, reply)
    requires probes == if tools.status(DryRun(a.patchFile, false), s.tree) == 0 then [DryRun(a.patchFile, false)]
                       else [DryRun(a.patchFile, false), DryRun(a.patchFile, true)]
    ensures SafeApply(s, tools, a, isGitRepo, reply).0.log == s.log + tail
    ensures tail == [] || tail == probes
  {
    if !isGitRepo {
      tail := [];
    } else {
      tail := probes;
    }
  }

  /** Stopped by a failing tag: the dry runs, then add, commit and tag ran. */
  lemma StoppedAtTag(s: RepoState, tools: Tools, a: Args, isGitRepo: bool, reply: string, probes: seq<Cmd>)
    requires Proceeds(s, tools, a, isGitRepo, reply) && tools.status(GitTag(a.checkpointTag), s.tree) != 0
    requires probes == if tools.status(DryRun(a.patchFile, false), s.tree) == 0 then [DryRun(a.patchFile, false)]
                       else [DryRun(a.patchFile, false), DryRun(a.patchFile, true)]
    ensures SafeApply(s, tools, a, isGitRepo, reply).0.log == s.log + probes + [GitAddAll, GitCommit, GitTag(a.checkpointTag)]
  {
  }

  /**
   * Whatever happens, the commands of one run only extend the log, and if any of
   * them changed the tree, the checkpoint tag was set first (and still records the
   * pre-patch snapshot at the end).
   */
  lemma CheckpointPrecedesChanges(s: RepoState, tools: Tools, a: Args, isGitRepo: bool, reply: string)
    ensures var r := SafeApply(s, tools, a, isGitRepo, reply).0;
            |s.log| <= |r.log| && r.log[..|s.log|] == s.log
            && (AnyMutation(r.log[|s.log|..]) ==>
                  TaggedBeforeChange(r.log[|s.log|..], a.checkpointTag)
                  && r.tags == s.tags[a.checkpointTag := CheckpointOf(s, tools)])
  {
    if !Proceeds(s, tools, a, isGitRepo, reply) || tools.status(GitTag(a.checkpointTag), s.tree) != 0 {
      StopsBeforeApply(s, tools, a, isGitRepo, reply);
    } else {
      TagPrecedesApply(s, tools, a, isGitRepo, reply);
    }
  }

  /** Past the probe and with a passing tag, the run goes on from the checkpointed state. */
  lemma RunPassesCheckpoint(s: RepoState, tools: Tools, a: Args, isGitRepo: bool, reply: string)
    requires Proceeds(s, tools, a, isGitRepo, reply)
    requires tools.status(GitTag(a.checkpointTag), s.tree) == 0
    ensures SafeApply(s, tools, a, isGitRepo, reply)
            == ApplyOrRollBack(Checkpoint(Probe(s, tools, a.patchFile).0, tools, a.checkpointTag).0, tools, a)
  {
  }

  /** `log` starts with `base + pre`: the commands after `base` start with `pre`. */
  lemma CommandsAfter(log: seq<Cmd>, base: seq<Cmd>, pre: seq<Cmd>)
    requires |base + pre| <= |log| && log[..|base + pre|] == base + pre
    ensures |base| <= |log| && log[..|base|] == base && log[|base|..][..|pre|] == pre
  {
    assert log[..|base|] == (base + pre)[..|base|];
    assert forall i :: 0 <= i < |pre| ==> log[|base|..][i] == (base + pre)[|base| + i];
  }

  /** After a passing checkpoint, the commands of the run begin with dry runs and the checkpoint, tag last. */
  lemma TagPrecedesApply(s: RepoState, tools: Tools, a: Args, isGitRepo: bool, reply: string)
    requires Proceeds(s, tools, a, isGitRepo, reply)
    requires tools.status(GitTag(a.checkpointTag), s.tree) == 0
    ensures var r := SafeApply(s, tools, a, isGitRepo, reply).0;
            |s.log| <= |r.log| && r.log[..|s.log|] == s.log
            && TaggedBeforeChange(r.log[|s.log|..], a.checkpointTag)
            && r.tags == s.tags[a.checkpointTag := CheckpointOf(s, tools)]
  {
    var tag := a.checkpointTag;
    var s1 := Probe(s, tools, a.patchFile).0;
    var s2 := Checkpoint(s1, tools, tag).0;
    RunPassesCheckpoint(s, tools, a, isGitRepo, reply);
    var r := ApplyOrRollBack(s2, tools, a).0;
    RollBackKeepsLogAndTags(s2, tools, a);
    var probes := s1.log[|s.log|..];
    assert forall i :: 0 <= i < |probes| ==> probes[i].DryRun?;
    var pre := probes + [GitAddAll, GitCommit, GitTag(tag)];
    assert s2.log == s.log + pre;
    CommandsAfter(r.log, s.log, pre);
    var added := r.log[|s.log|..];
    assert added[|pre| - 1] == pre[|pre| - 1] == GitTag(tag);
    assert forall i :: 0 <= i < |pre| - 1 ==> added[i] == pre[i] && !Mutates(pre[i]);
  }

  /** Every run ends in exit 0, exit 1 or a CalledProcessError from `git tag`. */
  lemma RunEndings(s: RepoState, tools: Tools, a: Args, isGitRepo: bool, reply: string)
    ensures var e := SafeApply(s, tools, a, isGitRepo, reply).1;
            e == Exit(0) || e == Exit(1) || (e.Raised? && e.error.CalledProcessError?)
    ensures var e := SafeApply(s, tools, a, isGitRepo, reply).1;
            e == Exit(0) <==> isGitRepo && ((Probe(s, tools, a.patchFile).1 && !Confirms(reply))
                                            || (Proceeds(s, tools, a, isGitRepo, reply)
                                                && tools.status(GitTag(a.checkpointTag), s.tree) == 0
                                                && PatchApplies(tools, a.patchFile, s.tree)))
  {
  }

  // ---------------------------------------------------------------------------
  // The tool as it runs, step by step
  // ---------------------------------------------------------------------------

  /** The repository the tool works on, and the process's working directory. */
  class Workspace {
    var tree: Tree
    var head: Tree
    var tags: map<string, Tree>
    var log: seq<Cmd>
    const tools: Tools
    const shell: Mixin.Shell

    function State(): RepoState
      reads this
    {
      RepoState(tree, head, tags, log)
    }

    constructor (start: RepoState, tools: Tools, shell: Mixin.Shell)
      ensures State() == start && this.tools == tools && this.shell == shell
    {
      tree, head, tags, log := start.tree, start.head, start.tags, start.log;
      this.tools, this.shell := tools, shell;
    }

    /** Runs one external command that does not touch the repository metadata. */
    method Exec(c: Cmd) returns (status: int)
      modifies this
      ensures status == tools.status(c, old(tree))
      ensures tree == (if Mutates(c) then tools.effect(c, old(tree)) else old(tree))
      ensures log == old(log) + [c] && head == old(head) && tags == old(tags)
    {
      status := tools.status(c, tree);
      if Mutates(c) {
        tree := tools.effect(c, tree);
      }
      log := log + [c];
    }

    method IsPatchApplied(p: string) returns (applied: bool)
      modifies this
      ensures (State(), applied) == Probe(old(State()), tools, p)
    {
      ghost var log0 := log;
      var result := Exec(DryRun(p, false));
      if result == 0 {
        return false;
      }
      result := Exec(DryRun(p, true));
      assert log == log0 + [DryRun(p, false), DryRun(p, true)];
      return result == 0;
    }

    method CreateCheckpoint(tag: string) returns (err: Option<Error>)
      modifies this
      ensures (State(), err) == Checkpoint(old(State()), tools, tag)
    {
      ghost var log0 := log;
      var _ := Exec(GitAddAll);
      var committed := Exec(GitCommit);
      if committed == 0 {
        head := tree;
      }
      var tagged := Exec(GitTag(tag));
      assert log == log0 + [GitAddAll, GitCommit, GitTag(tag)];
      if tagged != 0 {
        return Some(CalledProcessError("git tag -f " + tag));
      }
      tags := tags[tag := head];
      return None;
    }

    method ApplyPatch(p: string) returns (ok: bool)
      modifies this
      ensures (State(), ok) == Apply(old(State()), tools, p)
    {
      ghost var log0 := log;
      var result := Exec(GitApply(p));
      if result == 0 {
        return true;
      }
      result := Exec(FuzzyPatch(p, false, Fuzz));
      assert log == log0 + [GitApply(p), FuzzyPatch(p, false, Fuzz)];
      if result == 0 {
        return true;
      }
      var _ := Exec(FindRej);
      assert log == log0 + [GitApply(p), FuzzyPatch(p, false, Fuzz), FindRej];
      return false;   // with or without rejected hunks
    }

    method RevertToCheckpoint(tag: string) returns (reverted: bool)
      modifies this
      ensures (State(), reverted) == Revert(old(State()), tools, tag)
    {
      ghost var log0 := log;
      var reset := tools.status(GitReset(tag), tree);
      log := log + [GitReset(tag)];
      if tag !in tags || reset != 0 {
        return false;
      }
      var snap := tags[tag];
      tree := ResetHard(tree, head, snap);
      head := snap;
      log := log + [GitClean];
      assert log == log0 + [GitReset(tag), GitClean];
      tree := CleanUntracked(tree, head);
      return true;
    }

    method CleanupRejFiles()
      modifies this
      ensures State() == CleanupRej(old(State()))
    {
      var _ := Exec(DeleteRej);
      tree := RemoveRej(tree);
    }

    /** The body of `with temp_cd(src_dir)` in `main`. */
    method RunInSourceDir(a: Args, isGitRepo: bool, reply: string) returns (e: Ending)
      modifies this
      ensures (State(), e) == SafeApply(old(State()), tools, a, isGitRepo, reply)
    {
      if !isGitRepo {
        return Exit(1);
      }
      var applied := IsPatchApplied(a.patchFile);
      if applied && !Confirms(reply) {
        return Exit(0);
      }
      var err := CreateCheckpoint(a.checkpointTag);
      if err.Some? {
        return Raised(err.value);
      }
      var ok := ApplyPatch(a.patchFile);
      if ok {
        return Exit(0);
      }
      if a.noRevert {
        return Exit(1);
      }
      var reverted := RevertToCheckpoint(a.checkpointTag);
      if !reverted {
        return Exit(1);
      }
      CleanupRejFiles();
      return Exit(1);
    }

    /**
     * `main`: the patch file must exist, the source directory is looked up from the
     * current directory, and the state machine runs inside it; the process always
     * returns to the directory it started in. `fs` is the file system as seen from
     * the starting directory, `folders` its listing, `reply` the answer typed at the
     * prompt (read only when the patch seems applied).
     */
    method RunTool(a: Args, fs: FileSystem, folders: seq<string>, reply: string) returns (e: Ending)
      requires fs.Consistent()
      modifies this, shell
      ensures shell.cwd == old(shell.cwd)
      ensures var found := Mixin.SourceDir(".", a.version, a.release, folders, fs);
              if !fs.Exists(a.patchFile) || found.Err? then e == Exit(1) && State() == old(State())
              else if !(fs.Exists(found.value) && fs.IsDir(found.value)) then
                e == Raised(Mixin.EnterError(Join(old(shell.cwd), Norm(found.value)), fs.Exists(found.value)))
                && State() == old(State())
              else (State(), e) == SafeApply(old(State()), tools, a, fs.Exists(Join(found.value, ".git")), reply)
      ensures ProcessExitCode(e) == 0 || ProcessExitCode(e) == 1
      ensures e.Raised? ==> e.error.CalledProcessError?
                            || (e.error.NotADirectoryError? && Truthy(a.version) && Truthy(a.release))
    {
      if !fs.Exists(a.patchFile) {
        return Exit(1);
      }
      var found;
      if Truthy(a.version) && Truthy(a.release) {
        found := Mixin.FindSrcDir(".", a.version, a.release, folders, fs);
      } else {
        found := Mixin.FindSrcDir(".", None, None, folders, fs);
      }
      if found.Err? {
        return Exit(1);
      }
      Mixin.SourceDirFoundExists(".", a.version, a.release, folders, fs);
      var saved := shell.Enter(found.value, fs);
      if saved.Err? {
        return Raised(saved.error);
      }
      ghost var s0 := State();
      e := RunInSourceDir(a, fs.Exists(Join(found.value, ".git")), reply);
      RunEndings(s0, tools, a, fs.Exists(Join(found.value, ".git")), reply);
      shell.Leave(saved.value);
    }
  }
}
