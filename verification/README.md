# Camoufox patch-application engine in Dafny

This project models how the camoufox build scripts land source patches on the
Firefox tree, and proves properties of that model. It also models one small
payload validator from the Python library.

- `scripts/_mixin.py` (module `Mixin`, file `mixin.dfy`):
  - `patch` probes with a forward and a reverse dry run, skips a patch that is
    already in, tries `git apply --3way`, falls back to `patch --fuzz=N --forward`,
    and classifies a failure by looking for `.rej` files.
  - `run` gives a command's exit status, or ends the script.
  - The helpers: `temp_cd`, `find_src_dir`, `get_moz_target`, `list_patches`
    and `is_bootstrap_patch`.
- `scripts/safe-patch.py` (module `SafePatch`, file `safe_patch.dfy`): the
  interactive single-patch tool. It runs probe, confirmation, checkpoint (a
  commit plus a forced tag), tiered apply, and then either rollback or leaving the
  tree for inspection. It also maps exceptions to exit codes.
- `pythonlib/camoufox/battery.py` (module `Battery`, file `battery.dfy`):
  - `_build_payload` is the tri-state argument check: left out, `None`, or a value.
  - `set_battery` decides between sending an empty command and sending one with parameters.

Shared pieces:
- `outcomes.dfy` holds `Option`, `Result` and the Python exception kinds.
- `paths.dfy` holds `os.path.basename`, `os.path.join`, leading-`./` normalisation
  and a file-system view: the paths that exist and those that are directories.
  `temp_cd` and `main` are stated for a view in which every directory exists, as
  on a real file system (`FileSystem.Consistent`).
- `vcs.dfy` holds the source tree (`Tree`, a map from path to contents), the
  external commands (`Cmd`) and the `.rej` helpers.

External commands are an oracle, `Tools`:
- `status(cmd, tree)` is a command's exit status on a tree.
- `effect(cmd, tree)` is the tree that `git apply` or `patch` leave, whatever
  their status. Dry runs and searches never change the tree.

The version-control steps of the safe-patch tool follow these rules:
- A successful commit makes HEAD the working tree.
- `git tag -f` records HEAD.
- `git reset --hard` puts HEAD's tracked files back. A failed reset changes
  neither the tree nor HEAD.
- `git clean -fd` removes what HEAD does not track.
- A hard reset followed by a clean therefore yields exactly the tagged snapshot
  (`SafePatch.ResetThenCleanRestores`).

Each state-changing operation is a method. Its contract ties the new state to a
pure function of the old one, and the lemmas about those functions state what the
scripts promise. These methods are `Mixin.Checkout.Patch`, `Mixin.Shell` and the
`SafePatch.Workspace` methods.

Two behaviours of the code are worth stating outright:
- `list_patches` sorts by the plain basename string, so `10-foo.patch` comes
  before `2-bar.patch`. Numeric prefixes get no special order
  (`Mixin.ListPatchesIsNotNumeric`).
- When both tiers fail, `safe-patch.apply_patch` returns False whether or not a
  `.rej` file exists. `_mixin.patch` meant the no-`.rej` case as a quiet success,
  but as written it stops the build there too (see Findings).

## Model

| member | source | states |
|---|---|---|
| Mixin.EnterError | scripts/_mixin.py:24-25 | a missing path gives AssertionError "<abs path> does not exist."; an existing one that `os.chdir` cannot enter gives NotADirectoryError naming the path |
| Mixin.Shell.Enter | scripts/_mixin.py:20-25 | entering `temp_cd` succeeds exactly when the path exists and is a directory, moving into the absolute path and handing back the old directory; otherwise the directory is unchanged and the error is AssertionError (missing) or NotADirectoryError (not a directory) |
| Mixin.Shell.Leave | scripts/_mixin.py:27-30 | the `finally` puts the saved directory back |
| Mixin.Shell.WithTempCd | scripts/_mixin.py:19-30 | on every exit path (missing path, not a directory, normal end, exception in the body) the working directory afterwards is the one before; the body runs in the absolute path exactly when that is an existing directory (on a file system where every directory exists, exactly when it is a directory); the body's exception passes through unchanged |
| Mixin.IsSrcCandidate | scripts/_mixin.py:49-51 | the intended folder test: a camoufox-* directory under `root`; the path it accepts lies under `root` (the scan built on it: Mixin.FirstSrcIndex, Mixin.SourceDirIsFirstCandidate) |
| Mixin.FirstSrcIndex | scripts/_mixin.py:49-52 | the scan stops at the first camoufox-* directory: no earlier entry qualifies, and the entry found does |
| Mixin.SourceDir | scripts/_mixin.py:43-53 | the tree found lies under `root`; a failure is AssertionError exactly when version and release were both given, and FileNotFoundError otherwise (the exact results: Mixin.SourceDirNamedByRelease, Mixin.SourceDirIsFirstCandidate) |
| Mixin.SourceDirNamedByRelease | scripts/_mixin.py:43-47 | with version and release both non-empty, the tree is `root/camoufox-{version}-{release}` when that exists, and otherwise AssertionError "<path> does not exist." |
| Mixin.SourceDirIsFirstCandidate | scripts/_mixin.py:49-53 | otherwise the tree is found exactly when some listed entry is a camoufox-* directory, and it is `root/<entry>` for the first such entry in listing order; with none the error is FileNotFoundError "No camoufox-* folder found" |
| Mixin.SourceDirFoundExists | scripts/_mixin.py:43-53 | on a file system where every directory exists, the tree returned exists, and a tree found by the scan is a directory, so only a tree named by version and release can fail `temp_cd` |
| Mixin.FindSrcDir | scripts/_mixin.py:43-53 | the loop over the listing returns exactly what `SourceDir` describes (whose properties are the two lemmas above) |
| Mixin.IsDirTestMissesTreeUnderRoot | scripts/_mixin.py:49-51 | for every root that is not "." (non-empty, not starting with '.', not ending in '/'), the directory test as written (relative to the current directory) rejects the camoufox-* tree `root/<folder>` that the intended test accepts; `build/camoufox-135.0` is one instance |
| Mixin.IsSrcCandidateAsWritten | scripts/_mixin.py:49-51 | the folder test as written asks `isdir` about the bare name; it holds exactly when the intended test holds for the root "." (with any other root they can differ: Mixin.IsDirTestMissesTreeUnderRoot) |
| Mixin.FirstSrcIndexAsWritten | scripts/_mixin.py:49-52 | the scan as written stops at the first entry its own test accepts: no earlier entry passes it, and the entry found does |
| Mixin.ScanAgreesAtDot | scripts/_mixin.py:49-53 | for the root "." the scan as written stops at the same entry as the intended one, for every listing |
| Mixin.GetMozTarget | scripts/_mixin.py:56-64 | a triple is produced exactly for linux, windows and macos; any other target gives ValueError "Unsupported target: <target>" |
| Mixin.MozTargetRoundTrip | scripts/_mixin.py:56-64 | every triple produced names its target, its vendor (apple on macos, unknown for linux on arm64, pc otherwise) and its architecture: arm64 is spelt aarch64 on linux and macos, and every other arch is kept verbatim |
| Mixin.LeadingDigits | scripts/_mixin.py:80-81 | the count of leading digits: all digits before it, a non-digit at it |
| Mixin.IsBootstrapPatch | scripts/_mixin.py:80-81 | a bootstrap patch's basename starts with a digit and holds a '-' (the exact pattern: Mixin.BootstrapPatchIffPattern) |
| Mixin.BootstrapPatchIffPattern | scripts/_mixin.py:80-81 | `is_bootstrap_patch` holds exactly when the basename starts with one or more digits followed by '-' |
| Mixin.LexLeTotal | scripts/_mixin.py:78 | Python's string order is total |
| Mixin.LexLeTransitive | scripts/_mixin.py:78 | Python's string order is transitive |
| Mixin.ListPatches | scripts/_mixin.py:76-78 | the listing has as many entries as files were found (that it holds the same files, in basename order, stably: the three lemmas below) |
| Mixin.ListPatchesPermutes | scripts/_mixin.py:76-78 | the listing is a permutation of the files found |
| Mixin.ListPatchesSorted | scripts/_mixin.py:76-78 | the listing is in ascending order of basename string |
| Mixin.ListPatchesStable | scripts/_mixin.py:76-78 | files with the same basename keep their relative order (Python's sort is stable) |
| Mixin.BasenameAfterSlash | scripts/_mixin.py:78 | the sort key of `dir/name` is `name` |
| Mixin.ListTwoPatches | scripts/_mixin.py:76-78 | two patches in one directory are listed in the string order of their file names, whatever their directory |
| Mixin.ListPatchesIsNotNumeric | scripts/_mixin.py:76-78 | `patches/10-foo.patch` is listed before `patches/2-bar.patch`: the key is the string, not the number |
| Mixin.Run | scripts/_mixin.py:95-107 | an empty command runs nothing; a nonzero status with `exit_on_fail` ends in script_exit(1); otherwise the status is returned unchanged |
| Mixin.FailureEnd | scripts/_mixin.py:170-187 | after a failed fuzzy patch, the end is fatal (script_exit(1)) exactly when a .rej file is present, and otherwise `patch` returns |
| Mixin.FailureEndAsWritten | scripts/_mixin.py:172-187 | as written, a failure is fatal (script_exit(1)) exactly when the .rej search exits 0, and otherwise `patch` returns |
| Mixin.FindStatusMisclassifies | scripts/_mixin.py:172-187 | the status-based test as written makes a failure without .rej fatal and lets a failed search hide a .rej file, where the intended test does the opposite |
| Mixin.Probes | scripts/_mixin.py:119-130 | reverse mode runs no dry run; forward mode runs only the forward and reverse dry runs of this patch |
| Mixin.ApplyLanding | scripts/_mixin.py:132-187 | the apply stage starts with `git apply --3way` when it may (git checkout, forward) and with the fuzzy patch otherwise; it ends in script_exit(1) exactly when the .rej search ran and a .rej file is present, and otherwise returns |
| Mixin.PatchLanding | scripts/_mixin.py:110-187 | the reference `patch`: fatal exactly when the .rej search ran and a .rej file is present, otherwise it returns; the tree changes only if git apply or the fuzzy patch ran (the rest: the five Mixin.Patch* lemmas below) |
| Mixin.AsWritten | scripts/_mixin.py:172-187 | classifying a landing as the code does keeps its commands and tree; the ending changes only when the .rej search ran |
| Mixin.PatchLandingAsWritten | scripts/_mixin.py:110-187 | `patch` as written runs the same commands and leaves the same tree as the reference, and ends in script_exit(1) exactly when the .rej search ran and exited 0 |
| Mixin.AsWrittenWhenSkipped | scripts/_mixin.py:119-130 | as written, a skipped patch runs the two dry runs, leaves the tree alone and returns |
| Mixin.AsWrittenAfterProbes | scripts/_mixin.py:119-187 | as written, a patch that is not skipped runs its dry runs and then the apply stage, whose ending after a failure follows the search status |
| Mixin.PatchAsWrittenFatalOnFinishedSearch | scripts/_mixin.py:148-187 | when the .rej search completes (status 0), `patch` as written ends in script_exit(1) exactly when the fuzzy patch ran and failed; commands and tree are those of the reference landing, and its ending differs exactly when no .rej file was left |
| Mixin.CleanFailureIsFatalAsWritten | scripts/_mixin.py:148-187 | a forward fuzzy patch that fails on a tree with no .rej file, outside git, stops the build as written and returns quietly in the reference |
| Mixin.PatchSkipsAppliedPatch | scripts/_mixin.py:119-130 | forward mode starts with the forward dry run; if it fails and the reverse dry run succeeds, `patch` returns after the two dry runs with the tree untouched and no mutating command |
| Mixin.PatchReverseRunsOnlyPatch | scripts/_mixin.py:120-158 | in reverse mode the first command is `patch -R --fuzz=N` and nothing but it and the .rej search ever runs (no dry run, no git apply) |
| Mixin.PatchTriesGitFirst | scripts/_mixin.py:132-146 | `git apply --3way` runs exactly in a git checkout, going forward, with the patch not already in; it comes before the fuzzy patch; when it succeeds, the fuzzy patch never runs and `patch` returns with git's tree |
| Mixin.PatchFallsBackToFuzzy | scripts/_mixin.py:148-167 | the fuzzy patch runs exactly when the patch was not skipped and git apply was not tried or failed |
| Mixin.PatchClassifiesFailure | scripts/_mixin.py:167-187 | the .rej search runs exactly when the fuzzy patch ran and failed; the call ends in script_exit(1) exactly when that search finds a .rej file, and otherwise returns |
| Mixin.Checkout.Exec | scripts/_mixin.py:95-107 | running a command records it, returns its status and applies its effect only when it patches |
| Mixin.Checkout.ProbeStage | scripts/_mixin.py:119-130 | forward mode runs the forward dry run and, after a failure, the reverse one, and skips exactly when the patch is already in; reverse mode runs nothing; the tree is untouched |
| Mixin.Checkout.ApplyStage | scripts/_mixin.py:132-187 | past the probe, the commands run and the tree left are those of `ApplyLanding` (git apply when it may, then the fuzzy patch and the .rej search), and a failure ends by the search's exit status as the code tests it |
| Mixin.Checkout.Patch | scripts/_mixin.py:110-187 | the commands recorded (all but the `.rej` listing printed before a fatal exit), the tree left and the way `patch` ends are those of `PatchLandingAsWritten`: the reference `PatchLanding` (whose properties are the five lemmas above) with the status-based failure test |
| SafePatch.ProcessExitCode | scripts/safe-patch.py:306-317 | sys.exit codes pass through, KeyboardInterrupt gives 130, any other exception gives 1 |
| SafePatch.StripLeft | scripts/safe-patch.py:269 | removes exactly the leading whitespace in the sense of `str.isspace` (including the separators 0x1C-0x1F and the Unicode spaces): the result is a suffix, what was dropped is whitespace, the result does not start with whitespace |
| SafePatch.StripRight | scripts/safe-patch.py:269 | the same for trailing whitespace |
| SafePatch.Strip | scripts/safe-patch.py:269 | the stripped reply is no longer than the reply, has no whitespace at either end, and is empty exactly when the reply is all whitespace (a padded word strips back to it: SafePatch.StripPadded) |
| SafePatch.Lower | scripts/safe-patch.py:269 | lower-cases every letter and keeps the length |
| SafePatch.StripPadded | scripts/safe-patch.py:269 | a word padded with whitespace strips back to the word |
| SafePatch.Confirms | scripts/safe-patch.py:269-270 | a confirming reply strips to one or three characters and is never blank (exactly which replies confirm: SafePatch.ConfirmsExactlyYes) |
| SafePatch.ConfirmsExactlyYes | scripts/safe-patch.py:269-270 | a reply continues exactly when, whitespace aside, it is "y" or "yes" in any letter case |
| SafePatch.SeparatorPaddedYesConfirms | scripts/safe-patch.py:269-270 | a "yes" preceded by the separator 0x1C is a yes, as `str.strip` removes it |
| SafePatch.BlankReplyDeclines | scripts/safe-patch.py:269-270 | an empty or blank reply (the default N) declines |
| SafePatch.ResetThenCleanRestores | scripts/safe-patch.py:189-200 | `git reset --hard TAG` then `git clean -fd` leaves exactly the tagged snapshot, whatever the tree held |
| SafePatch.Probe | scripts/safe-patch.py:81-99 | a passing forward dry run gives False and the reverse dry run is not run; otherwise the result is True exactly when the reverse dry run passes; nothing changes the tree |
| SafePatch.Checkpoint | scripts/safe-patch.py:102-125 | add, commit and tag run in that order; the tree is untouched; a failed commit is ignored (the tag then records the old HEAD, else the working tree); a failed tag raises CalledProcessError and leaves the tags alone; a passing one moves only that tag |
| SafePatch.Apply | scripts/safe-patch.py:129-183 | success as soon as git apply passes, with no `patch`; otherwise success exactly when `patch --fuzz=2 --forward` passes; when both fail the result is False whatever .rej files exist, after the .rej search; HEAD and tags untouched |
| SafePatch.Revert | scripts/safe-patch.py:186-200 | success exactly when the tag exists and the reset passes, leaving tree and HEAD equal to the tagged snapshot after reset and clean; a failed reset leaves tree and HEAD unchanged and runs no clean |
| SafePatch.CleanupRej | scripts/safe-patch.py:205-209 | no .rej file remains and every other file keeps its contents |
| SafePatch.SafeApply | scripts/safe-patch.py:258-303 | a run that stops at the git test or the confirmation exits with tree and tags untouched; a raised error is CalledProcessError with the tree untouched (the rest: the lemmas below) |
| SafePatch.ApplyOrRollBack | scripts/safe-patch.py:277-303 | after the checkpoint the run exits 0 or 1, exits 0 exactly when one of the two tiers applies the patch, then with the tree the apply left, and never moves a tag |
| SafePatch.NotGitRepoExits | scripts/safe-patch.py:260-263 | outside a git repository nothing runs and the exit code is 1 |
| SafePatch.DeclinedRunChangesNothing | scripts/safe-patch.py:267-272 | an already-applied patch and a reply other than y/yes: exit 0 after the two dry runs only, with no checkpoint and tree, HEAD and tags unchanged |
| SafePatch.TagFailureRaises | scripts/safe-patch.py:121-122 | a failing `git tag -f` escapes as CalledProcessError before any patch command, with the tree unchanged |
| SafePatch.AppliedPatchSucceeds | scripts/safe-patch.py:275-285 | when either tier applies the patch, the exit code is 0, the tree is what the apply left and the checkpoint tag records the pre-patch snapshot |
| SafePatch.NoRevertKeepsFailedTree | scripts/safe-patch.py:287-295 | a failed patch under --no-revert exits 1, keeps the failed tree and runs no reset |
| SafePatch.FailedPatchIsRolledBack | scripts/safe-patch.py:296-303 | without --no-revert and with a passing reset, a failed patch exits 1 and leaves the checkpoint snapshot minus its .rej files; that is the pre-run tree when the commit passed and the tree had no .rej file |
| SafePatch.FailedResetExits | scripts/safe-patch.py:192-197 | a failed reset exits 1 and leaves the failed tree in place |
| SafePatch.RemoveRejOfClean | scripts/safe-patch.py:205-209 | deleting .rej files from a tree that has none changes nothing |
| SafePatch.RollBackKeepsLogAndTags | scripts/safe-patch.py:277-303 | after the checkpoint, applying and rolling back only append to the commands and never move a tag |
| SafePatch.RunPassesCheckpoint | scripts/safe-patch.py:265-278 | past the probe and with a passing tag, the run continues from the checkpointed state into apply and rollback |
| SafePatch.StopsBeforeApply | scripts/safe-patch.py:258-275 | a run stopped by the git test, the confirmation or a failing tag has only appended commands and none of them changed the tree |
| SafePatch.TagPrecedesApply | scripts/safe-patch.py:274-278 | after a passing tag, the run's commands are dry runs, add, commit, then the tag, before anything that changes the tree, and the tag still records the pre-patch snapshot at the end |
| SafePatch.CheckpointPrecedesChanges | scripts/safe-patch.py:274-278 | a run only appends commands, and if any command changed the tree, the checkpoint tag was set before it and still records the pre-patch snapshot at the end |
| SafePatch.RunEndings | scripts/safe-patch.py:258-303 | a run ends in exit 0, exit 1 or CalledProcessError; exit 0 happens exactly when the user declines an applied patch or a checkpointed apply succeeds |
| SafePatch.Workspace.Exec | scripts/safe-patch.py:81-209 | running a command records it, returns its status and applies its effect only when it patches, leaving HEAD and tags alone |
| SafePatch.Workspace.IsPatchApplied | scripts/safe-patch.py:81-99 | the state and answer are those of `Probe` |
| SafePatch.Workspace.CreateCheckpoint | scripts/safe-patch.py:102-125 | the state and error are those of `Checkpoint` |
| SafePatch.Workspace.ApplyPatch | scripts/safe-patch.py:129-183 | the state and answer are those of `Apply` |
| SafePatch.Workspace.RevertToCheckpoint | scripts/safe-patch.py:186-200 | the state and answer are those of `Revert` |
| SafePatch.Workspace.CleanupRejFiles | scripts/safe-patch.py:205-209 | the state is that of `CleanupRej` |
| SafePatch.Workspace.RunInSourceDir | scripts/safe-patch.py:258-303 | the state and ending are those of the state machine `SafeApply` (whose properties are the lemmas above) |
| SafePatch.Workspace.RunTool | scripts/safe-patch.py:214-303 | a missing patch file or source directory exits 1 with the repository untouched (before any checkpoint); a source tree named by version and release that is not a directory raises NotADirectoryError (a tree found by the scan is always entered, and AssertionError from `temp_cd` cannot happen, since every directory exists); otherwise the run is `SafeApply` with the git test made inside the source directory; the working directory is always restored, the process exit code is 0 or 1, and an exception is CalledProcessError or that NotADirectoryError |
| Battery.Stored | pythonlib/camoufox/battery.py:18-50 | None is stored as None, a flag as given, and a number as a float (bools count as numbers, as 1.0 and 0.0) |
| Battery.Accepts | pythonlib/camoufox/battery.py:18-50 | left out, None and bools pass every check; ints and floats pass exactly the number checks; values of any other type pass none |
| Battery.Put | pythonlib/camoufox/battery.py:18-50 | one guarded insert succeeds exactly when its argument passes the check, else raises that field's TypeError; a given argument adds its key with its stored value, a left-out one adds nothing, and other keys keep their values |
| Battery.Fill | pythonlib/camoufox/battery.py:16-52 | a successful build keeps the starting keys and adds only keys of the fields; a failure is a TypeError (which one: Battery.FillReportsFirstRejection) |
| Battery.PayloadOf | pythonlib/camoufox/battery.py:16-52 | the payload holds only keys of the fields, and a failure is a TypeError (exact contents: Battery.FillEntries, Battery.PayloadEmptyIffAllUnset) |
| Battery.FillOkIffAllAccepted | pythonlib/camoufox/battery.py:18-50 | building succeeds exactly when every argument passes its type check |
| Battery.FillReportsFirstRejection | pythonlib/camoufox/battery.py:19-50 | a failure is the TypeError of the first argument, in parameter order, that fails its check |
| Battery.FillEntries | pythonlib/camoufox/battery.py:16-52 | a given argument adds its key with its stored value, a left-out one adds none, and no other key appears |
| Battery.PayloadEmptyIffAllUnset | pythonlib/camoufox/battery.py:16-52 | the payload is empty exactly when every argument is left out |
| Battery.FieldKeysDistinct | pythonlib/camoufox/battery.py:21-48 | no two battery arguments write the same payload key |
| Battery.BatteryFieldsKeys | pythonlib/camoufox/battery.py:21-48 | the payload keys are exactly enabled, charging, level, chargingTime, dischargingTime, with charging_time and discharging_time renamed to camelCase |
| Battery.BatteryPayload | pythonlib/camoufox/battery.py:8-52 | for the five battery arguments: success iff all pass their checks, keys within the five override keys, one entry per given argument with its stored value, empty iff all are left out |
| Battery.FillFive | pythonlib/camoufox/battery.py:18-50 | the five checks run in order and the first TypeError stops the rest |
| Battery.PutFlag | pythonlib/camoufox/battery.py:18-26 | the `enabled`/`charging` insert: None or a bool is stored, anything else raises the field's TypeError |
| Battery.PutNumber | pythonlib/camoufox/battery.py:28-50 | the `level`/time insert: None stays None, an int, float or bool is stored as float, anything else raises the field's TypeError |
| Battery.BuildPayload | pythonlib/camoufox/battery.py:8-52 | the five guarded inserts produce exactly the payload `PayloadOf` describes |
| Battery.SetBattery | pythonlib/camoufox/battery.py:69-97 | a TypeError from validation comes out before the channel is looked up and nothing is sent; an unresolvable target raises TypeError; otherwise `Browser.setBatteryOverride` is sent with the payload, or with no parameters when it is empty |
| Battery.NoArgumentsClearsOverrides | pythonlib/camoufox/battery.py:81-97 | with every argument left out the payload is empty, so the bare command is sent and every override is cleared |

## Left out

- Printing, colours and the `silent`/`do_print` flags choose only what is printed,
  so they are not modelled. The `.rej` listing and its first 500 characters are
  likewise only printed.
- `Mixin.Checkout.Patch`: before a fatal exit, `patch` also runs
  `find . -name '*.rej' -type f` to print the rejected files. That listing changes
  nothing and its status is ignored, so it is not in the recorded command list.
- `script_exit` reports elapsed wall-clock time before exiting. The clock is not
  modelled; only the exit code is.
- `os.system` returns a wait status rather than an exit code. Only zero versus
  nonzero matters to the scripts, so the status is modelled as one integer.
- The external programs (`git`, `patch`, `find`) are not modelled. Their statuses
  and tree effects are the `Tools` oracle, and only the version-control rules
  stated above are assumed about them. The two rules that separate which leftover
  files `git reset --hard` removes from which `git clean -fd` removes are not
  modelled beyond their combined result.
- `git clean -fd` and `find -delete` are taken to succeed. Their status is not
  consulted by the scripts.
- `get_current_git_ref` and the printed commit hash are left out. They only feed
  messages.
- argparse and optparse parsing (`get_options`) are left out: the parsed arguments
  are the `Args` value. The `input()` prompt is a `reply` parameter.
- `input()` raising EOFError (standard input closed) is not modelled: the reply is
  always a string. In the code that error would end the run with exit code 1.
- `os.path.abspath` and `relpath` are left out: the patch path is passed to the
  commands as given. Paths are normalised only by dropping a leading `./`, not
  `..` or repeated separators.
- `list_files` enumeration (`os.walk`, `fnmatch`) is left out: the file list is an
  input, in any order.
- `os.listdir` is left out: the listing is the `folders` parameter.
- `str.lower` and `\d` are modelled on ASCII only. Python's Unicode case mapping
  and Unicode digits are not modelled. `str.strip` removes every character
  `str.isspace` accepts, Unicode ones included.
- KeyboardInterrupt is modelled only in the exit-code mapping. Where an interrupt
  lands inside `main` is not modelled.
- A missing executable makes `subprocess.run` raise FileNotFoundError. This is not
  modelled.
- The batch setup step that applies every patch in order is not part of this
  model. The core modelled here is `patch` itself, which that loop calls.
- `Battery.Stored`: an int is stored as the exact real `i as real`. Python's
  `float(i)` rounds to the nearest double and raises OverflowError for huge ints;
  neither is modelled.
- `_get_browser_channel` (reflective attribute lookup) is left out: its outcome is
  the `channelFound` parameter. `channel.send` is left out: its call is the
  returned `Message`.
- `async_set_battery` is left out. It is the same dispatch awaited.
- `cleanup_rej_files` prints a message on a zero status. Only its deletion is
  modelled.

## Findings

| source | as written | input that shows it | evidently intended | confidence | as-written member | corrected member |
|---|---|---|---|---|---|---|
| scripts/_mixin.py:172-187 | after a failed fuzzy patch the code tests the exit status of `find . -name '*.rej' -type f -print -quit`. That status is 0 whenever the search completes, match or no match. | a failed `patch` on a tree with no `.rej` file: `find` exits 0, so the call ends in script_exit(1) instead of the quiet "already applied" return. A search that fails (status 1) on a tree holding `app.js.rej` returns quietly. | fatal exactly when a `.rej` file exists (whether `find` printed anything) | not executed | Mixin.PatchLandingAsWritten, used by Mixin.Checkout.Patch (shown by Mixin.PatchAsWrittenFatalOnFinishedSearch, Mixin.CleanFailureIsFatalAsWritten, Mixin.FindStatusMisclassifies) | Mixin.PatchLanding with Mixin.FailureEnd (Mixin.PatchClassifiesFailure) |
| scripts/_mixin.py:49-53 | the scan of `os.listdir(root_dir)` tests `os.path.isdir(folder)` on the bare name, that is relative to the current directory, not to `root_dir` | root `build` holding the directory `build/camoufox-135.0`, run from the parent: the test asks about `camoufox-135.0`, which is not there, and the tree is missed | test `os.path.join(root_dir, folder)`. Both agree for the root "." that the safe-patch tool uses (Mixin.IsSrcCandidateAsWritten, Mixin.ScanAgreesAtDot). | not executed | Mixin.IsSrcCandidateAsWritten (shown by Mixin.IsDirTestMissesTreeUnderRoot) | Mixin.IsSrcCandidate |
