# provision, modelled in Dafny

`provision` is a small command-line tool that sets up a Debian machine. It
drives apt and builds a handful of programs from source: ctags, lpass, fish,
tmux, mosh, neovim, nnn, todo.txt and vcprompt. It also clones the owner's
GitHub repositories and downloads release assets. Nearly everything it does
is an external command. This project models the parts that have decidable
logic, and it proves what each of them promises:

- `utils.dfy` (module `Utils`) models the filesystem helpers. The filesystem
  is a map from absolute component lists to `Dir`/`File` nodes with a mode.
  A `FileSystem` class holds that map, the working directory and the stack of
  directories that open `with chdir` blocks will restore. A path is
  resolved as the system resolves it: one component at a time, each
  directory part having to be a directory before a further name or a ".."
  is applied to it. `mkdir_p` follows the recursion on `os.path.split`,
  with `os.mkdir` as a specified function.
  `set_write_bit` and `is_readonly_path` are modelled. So is the decision
  table of the `rmtree` error handler `handle_remove_readonly`.
- `host.dfy` (module `Host`) models the running process as the installers see
  it. Every external effect goes into an append-only event log: a command, a
  directory removal, a `mkdir_p`, entering or leaving a `with chdir` block, a
  printed line, a download or a file write. The outside world's answer to the
  effect at log position `i` is `env.answer(i)`: an exit status and output,
  or a launch failure. `shutil.which`, file reads, `$HOME` and the GitHub API
  are fields of the same environment, and standard input is a list of lines.
  Two fields of the `Host` class are process-wide state: the apt module's
  `CACHE_UPDATED` flag, and the default list object of `git_clone`.
- `apt.dfy`, `install.dfy` and `git.dfy` (modules `Apt`, `Install`, `Git`)
  model the adapters. Each operation is a specification function from the
  environment and a `World` (the log, the cache flag, standard input and the
  chdir stack) to the new `World` and an `Outcome`. The `Outcome` is
  `return n`, a bare `return`, or an exception. Each operation also has a
  method on `Host` that performs the same steps one effect at a time and is
  proved equal to its function. The properties are lemmas about the
  functions.
- `colored.dfy`, `args.dfy` and `arguments.dfy` (modules `Colored`, `Args`,
  `Arguments`) model the two `ColoredArgParser` classes. `Colored` writes their
  shared string logic once, over a palette; each of the other two modules
  supplies its own colour table. `Args` also models the subcommand table of
  `build_parser`.
- `cli.dfy` (module `Cli`) models `cli()`: the argv default, the
  verbosity-to-level mapping, the dispatch through `args.func`, and the exit
  status.
- `text.dfy` and `paths.dfy` (modules `Text`, `Paths`) hold the Python
  primitives the code relies on: `str.strip`, `str.splitlines`, `int()`,
  `str.split`, unquoted `shlex.split`, `os.path.split`, `os.path.join` and
  `os.path.expanduser`.

Where the code disagrees with its own docstrings, comments or evident intent, the model follows the code:

- `with chdir("")` is not a no-op. The generator returns before it yields,
  which `contextlib.contextmanager` reports as an error (`ChdirEnter` returns
  `DidNotYield`).
- `is_readonly_path` tests the owner-read bit. Every readable entry is
  therefore "read-only", and `set_write_bit` (mode 0o600) never clears that
  (`StillReadonlyAfterSetWriteBit`).
- In the release picker, the answer "0" is not rejected. It selects
  `assets[-1]`, the last asset (`ChooseZeroPicksLast`). Answers from `-(N-1)`
  to `0` index from the end of the list (`ChooseFromEnd`).
- The `totalCount is None` guard never catches an empty asset list. The
  prompt then comes up over an empty menu and ends only by cancelling or
  at the end of input (`EmptyReleaseNeverDownloads`).
- The `github-release` subcommand never sets `args.dest`. A chosen asset is
  therefore fetched but never written (`MissingDestNeverWrites`).
- The `install` subcommand sets no `args.packages`. When a routine passes
  the skip check, `apt.install` refreshes the cache and finds `apt-get`, it
  then raises `AttributeError`. `cli` swallows that error and returns 0
  (`InstallFromCliStopsAtApt`).
- Each default-argument call of `git_clone` appends `expanduser("")`, an
  empty string, to the one shared default list (`DefaultListGrows`,
  `CloneEachGrowsList`).
- `mkdir_p` can return normally with a regular file at the path, against
  its docstring's "if regular file in the way, raise an exception" (see
  "## Findings").
- `install_mosh` installs after a failed configure. The todo and vcprompt
  routines remove their temporary directory without `ignore_errors`. Both
  behaviours are modelled as written.

## Model

| member | source | states |
|---|---|---|
| `Utils.Lookup` | provision/utils.py:35-38 | `os.stat` finds an entry only when every directory part of the path is a directory. It then finds the entry at the path's key, and a trailing "/", "." or ".." finds only a directory. |
| `Utils.NotDirErrno` | provision/utils.py:131 | Where a directory is needed and the path names none, the errno is ENOTDIR when the path or one of its directory parts is a file, and otherwise ENOENT, which then means nothing is there. |
| `Utils.Mkdir` | provision/utils.py:51 | `os.mkdir` fails with EEXIST exactly when something already exists at the path (with trailing slashes, when the head exists). On success it adds only that directory, with mode 0o777 less the umask, and keeps the tree well formed. |
| `Utils.MkdirMakesDir` | provision/utils.py:51 | After `os.mkdir` succeeds, the path names a directory. |
| `Utils.MkdirLast` | provision/utils.py:47-57 | The `if tail:` step never reports a path conflict, and as written never lets EEXIST escape. Any other errno from `os.mkdir` is raised with the tree unchanged. |
| `Utils.MkdirPlan` | provision/utils.py:26-57 | `mkdir_p` keeps the tree well formed. It only adds directories and never changes an existing entry. |
| `Utils.FileSystem.MkdirP` | provision/utils.py:26-57 | The recursive method, as written, leaves the tree and result that `MkdirPlan` gives, and does not touch the working directory or the chdir stack. |
| `Utils.FileSystem.OsMkdir` | provision/utils.py:51 | The system call updates the tree exactly as `Mkdir` says on success and reports the errno otherwise. |
| `Utils.MkdirPExisting` | provision/utils.py:35-37 | On a path that is already a directory, `mkdir_p` succeeds and changes nothing. |
| `Utils.MkdirPEmpty` | provision/utils.py:35-47 | On the empty path, `mkdir_p` succeeds and changes nothing. |
| `Utils.MkdirPFileInTheWay` | provision/utils.py:38-46 | A regular file at the path, or at any head the recursion reaches (such as "f" in "f/../y"), makes `mkdir_p` fail. |
| `Utils.MkdirPFileBeforeDotDot` | provision/utils.py:35-46 | With `x` a regular file, `mkdir_p("x/../f")` recurses through `"x/.."` down to `"x"` and raises the path conflict, changing nothing. |
| `Utils.MkdirPSwallowsEexist` | provision/utils.py:50-57 | As written, an EEXIST from `os.mkdir` never escapes `mkdir_p`. |
| `Utils.MkdirPPropagatesErrno` | provision/utils.py:50-57 | Once the head is a directory, any errno but EEXIST from `os.mkdir(p)` is what `mkdir_p(p)` raises, and nothing changes. |
| `Utils.MkdirPAcceptsFileBehindDotDot` | provision/utils.py:35-57 | As written, `mkdir_p("x/../f")` with `x` missing and `f` a regular file creates `x` and succeeds with `f` still a file; a second call raises. The corrected code raises EEXIST. |
| `Utils.MkdirPMakesPath` | provision/utils.py:44-57 | After a successful corrected `mkdir_p` on a non-empty path, the path is a directory. |
| `Utils.MkdirPMakesDirs` | provision/utils.py:44-51 | After a successful corrected `mkdir_p`, the path and every head the recursion visited are directories. |
| `Utils.MkdirPIdempotent` | provision/utils.py:35-51 | A second corrected `mkdir_p` of the same path after a successful one is a no-op that succeeds. |
| `Utils.WithWriteBit` | provision/utils.py:60-65 | `set_write_bit` leaves a missing path alone. For an existing entry it sets the mode to 0o600 and leaves every other entry unchanged. |
| `Utils.FileSystem.SetWriteBit` | provision/utils.py:60-64 | The method applies exactly `WithWriteBit` and keeps the tree well formed. |
| `Utils.IsReadonlyPath` | provision/utils.py:105-116 | `is_readonly_path` is false for a missing path. Otherwise it holds exactly when the owner-read bit is set or the entry is not writable. |
| `Utils.StillReadonlyAfterSetWriteBit` | provision/utils.py:88-90 | After `set_write_bit`, an existing path is still "read-only" by the handler's own test. |
| `Utils.DotDotBehindFile` | provision/utils.py:60-64 | With `x` a regular file, `"x/.."` does not exist: `set_write_bit` changes nothing, `is_readonly_path` is false, and `os.chdir` fails with ENOTDIR. |
| `Utils.NotReadonlyMeansWriteOnly` | provision/utils.py:111-114 | A path counts as writable only when the owner-read bit is clear and the owner-write bit is set. |
| `Utils.RemoveReadonlyDecision` | provision/utils.py:76-102 | The handler warns iff (read-only and the retry failed with EACCES/EPERM) or the original errno is EACCES/EPERM. Otherwise it re-raises the original error. |
| `Utils.FileSystem.HandleRemoveReadonly` | provision/utils.py:76-102 | The method returns `RemoveReadonlyDecision` and applies the write bit exactly when the path was read-only. |
| `Utils.RetrySuccessStillReraises` | provision/utils.py:88-102 | A successful retry still re-raises an original error that is not a permission error. |
| `Utils.DecisionKeepsOriginal` | provision/utils.py:98-102 | The handler never raises any error other than the one it was given. |
| `Utils.FileSystem.ChdirEnter` | provision/utils.py:119-131 | An empty path does not yield. A non-directory fails with its errno. Otherwise the old cwd is pushed and the cwd becomes the named directory. |
| `Utils.FileSystem.ChdirExit` | provision/utils.py:132-135 | The `finally` restores the cwd saved by the innermost block and pops it. |
| `Utils.FileSystem.NestedScopes` | provision/utils.py:119-135 | In nested blocks, the inner block's exit restores the outer block's directory, and the outer block's exit restores the original cwd. |
| `Host.Host.Run` | provision/utils.py:17-23 | A command is appended to the log and answered by the oracle at its log position. |
| `Host.Host.EnterDir` | provision/utils.py:126-131 | Entering a `with chdir` block is logged and pushes the directory when `os.chdir` succeeds. |
| `Host.Host.LeaveDir` | provision/utils.py:132-135 | Leaving a block is logged and pops the innermost directory. |
| `Host.Host.ReadLine` | provision/git.py:85 | `input(prompt)` writes the prompt, then consumes the next line of standard input or reports end of input. |
| `Host.Host.SetCacheUpdated` | provision/apt.py:22 | Setting `CACHE_UPDATED` changes nothing else. |
| `Host.Host.constructor` | provision/git.py:13 | The process starts with an empty log, a clear cache flag, and the default list `["--recursive"]` created once. |
| `Host.StrList.Append` | provision/git.py:22 | `args.append(x)` extends the shared list object in place. |
| `Host.SkipCheck` | provision/install.py:30-32 | A routine stops early exactly when its program is on PATH and `force` is not set. |
| `Apt.UpdateCachePlan` | provision/apt.py:16-22 | The refresh `sudo apt update -y` is issued only while the flag is clear, and then sets the flag. With the flag set, nothing happens. The at-most-one-refresh invariant is kept. |
| `Apt.UpdateCacheIdempotent` | provision/apt.py:17-22 | After a refresh, a second call is a no-op. |
| `Apt.RefreshThenRun` | provision/apt.py:25-35 | `_list_upgradable` and `_upgrade` refresh first, then issue their command and return its exit status. |
| `Apt.InstallIssues` | provision/apt.py:38-62 | After the refresh, `install` returns 1 with no command when `apt-get` or the package file is missing. Otherwise it issues exactly `sudo apt install -y` plus the packages. It returns 0 whatever apt exits with, and 1 only when apt cannot be launched. |
| `Apt.InstallWithoutAptGet` | provision/apt.py:40-44 | The refresh comes before the `apt-get` check. Without `apt-get`, the refresh is the only effect. |
| `Apt.PackageFileRoundTrip` | provision/apt.py:45-51 | With no packages given, the lines of a package file written one per line are exactly the packages, in order. |
| `Apt.InstallStatus` | provision/apt.py:38-62 | `install` returns 0 or 1, keeps the refresh invariant, and adds at most one install command after the refresh. |
| `Apt.UpdatePlan` | provision/apt.py:65-71 | `update` leaves standard input alone. |
| `Apt.CleanupPlan` | provision/apt.py:70-71 | `update` ends with `sudo apt autoremove` (which must exit 0), then `sudo apt purge`, whose status is returned. |
| `Apt.UpdateStopsOnAutoremoveFailure` | provision/apt.py:70 | A failing autoremove raises `CalledProcessError`, and no purge follows. |
| `Apt.UpdateRefreshesOnce` | provision/apt.py:65-71 | `update` keeps the invariant, so a process never launches more than one refresh. |
| `Apt.UpdateSequence` | provision/apt.py:65-71 | A completed `update` issued the needed refresh, the full upgrade, at most one install, autoremove and purge, in that order, and returns the purge's status. |
| `Apt.UpdateCache` | provision/apt.py:16-22 | The method has exactly the effect of `UpdateCachePlan`. |
| `Apt.ListUpgradable` | provision/apt.py:25-29 | The method has exactly the effect of refreshing and then running `apt list --upgradable`. |
| `Apt.Upgrade` | provision/apt.py:32-35 | The method has exactly the effect of refreshing and then running `sudo apt full-upgrade -y`. |
| `Apt.Install` | provision/apt.py:38-62 | The method has exactly the effect of `InstallPlan`. |
| `Apt.Update` | provision/apt.py:65-71 | The method has exactly the effect of `UpdatePlan`. |
| `Install.CheckoutWords` | provision/install.py:140 | `shlex.split` of `git checkout <tag>` gives `git`, `checkout` and the words of the tag. |
| `Install.ScriptLaunches` | provision/install.py:78-80 | A run of consecutive commands completes exactly when every one of them could be launched. |
| `Install.RunScript` | provision/install.py:78-80 | The loop issues the commands in order and stops at the first launch failure. |
| `Install.RoutinePlan` | provision/install.py:28-285 | Every routine restores the chdir stack on every exit path, leaves standard input alone, and keeps the refresh invariant. |
| `Install.SkipWhenPresent` | provision/install.py:30-32 | A routine whose program is on PATH, without `--force`, returns 1 and issues nothing. |
| `Install.RemovesTempBeforeClone` | provision/install.py:33-35 | After its apt packages, a routine removes its temp dir with `ignore_errors` and then clones into that same directory. |
| `Install.ConfigureFailureAborts` | provision/install.py:39-44 | In ctags and tmux, a nonzero configure returns 1 from inside the block. Only the directory restore follows: no make, no install, no final rmtree. |
| `Install.ConfiguredBuildSucceeds` | provision/install.py:39-49 | A successful configure is followed by make, `sudo make install`, the restore and the cleanup, and the routine returns 0. |
| `Install.MoshInstallsAnyway` | provision/install.py:177-186 | In mosh, a failed configure still issues `sudo make install` and the cleanup, and the routine returns 0. |
| `Install.NnnCheckoutFailure` | provision/install.py:238-249 | In nnn, a failed checkout skips make and install, but the rmtree still runs and the routine returns 0. |
| `Install.InstallStatusReturned` | provision/install.py:262-266 | todo and vcprompt return the exit status of their `sudo make install`. |
| `Install.CtagsBlock` | provision/install.py:37-46 | On every path it ends with the block's `with chdir` popped, and it leaves the apt refresh state and standard input as they were. |
| `Install.TmuxBlock` | provision/install.py:135-149 | The block runs the tag checkout and then the configured build. On every path it ends with the block's `with chdir` popped, and it leaves the apt refresh state and standard input as they were. |
| `Install.MoshBlock` | provision/install.py:175-183 | On every path it ends with the block's `with chdir` popped, and it leaves the apt refresh state and standard input as they were. |
| `Install.LpassBlock` | provision/install.py:77-83 | On every path it ends with the block's `with chdir` popped, and it leaves the apt refresh state and standard input as they were. |
| `Install.FishBlock` | provision/install.py:104-114 | The nested `./build` block closes inside the outer one. On every path it ends with the block's `with chdir` popped, and it leaves the apt refresh state and standard input as they were. |
| `Install.NeovimAfterClone` | provision/install.py:209-224 | The two sequential blocks of neovim leave the chdir stack, the refresh state and standard input as they found them. |
| `Install.NnnBlock` | provision/install.py:238-249 | On every path it ends with the block's `with chdir` popped, and it leaves the apt refresh state and standard input as they were. |
| `Install.InstallStatusBlock` | provision/install.py:262-266 | On every path it ends with the block's `with chdir` popped, and it leaves the apt refresh state and standard input as they were. |
| `Install.RunRoutine` | provision/install.py:28-285 | The step-by-step routine has exactly the effect of `RoutinePlan`. |
| `Install.RunFishBlock` | provision/install.py:104-114 | The method has exactly the effect of `FishBlock`. |
| `Install.RunNeovimAfterClone` | provision/install.py:209-224 | The method has exactly the effect of `NeovimAfterClone`. |
| `Install.RunNnnBlock` | provision/install.py:238-249 | The method has exactly the effect of `NnnBlock`. |
| `Install.RunTmuxBlock` | provision/install.py:135-149 | The method has exactly the effect of `TmuxBlock`. |
| `Install.CommandNamesAreRoutineNames` | provision/install.py:288-290 | `command_names()` is the list of routine names in definition order: ctags, lpass, fish, tmux, mosh, neovim, nnn, todo, vcprompt. |
| `Install.CommandNamesAppend` | provision/install.py:290 | The comprehension distributes over concatenation of the global names. |
| `Install.LookupCommandNames` | provision/install.py:21 | `globals()["install_" + name]` finds a routine exactly for the names `command_names()` lists. |
| `Install.LookupIsGlobalsKey` | provision/install.py:18-21 | The lookup succeeds exactly when `install_<name>` is a global of the module. |
| `Install.InstallEach` | provision/install.py:13-25 | The loop returns 0, 1, or a non-`KeyError` exception. A 0 means every name had a routine. It keeps the chdir stack and the refresh invariant. |
| `Install.InstallContinues` | provision/install.py:17-22 | When the first name has a routine and that routine does not raise, the loop goes on with the rest of the names, whatever the routine returned (0, 1 or `None`). |
| `Install.InstallZeroIffAllRun` | provision/install.py:13-25 | `install` returns 0 exactly when every name has a routine and none of them raises, each run in the state the previous ones left. |
| `Install.InstallStopsAtUnknown` | provision/install.py:17-24 | The first unknown name makes `install` return 1. Names after it are never processed. |
| `Install.MainMatchesInstall` | provision/install.py:293-297 | `main` has the same effects as `install`. It ends normally exactly when `install` returns 0, and its `KeyError` corresponds to the 1 that `install` returns. |
| `Install.RunInstall` | provision/install.py:13-25 | The loop has exactly the effect of `install`. |
| `Install.RunMain` | provision/install.py:293-297 | The loop has exactly the effect of `main`. |
| `Git.NormaliseRepo` | provision/git.py:18-20 | The result always starts with `git@` or `http`. A repo that already does is left unchanged. |
| `Git.NormaliseIdempotent` | provision/git.py:18-20 | Normalising twice is normalising once. |
| `Git.NormaliseBareName` | provision/git.py:20 | A bare name becomes `git@github.com:comfortablynick/<name>.git`. |
| `Git.GitClonePlan` | provision/git.py:13-27 | Without git, nothing happens. Otherwise the list gains the expanded `dest_path`, and the chdir stack is restored. |
| `Git.GitCloneCommand` | provision/git.py:21-26 | The clone command is `git clone <normalised repo>` followed by the list after the append, run inside `~/git`. |
| `Git.DefaultListGrows` | provision/git.py:13-22 | Each default call leaves one more empty string in the shared default list. |
| `Git.GitClone` | provision/git.py:13-27 | The method mutates the list object it was given, or the shared default, exactly as `GitClonePlan` says. Another caller's list is untouched. |
| `Git.TokenTrimmed` | provision/git.py:30-41 | A token stored with newlines around it is read back without them. |
| `Git.MissingTokenFile` | provision/git.py:34-39 | A missing token file gives `""`. |
| `Git.KeptMembers` | provision/git.py:51-53 | A repo is kept exactly when it is listed and its root names exclude `.provision_ignore`. |
| `Git.CloneEachClonesKept` | provision/git.py:51-54 | When no clone raises, the loop clones exactly the kept repos, in listing order. |
| `Git.CloneEachGrowsList` | provision/git.py:51-54 | Each clone adds one empty string to the shared default list. |
| `Git.NoTokenNoClones` | provision/git.py:46-49 | With an empty token, `clone_git_repos` does nothing. |
| `Git.CloneGitRepos` | provision/git.py:44-54 | The loop has exactly the effect of `clone_git_repos` on the log and the shared list. |
| `Git.LatestTagPlan` | provision/git.py:57-59 | `git_latest_tag` issues `git describe --tags --abbrev=0` and fails only when it cannot be launched. Otherwise the tag is the captured output without surrounding newlines. |
| `Git.LatestTagFromOutput` | provision/git.py:57-59 | Output made of a tag between newlines gives exactly that tag. |
| `Git.Choose` | provision/git.py:86-98 | `""` cancels, and only `""` does. A picked index is always within the asset list. |
| `Git.Listing` | provision/git.py:81-83 | Asset `i` is printed as `<i+1>: <name>`. |
| `Git.ChooseLabel` | provision/git.py:82-90 | Typing the label `k` of an asset, 1 ≤ k ≤ N, picks `assets[k-1]`, the asset printed with that label. |
| `Git.ChooseZeroPicksLast` | provision/git.py:90 | `"0"` picks the last asset. |
| `Git.ChooseFromEnd` | provision/git.py:89-90 | An answer `k` from `1-N` to 0 picks `assets[k-1]` counted from the end, that is `assets[k-1+N]`. |
| `Git.ChooseOutOfRange` | provision/git.py:89-93 | An answer `k` above N or below `1-N` makes `assets[k-1]` raise `IndexError`, and the loop asks again. |
| `Git.ChooseNonNumeric` | provision/git.py:94-96 | Text with no digit re-prompts. |
| `Git.NoAssetsNoPick` | provision/git.py:90-93 | With no assets, no answer picks anything. |
| `Git.ChoiceLoop` | provision/git.py:84-98 | A chosen index lies within the asset list. The input left over is never longer than the input given. The prompt is written at least once and at most once per line plus once more. |
| `Git.ChoiceLoopStopsAtFirst` | provision/git.py:84-98 | The loop stops at the first answer that cancels or picks. Every earlier answer re-prompted, and exactly the answers up to it are consumed, each after one prompt. Running out of input costs one more prompt. |
| `Git.ChooseAsset` | provision/git.py:84-98 | The `while True` loop consumes input exactly as `ChoiceLoop` says. It writes the prompt once per pass, as many times as `ChoiceLoop` counts, and changes nothing else. |
| `Git.DownloadPlan` | provision/git.py:99-107 | The chosen asset is fetched. It is written to `join(expanduser(dest), name)` iff `dest` exists, and success means it was written. |
| `Git.PromptPlan` | provision/git.py:81-98 | The menu and the prompt only extend the log. Success requires a destination. |
| `Git.LatestReleasePlan` | provision/git.py:62-107 | `github_latest_release` leaves the chdir stack and the apt flag alone. |
| `Git.LatestReleaseGuards` | provision/git.py:64-75 | An empty token, or a present binary without `force`, returns 1 before any effect. |
| `Git.EmptyReleaseNeverDownloads` | provision/git.py:76-98 | A release with no assets can only end by cancelling or by running out of input. |
| `Git.MissingDestNeverWrites` | provision/git.py:99-104 | Without `args.dest`, the function never succeeds and never writes a file. |
| `Git.GithubLatestRelease` | provision/git.py:62-107 | The method has exactly the effect of `LatestReleasePlan`. |
| `Colored.PrintMessage` | provision/args.py:35-44 | An empty message writes nothing. Otherwise there is one write, to the given file or stderr: the message verbatim without colour, or `CSI+c+"m"` + stripped message + `"\x1b[0m\n"` with colour `c`. |
| `Colored.PrintFormatted` | provision/args.py:15-33 | Usage/help text with its first letter upper-cased goes in its colour to the given file or stdout. Empty text raises `IndexError`. |
| `Colored.Exit` | provision/args.py:46-50 | A non-empty message is written in the error colour to stderr, and the call always exits with the given status. |
| `Colored.Error` | provision/args.py:52-56 | Usage goes to stderr, then `"<prog>: Error: <message>\n"` in the error colour, then exit status 2. Empty usage text raises `IndexError` before anything is written. |
| `Colored.PlainColoured` | provision/args.py:44 | A coloured write holds exactly the stripped message between the escape sequences. |
| `Colored.ColouredStripped` | provision/args.py:44 | Colouring a message or its stripped text writes the same thing. |
| `Colored.ErrorLine` | provision/args.py:55-56 | The error line reads `<prog>: Error: <message>` in the error colour. |
| `Args.PrintUsage` | provision/args.py:15-23 | Usage is written in YELLOW `1;33`. |
| `Args.PrintHelp` | provision/args.py:25-33 | Help is written in BLUE `1;36`. |
| `Args.Exit` | provision/args.py:46-50 | Something is written exactly when the message is present and non-empty: the message in RED `1;31` on stderr. The process then exits with the status. |
| `Args.Error` | provision/args.py:52-56 | Usage is written in yellow, then `provision: Error: <message>` in red, then exit status 2. Empty usage text raises `IndexError` instead. |
| `Args.PaletteCodes` | provision/args.py:13 | The parser's palette is yellow `1;33`, blue `1;36`, red `1;31`. |
| `Args.ParsedNamespace` | provision/args.py:94-170 | A subcommand's namespace carries the `-d` count, the `-f` flag and its `func`, and never a `dest`. |
| `Args.SingleOperandKeepsFirst` | provision/args.py:152-170 | `github` and `github-release` parse exactly when at least one word follows; the first is stored in `dir` or `repo`, and further words go to the extras of `parse_known_args` instead of failing. |
| `Args.UpgradeIsUpdate` | provision/args.py:118-128 | `apt upgrade` parses exactly like `apt update` and dispatches to `apt.update`. |
| `Args.InstallSubcommand` | provision/args.py:130-149 | `install` accepts exactly non-empty lists of the choices, stores them in `install`, dispatches to `install.main`, and sets no `packages`. |
| `Args.AcceptedProgramsAreKnown` | provision/args.py:131-149 | Every program the `install` subcommand accepts has its `install_<name>` routine. |
| `Arguments.PaletteCodes` | provision/arguments.py:12-20 | The parser's palette is yellow `1;33`, cyan `1;36`, red `1;31`. |
| `Arguments.PrintUsage` | provision/arguments.py:22-30 | Usage is written in yellow `1;33` with its first letter upper-cased. |
| `Arguments.PrintHelp` | provision/arguments.py:32-39 | Help is written in cyan `1;36` with its first letter upper-cased. |
| `Arguments.Exit` | provision/arguments.py:50-53 | Something is written exactly when the message is present and non-empty: the message in red `1;31` on stderr. The process then exits with the status. |
| `Arguments.Error` | provision/arguments.py:55-58 | Usage is written in yellow, then `<prog>: Error: <message>` in red, then exit status 2. Empty usage text raises `IndexError` instead. |
| `Arguments.SameAsArgs` | provision/arguments.py:41-58 | This parser writes exactly what the one in provision/args.py writes and exits with the same statuses. |
| `Cli.CliArgs` | provision/cli.py:12-18 | No arguments gives `["--help"]`. Otherwise the result is `argv[1:]`. |
| `Cli.LogLevel` | provision/cli.py:20-25 | A debug count of 1 gives INFO, ≥2 gives DEBUG, and anything else gives WARNING, each in both directions. |
| `Cli.LogLevelMonotone` | provision/cli.py:20-25 | More `-d` flags never make the log quieter. |
| `Cli.Dispatch` | provision/cli.py:33 | Only the `github` command touches the shared clone list. |
| `Cli.CliPlan` | provision/cli.py:20-38 | `cli` returns 0 or raises. It raises an `AttributeError` only when `debug` is missing. A missing `func` is logged and returns 0. |
| `Cli.InstallFromCliStopsAtApt` | provision/cli.py:32-37 | `provision install <name>` stops at the missing `packages` attribute, after the refresh, and returns 0. |
| `Cli.RunCli` | provision/cli.py:32-38 | The method has exactly the effect of `CliPlan`. |
| `Paths.SplitFacts` | provision/utils.py:44 | `os.path.split` gives a prefix head and a slash-free suffix tail, with only slashes between them. |
| `Paths.SplitJoin` | provision/utils.py:44 | Splitting what was joined gives back the head and the tail. |
| `Paths.ExpandUser` | provision/git.py:22 | Paths not starting with `~` are unchanged. `~` and `~/x` expand against `$HOME`. |
| `Text.SplitJoinLines` | provision/apt.py:51 | `splitlines` of a file written one entry per line gives the entries back. |
| `Text.StripNewlinesFrame` | provision/git.py:41 | `strip("\n")` removes exactly the surrounding newlines. |
| `Text.StripWithIdempotent` | provision/args.py:44 | Stripping twice is stripping once. |
| `Text.ParseShowInt` | provision/git.py:90 | `int(str(i)) == i`. |
| `Text.UpperFirst` | provision/args.py:20 | `s[0].upper() + s[1:]` changes only the first character and fails on the empty string. |

## Findings

| source | as written | input that shows it | evidently intended | confidence | as-written member | corrected member |
|---|---|---|---|---|---|---|
| provision/utils.py:35-57 | `isfile(newdir)` is the only check for a file in the way, and an EEXIST from `os.mkdir(newdir)` is swallowed whatever exists there | `mkdir_p("x/../f")` with `x` missing and `f` a regular file: `isfile` fails through the missing `x`, the recursion creates `x`, and `os.mkdir("x/../f")` raises EEXIST, which is swallowed | a regular file in the way raises, as the docstring says; re-raise EEXIST unless `newdir` is then a directory | not executed; high | `Utils.MkdirPAcceptsFileBehindDotDot` | `Utils.MkdirPMakesPath` |

The corrected code is `MkdirPlan` with `recheck` set. `MkdirPMakesPath`,
`MkdirPMakesDirs` and `MkdirPIdempotent` are proved about it; as written,
the three fail on the input above. `Utils.FileSystem.MkdirP` models the
code as written.

## Left out

- Host.Reply: a command that cannot be started always raises `FileNotFoundError`. Other start-up errors, such as `PermissionError` for a file that is not executable, are not modelled; `apt.install` (provision/apt.py:57-61) catches only the first. Likewise a token file that exists but cannot be read is not modelled.
- Process execution is not modelled. `run` is an oracle that answers each logged command with an exit status and output, or with a launch failure.
- Text.Words: models `shlex.split` only for text without quotes, escapes or comments. The model uses it only on the literal command strings and on a tag.
- `shutil.rmtree` traversal is library code and is not modelled. Its removal is a logged oracle step, and only the `onerror` handler's decision is modelled.
- argparse parsing internals (`build_parser` beyond its subcommand table, `process_args`, `apt.main`) are not modelled. The formatted usage and help texts are inputs. `Args.ParsedNamespace` takes the subcommand path that argparse recognised.
- Cli.CliArgs: the extra arguments that `parse_known_args` returns are not represented, because `cli` never reads them.
- PyGithub and requests are not modelled. Repositories, releases and assets are abstract sequences in the environment, and the chunked download is one logged write.
- Logging and `warnings.warn` text are not modelled. A warning is the outcome tag `Warned`.
- The race that the `mkdir_p` comment mentions is not modelled. EEXIST is only a possible outcome of `os.mkdir`, not concurrency.
- provision/logger.py only configures coloredlogs and is not part of this model. provision/__main__.py imports a `main` that provision/cli.py does not define, so it has no logic to model.
- Utils.FileSystem.HandleRemoveReadonly: a retry that succeeds does not remove the entry from the tree. Removing entries would let the working directory, or a directory that a `with chdir` block restores, disappear, and the `FileSystem` class keeps those as directories.
- Install and Git run `mkdir_p` and `with chdir` as logged oracle steps (`Host.MakeDirsW`, `Host.EnterW`), not against `Utils.FileSystem`. Their directories come from clones, builds and `$HOME`, which the model does not hold as a tree.
- Paths.ExpandUser: `~user` forms are returned unchanged. `posixpath.expanduser` looks the user up in the password database, which is not modelled.
- Symbolic links are not modelled. A ".." steps to the parent of the directory reached so far.
- Utils.IsReadonlyPath: `os.access(path, W_OK)` is taken as the owner-write bit of the entry. This ignores the real user and group, and root.
- Utils.WithWriteBit: the `Path`-object case of `set_write_bit`, where a missing path is not skipped, is not modelled. All callers pass strings.
- Text.UpperFirst: only ASCII lower-case letters are mapped, while Python's `str.upper` maps every cased character. The formatted usage and help texts start with ASCII.
- Text.ParseInt: only ASCII digits are accepted, while Python's `int()` also accepts other Unicode decimal digits.
- The permission bits beyond owner read/write, and ownership, are not modelled. Modes are 16-bit vectors.
