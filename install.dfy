/**
 * provision/install.py: the `install_*` routines, each a fixed sequence of
 * commands run in a temporary clone, the name-to-routine dispatch of
 * `install` and `main`, and `command_names`.
 *
 * Commands the source gives as strings are written here as the argument
 * lists `shlex.split` makes of them.
 */
module Install {
  import opened Wrappers
  import opened Text
  import opened Host
  import Apt
  import Git

  datatype Routine = Ctags | Lpass | Fish | Tmux | Mosh | Neovim | Nnn | Todo | Vcprompt

  /** The routines in the order they are defined. */
  const ROUTINES: seq<Routine> := [Ctags, Lpass, Fish, Tmux, Mosh, Neovim, Nnn, Todo, Vcprompt]

  /** The suffix of the routine's `install_<name>` function. */
  function Name(r: Routine): string {
    match r
    case Ctags => "ctags"
    case Lpass => "lpass"
    case Fish => "fish"
    case Tmux => "tmux"
    case Mosh => "mosh"
    case Neovim => "neovim"
    case Nnn => "nnn"
    case Todo => "todo"
    case Vcprompt => "vcprompt"
  }

  /** The program looked up on PATH to decide whether to skip. */
  function Prog(r: Routine): string {
    match r
    case Ctags => "ctags"
    case Lpass => "lpass"
    case Fish => "fish"
    case Tmux => "tmux"
    case Mosh => "mosh"
    case Neovim => "nvim"
    case Nnn => "nnn"
    case Todo => "todo.sh"
    case Vcprompt => "vcprompt"
  }

  function TempDir(r: Routine): string {
    match r
    case Ctags => "/tmp/ctags"
    case Lpass => "/tmp/lpass"
    case Fish => "/tmp/fish"
    case Tmux => "/tmp/tmux"
    case Mosh => "/tmp/mosh"
    case Neovim => "/tmp/nvim"
    case Nnn => "/tmp/nnn"
    case Todo => "/tmp/todo"
    case Vcprompt => "/tmp/vcprompt"
  }

  /** The command that fetches the sources into the temporary directory. */
  function CloneCmd(r: Routine): (argv: seq<string>)
    ensures argv != REFRESH
  {
    var (tool, url) := match r
      case Ctags => ("git", "https://github.com/universal-ctags/ctags.git")
      case Lpass => ("git", "https://github.com/lastpass/lastpass-cli.git")
      case Fish => ("git", "https://github.com/fish-shell/fish-shell.git")
      case Tmux => ("git", "https://github.com/tmux/tmux.git")
      case Mosh => ("git", "https://github.com/keithw/mosh.git")
      case Neovim => ("git", "https://github.com/neovim/neovim.git")
      case Nnn => ("git", "https://github.com/jarun/nnn.git")
      case Todo => ("git", "https://github.com/todotxt/todo.txt-cli.git")
      case Vcprompt => ("hg", "https://bitbucket.org/gward/vcprompt");
    var argv := [tool, "clone", url, TempDir(r)];
    assert argv[1] != REFRESH[1];
    argv
  }

  /** The apt packages passed to `apt.install`, for the routines that call it. */
  function Packages(r: Routine): Option<seq<string>> {
    match r
    case Lpass => Some(["bash-completion", "build-essential", "cmake", "libcurl4", "libcurl4-openssl-dev",
      "libssl-dev", "libxml2", "libxml2-dev", "libssl1.1", "pkg-config", "ca-certificates", "xclip"])
    case Fish => Some(["build-essential", "ncurses-dev", "libncurses5-dev", "gettext", "autoconf", "doxygen"])
    case Tmux => Some(["git", "automake", "build-essential", "pkg-config", "libevent-dev", "libncurses5-dev"])
    case Mosh => Some(["protobuf-compiler", "libprotobuf-dev", "libutempter-dev", "libboost-dev",
      "libio-pty-perl", "libssl-dev", "pkg-config", "autoconf"])
    case Neovim => Some(["gperf", "libluajit-5.1-dev", "libunibilium-dev", "libmsgpack-dev", "libtermkey-dev",
      "libvterm-dev", "libjemalloc-dev"])
    case Nnn => Some(["pkg-config", "libncursesw5-dev"])
    case _ => None
  }

  const MAKE: seq<string> := ["make"]
  const MAKE_INSTALL: seq<string> := ["sudo", "make", "install"]
  const CONFIGURE: seq<string> := ["./configure"]
  const THIRD_PARTY: seq<string> := ["cmake", "../third-party"]
  const BUILD_DIR := "./build"

  /** `shlex.split(f"git checkout {tag}")` for a tag without quotes or escapes. */
  function Checkout(tag: string): (argv: seq<string>)
    ensures argv != REFRESH
  {
    var argv := ["git", "checkout"] + Words(tag);
    assert argv[0] != REFRESH[0];
    argv
  }

  lemma CheckoutText(tag: string)
    ensures "git" + " " + "checkout" + " " + tag == "git checkout " + tag
  {
    assert "git" + " " + "checkout" + " " == "git checkout ";
  }

  /** The argument list is what `shlex.split` makes of the command string. */
  lemma CheckoutWords(tag: string)
    ensures Words("git checkout " + tag) == Checkout(tag)
  {
    CheckoutText(tag);
    assert IsWord("git") && IsWord("checkout");
    WordsPair("git", "checkout", tag);
  }

  // ---------------------------------------------------------------- building blocks

  predicate NoRefresh(cmds: seq<seq<string>>) { forall k :: 0 <= k < |cmds| ==> cmds[k] != REFRESH }

  function Execs(cmds: seq<seq<string>>): (evs: seq<Event>)
    ensures |evs| == |cmds| && forall k :: 0 <= k < |cmds| ==> evs[k] == Exec(cmds[k])
  {
    seq(|cmds|, k requires 0 <= k < |cmds| => Exec(cmds[k]))
  }

  /**
   * Consecutive `run(cmd)` calls whose exit status is not looked at: false
   * when one of them raised `FileNotFoundError`, which ends the sequence.
   */
  function Script(e: Env, w: World, cmds: seq<seq<string>>): (r: (World, bool))
    ensures r.0 == w.(log := r.0.log, refreshes := r.0.refreshes)
    ensures NoRefresh(cmds) ==> r.0.refreshes == w.refreshes
    ensures |w.log| <= |r.0.log| <= |w.log| + |cmds| && r.0.log[..|w.log|] == w.log
    ensures r.1 ==> r.0.log == w.log + Execs(cmds)
    decreases |cmds|
  {
    if cmds == [] then
      assert w.log + Execs(cmds) == w.log;
      (w, true)
    else
      var (w1, reply) := RunW(e, w, cmds[0]);
      if reply.Missing? then (w1, false)
      else
        var r := Script(e, w1, cmds[1..]);
        if r.1 then
          ExecsCons(w, cmds);
          r
        else r
  }

  lemma ExecsCons(w: World, cmds: seq<seq<string>>)
    requires cmds != []
    ensures w.log + [Exec(cmds[0])] + Execs(cmds[1..]) == w.log + Execs(cmds)
  {
    assert Execs(cmds) == [Exec(cmds[0])] + Execs(cmds[1..]);
  }

  /** The sequence runs to its end exactly when every command in it could be launched. */
  lemma {:induction false} ScriptLaunches(e: Env, w: World, cmds: seq<seq<string>>)
    ensures Script(e, w, cmds).1 <==> forall i :: |w.log| <= i < |w.log| + |cmds| ==> e.answer(i).Exited?
    decreases |cmds|
  {
    if cmds != [] {
      var n := |w.log|;
      var (w1, reply) := RunW(e, w, cmds[0]);
      assert |w1.log| == n + 1 && reply == e.answer(n);
      ScriptLaunches(e, w1, cmds[1..]);
      if reply.Missing? {
        assert !Script(e, w, cmds).1;
        assert !e.answer(n).Exited?;
      } else {
        assert Script(e, w, cmds) == Script(e, w1, cmds[1..]);
        assert (forall i :: n <= i < n + |cmds| ==> e.answer(i).Exited?)
          <==> (forall i :: n + 1 <= i < n + |cmds| ==> e.answer(i).Exited?);
      }
    }
  }

  /** None of the fixed build commands is the package-cache refresh. */
  lemma BuildCommandsAreNotRefresh()
    ensures MAKE != REFRESH && MAKE_INSTALL != REFRESH && CONFIGURE != REFRESH && THIRD_PARTY != REFRESH
  {
    assert |MAKE_INSTALL| != |REFRESH|;
  }

  lemma ScriptOne(e: Env, w: World, c: seq<string>)
    requires c != REFRESH && e.answer(|w.log|).Exited?
    ensures Script(e, w, [c]) == (Emit(w, Exec(c)), true)
  {
    var w1 := RunW(e, w, c).0;
    assert [c][1..] == [];
    assert Script(e, w1, []) == (w1, true);
  }

  lemma ScriptTwo(e: Env, w: World, c: seq<string>, d: seq<string>)
    requires c != REFRESH && d != REFRESH && e.answer(|w.log|).Exited? && e.answer(|w.log| + 1).Exited?
    ensures Script(e, w, [c, d]) == (Emit(Emit(w, Exec(c)), Exec(d)), true)
  {
    var w1 := RunW(e, w, c).0;
    assert [c, d][1..] == [d];
    ScriptOne(e, w1, d);
  }

  /** Leaving a `with chdir` block because a command in it could not be launched. */
  function Abort(w: World): (World, Outcome) { (LeaveW(w), Raised(FileNotFound)) }

  /** The final `rmtree(tmp, ignore_errors=True)` and `return code`. */
  function Cleanup(e: Env, w: World, tmp: string, code: int): (World, Outcome) {
    (RemoveTreeW(e, w, tmp, true).0, Returned(code))
  }

  /** What a routine's body preserves: the directory stack, the refresh bookkeeping and standard input. */
  predicate Keeps(w: World, w2: World) {
    w2.dirs == w.dirs && w2.refreshes == w.refreshes && w2.cacheUpdated == w.cacheUpdated && w2.stdin == w.stdin
  }

  // ---------------------------------------------------------------- the routines

  /** `sudo make install`, then leaving the block and the final cleanup. */
  function SudoMakeInstall(e: Env, w: World, tmp: string): (r: (World, Outcome))
    ensures Keeps(LeaveW(w), r.0)
  {
    BuildCommandsAreNotRefresh();
    var (w1, reply) := RunW(e, w, MAKE_INSTALL);
    if reply.Missing? then Abort(w1) else Cleanup(e, LeaveW(w1), tmp, 0)
  }

  /** make (when `make`) and `sudo make install`, then leaving the block and the final cleanup. */
  function MakeInstall(e: Env, w: World, tmp: string, make: bool): (r: (World, Outcome))
    ensures Keeps(LeaveW(w), r.0)
  {
    BuildCommandsAreNotRefresh();
    if !make then SudoMakeInstall(e, w, tmp)
    else
      var (w1, reply) := RunW(e, w, MAKE);
      if reply.Missing? then Abort(w1) else SudoMakeInstall(e, w1, tmp)
  }

  /** When the commands launch, the routine returns 0 after leaving the block and removing the temporary directory. */
  lemma SudoMakeInstallRuns(e: Env, w: World, tmp: string)
    requires e.answer(|w.log|).Exited?
    ensures var r := SudoMakeInstall(e, w, tmp);
      r.1 == Returned(0) && r.0.log == w.log + [Exec(MAKE_INSTALL), LeaveDir, RemoveTree(tmp, true)]
  {
    BuildCommandsAreNotRefresh();
  }

  lemma MakeInstallRuns(e: Env, w: World, tmp: string, make: bool)
    requires e.answer(|w.log|).Exited? && (make ==> e.answer(|w.log| + 1).Exited?)
    ensures var r := MakeInstall(e, w, tmp, make);
      r.1 == Returned(0) && Keeps(LeaveW(w), r.0)
      && r.0.log == w.log + (if make then [Exec(MAKE)] else []) + [Exec(MAKE_INSTALL), LeaveDir, RemoveTree(tmp, true)]
  {
    BuildCommandsAreNotRefresh();
    if make {
      var w1 := RunW(e, w, MAKE).0;
      assert w1.log == w.log + [Exec(MAKE)];
      assert MakeInstall(e, w, tmp, make) == SudoMakeInstall(e, w1, tmp);
      SudoMakeInstallRuns(e, w1, tmp);
    } else {
      SudoMakeInstallRuns(e, w, tmp);
      assert w.log + [] == w.log;
    }
  }

  /**
   * The `with chdir(tmp)` block of ctags, tmux and mosh after the commands
   * `pre`: configure, then make if it succeeded, then `sudo make install`.
   * A failed configure returns 1 from inside the block when `abortOnFailure`.
   */
  function ConfiguredBuild(e: Env, w: World, tmp: string, pre: seq<seq<string>>, abortOnFailure: bool): (r: (World, Outcome))
    requires NoRefresh(pre)
    ensures Keeps(LeaveW(w), r.0)
  {
    var (w1, ok) := Script(e, w, pre);
    if !ok then Abort(w1) else ConfigureAndMake(e, w1, tmp, abortOnFailure)
  }

  /** The part of `ConfiguredBuild` from `./configure` on. */
  function ConfigureAndMake(e: Env, w: World, tmp: string, abortOnFailure: bool): (r: (World, Outcome))
    ensures Keeps(LeaveW(w), r.0)
  {
    BuildCommandsAreNotRefresh();
    var (w2, conf) := RunW(e, w, CONFIGURE);
    if conf.Missing? then Abort(w2)
    else if conf.code != 0 && abortOnFailure then (LeaveW(w2), Returned(1))
    else MakeInstall(e, w2, tmp, conf.code == 0)
  }

  /** The `with chdir(tmp)` block of ctags. */
  function CtagsBlock(e: Env, w: World, tmp: string): (r: (World, Outcome))
    ensures Keeps(LeaveW(w), r.0)
  {
    ConfiguredBuild(e, w, tmp, [["./autogen.sh"]], true)
  }

  /** The `with chdir(tmp)` block of tmux: check out the latest tag, then the configured build. */
  function TmuxBlock(e: Env, w: World, tmp: string): (r: (World, Outcome))
    ensures Keeps(LeaveW(w), r.0)
  {
    var (w1, tag) := Git.LatestTagPlan(e, w);
    if tag.None? then Abort(w1)
    else ConfiguredBuild(e, w1, tmp, [Checkout(tag.value), ["sh", "autogen.sh"]], true)
  }

  /** The `with chdir(tmp)` block of mosh: a failed configure does not stop the install. */
  function MoshBlock(e: Env, w: World, tmp: string): (r: (World, Outcome))
    ensures Keeps(LeaveW(w), r.0)
  {
    ConfiguredBuild(e, w, tmp, [["sh", "autogen.sh"]], false)
  }

  /** The `with chdir(tmp)` block of lpass: make and install. */
  function LpassBlock(e: Env, w: World, tmp: string): (r: (World, Outcome))
    ensures Keeps(LeaveW(w), r.0)
  {
    var (w1, ok) := Script(e, w, [MAKE, MAKE_INSTALL]);
    if !ok then Abort(w1) else Cleanup(e, LeaveW(w1), tmp, 0)
  }

  /** The `with chdir(tmp)` block of fish, with the nested `with chdir("./build")`. */
  function FishBlock(e: Env, w: World, tmp: string): (r: (World, Outcome))
    ensures Keeps(LeaveW(w), r.0)
  {
    var (w1, ok) := Script(e, w, [["mkdir", "build"]]);
    if !ok then Abort(w1)
    else
      var (w2, entered) := EnterW(e, w1, BUILD_DIR);
      if !entered then (LeaveW(w2), Raised(OsError))
      else
        var (w3, built) := Script(e, w2, [["cmake", ".."], MAKE, MAKE_INSTALL]);
        assert LeaveW(w3).dirs == w1.dirs;
        if !built then Abort(LeaveW(w3))
        else Cleanup(e, LeaveW(LeaveW(w3)), tmp, 0)
  }

  /**
   * Neovim after the clone: the dependencies are built in `tmp/.deps`, made
   * only when cmake succeeded, then the program itself is built in `tmp`.
   */
  function NeovimAfterClone(e: Env, w: World, tmp: string): (r: (World, Outcome))
    ensures Keeps(w, r.0)
  {
    var deps := tmp + "/.deps";
    var (w1, made) := MakeDirsW(e, w, deps);
    if !made then (w1, Raised(OsError))
    else
      var (w2, entered) := EnterW(e, w1, deps);
      if !entered then (w2, Raised(OsError))
      else
        var (w3, cmake) := RunW(e, w2, THIRD_PARTY);
        if cmake.Missing? then Abort(w3)
        else
          var (w4, ok) := Script(e, w3, if cmake.code == 0 then [MAKE] else []);
          if !ok then Abort(w4)
          else
            var w5 := LeaveW(w4);
            assert w5.dirs == w.dirs;
            var (w6, entered2) := EnterW(e, w5, tmp);
            if !entered2 then (w6, Raised(OsError))
            else
              var (w7, built) := Script(e, w6, [["make", "distclean"], ["make", "CMAKE_BUILD_TYPE=RelWithDebInfo"], MAKE_INSTALL]);
              if !built then Abort(w7)
              else Cleanup(e, LeaveW(w7), tmp, 0)
  }

  /** The `with chdir(tmp)` block of nnn: make and install only when the checkout succeeded; the cleanup runs either way. */
  function NnnBlock(e: Env, w: World, tmp: string): (r: (World, Outcome))
    ensures Keeps(LeaveW(w), r.0)
  {
    var (w1, tag) := Git.LatestTagPlan(e, w);
    if tag.None? then Abort(w1)
    else
      var (w2, checkout) := RunW(e, w1, Checkout(tag.value));
      if checkout.Missing? then Abort(w2)
      else
        var (w3, ok) := Script(e, w2, if checkout.code == 0 then [MAKE, MAKE_INSTALL] else []);
        if !ok then Abort(w3) else Cleanup(e, LeaveW(w3), tmp, 0)
  }

  /**
   * After the block of todo and vcprompt: `rmtree(tmp)` without
   * `ignore_errors`, which raises when the removal fails, then the exit
   * status of the install command.
   */
  function StrictCleanup(e: Env, w: World, tmp: string, install: Reply): (r: (World, Outcome))
    requires install.Exited?
    ensures Keeps(w, r.0)
  {
    var (w1, removed) := RemoveTreeW(e, w, tmp, false);
    if !removed then (w1, Raised(OsError)) else (w1, Returned(install.code))
  }

  /** The `with chdir(tmp)` block of todo and vcprompt: the commands `pre`, then `sudo make install`, whose status is returned. */
  function InstallStatusBlock(e: Env, w: World, tmp: string, pre: seq<seq<string>>): (r: (World, Outcome))
    requires NoRefresh(pre)
    ensures Keeps(LeaveW(w), r.0)
  {
    var (w1, ok) := Script(e, w, pre);
    if !ok then Abort(w1)
    else
      var (w2, install) := RunW(e, w1, MAKE_INSTALL);
      if install.Missing? then Abort(w2) else StrictCleanup(e, LeaveW(w2), tmp, install)
  }

  /** The part of each routine after the clone command. */
  function AfterClone(e: Env, w: World, r: Routine): (res: (World, Outcome))
    ensures Keeps(w, res.0)
  {
    var tmp := TempDir(r);
    if r == Neovim then NeovimAfterClone(e, w, tmp)
    else
      var (w1, entered) := EnterW(e, w, tmp);
      if !entered then (w1, Raised(OsError))
      else match r
        case Ctags => CtagsBlock(e, w1, tmp)
        case Lpass => LpassBlock(e, w1, tmp)
        case Fish => FishBlock(e, w1, tmp)
        case Tmux => TmuxBlock(e, w1, tmp)
        case Mosh => MoshBlock(e, w1, tmp)
        case Nnn => NnnBlock(e, w1, tmp)
        case Todo => InstallStatusBlock(e, w1, tmp, [MAKE])
        case Vcprompt => InstallStatusBlock(e, w1, tmp, [["autoconf"], CONFIGURE, MAKE])
  }

  /** What a routine runs before the clone: `apt.install(args, pkgs)` for those that have packages. */
  function AptStep(e: Env, w: World, ns: Namespace, r: Routine): (World, Outcome) {
    if Packages(r).Some? then Apt.InstallPlan(e, w, ns, Packages(r).value) else (w, ReturnedNone)
  }

  lemma AptStepKeeps(e: Env, w: World, ns: Namespace, r: Routine)
    ensures var a := AptStep(e, w, ns, r).0;
      a.dirs == w.dirs && a.stdin == w.stdin && (RefreshInv(w) ==> RefreshInv(a))
  {
    if Packages(r).Some? {
      Apt.InstallStatus(e, w, ns, Packages(r).value);
    }
  }

  /**
   * Up to the clone: the skip check, the apt packages, the removal of the
   * temporary directory and the clone command; `None` when the routine goes on.
   */
  function Prologue(e: Env, w: World, ns: Namespace, r: Routine): (res: (World, Option<Outcome>))
    ensures res.0.dirs == w.dirs && res.0.stdin == w.stdin
    ensures RefreshInv(w) ==> RefreshInv(res.0)
  {
    match SkipCheck(e, Prog(r), ns)
    case Some(o) => (w, Some(o))
    case None =>
      var (w1, o) := AptStep(e, w, ns, r);
      AptStepKeeps(e, w, ns, r);
      if o.Raised? then (w1, Some(o)) else Fetch(e, w1, r)
  }

  /** `rmtree(tmp, ignore_errors=True)`, then the clone into `tmp`; `None` when it could be launched. */
  function Fetch(e: Env, w: World, r: Routine): (res: (World, Option<Outcome>))
    ensures res.0 == w.(log := res.0.log)
    ensures res.0.log == w.log + [RemoveTree(TempDir(r), true), Exec(CloneCmd(r))]
  {
    var w2 := RemoveTreeW(e, w, TempDir(r), true).0;
    var (w3, reply) := RunW(e, w2, CloneCmd(r));
    (w3, if reply.Missing? then Some(Raised(FileNotFound)) else None)
  }

  /** `install_<name>(args)` */
  function RoutinePlan(e: Env, w: World, ns: Namespace, r: Routine): (res: (World, Outcome))
    ensures res.0.dirs == w.dirs && res.0.stdin == w.stdin
    ensures RefreshInv(w) ==> RefreshInv(res.0)
  {
    var (w1, stop) := Prologue(e, w, ns, r);
    if stop.Some? then (w1, stop.value) else AfterClone(e, w1, r)
  }

  // ---------------------------------------------------------------- the registry

  /** The module's global names before its functions, in the order they are bound. */
  const PRELUDE: seq<string> := ["__name__", "__doc__", "__package__", "__loader__", "__spec__", "__file__",
    "__cached__", "__builtins__", "logging", "shutil", "List", "NoReturn", "apt", "logger", "git_latest_tag",
    "chdir", "mkdir_p", "rmtree", "run", "LOG"]

  function Prefixed(name: string): string { "install_" + name }

  function RoutineGlobals(rs: seq<Routine>): (gs: seq<string>)
    ensures |gs| == |rs| && forall k :: 0 <= k < |rs| ==> gs[k] == Prefixed(Name(rs[k]))
  {
    seq(|rs|, k requires 0 <= k < |rs| => Prefixed(Name(rs[k])))
  }

  /** `globals().keys()` of provision/install.py, in insertion order. */
  function Globals(): seq<string> {
    PRELUDE + ["install"] + RoutineGlobals(ROUTINES) + ["command_names", "main"]
  }

  /** `[d.split("_")[1] for d in names if d.startswith("install_")]` */
  function CommandNames(names: seq<string>): (cmds: seq<string>)
    ensures |cmds| <= |names|
  {
    if names == [] then []
    else
      var d := names[0];
      var rest := CommandNames(names[1..]);
      if StartsWith(d, "install_") then
        assert d[7] == "install_"[7];
        [SplitOn(d, '_')[1]] + rest
      else rest
  }

  lemma {:induction false} CommandNamesAppend(a: seq<string>, b: seq<string>)
    ensures CommandNames(a + b) == CommandNames(a) + CommandNames(b)
  {
    if a == [] {
      assert a + b == b;
    } else {
      assert (a + b)[1..] == a[1..] + b;
      CommandNamesAppend(a[1..], b);
    }
  }

  lemma NameHasNoUnderscore(r: Routine)
    ensures '_' !in Name(r)
  {
  }

  function Names(rs: seq<Routine>): (ns: seq<string>)
    ensures |ns| == |rs| && forall k :: 0 <= k < |rs| ==> ns[k] == Name(rs[k])
  {
    seq(|rs|, k requires 0 <= k < |rs| => Name(rs[k]))
  }

  /** A routine's global splits at its one underscore into "install" and the routine's name. */
  lemma PrefixedSplit(name: string)
    requires '_' !in name
    ensures StartsWith(Prefixed(name), "install_") && SplitOn(Prefixed(name), '_')[1] == name
  {
    assert "install" + ['_'] + name == Prefixed(name);
    SplitOnTwo("install", '_', name);
  }

  lemma {:induction false} CommandNamesOfRoutines(rs: seq<Routine>)
    ensures CommandNames(RoutineGlobals(rs)) == Names(rs)
  {
    if rs != [] {
      RoutineGlobalsCons(rs);
      CommandNamesOfRoutines(rs[1..]);
      NameHasNoUnderscore(rs[0]);
      PrefixedSplit(Name(rs[0]));
      NamesCons(rs);
    }
  }

  lemma RoutineGlobalsCons(rs: seq<Routine>)
    requires rs != []
    ensures RoutineGlobals(rs) == [Prefixed(Name(rs[0]))] + RoutineGlobals(rs[1..])
  {
  }

  lemma NamesCons(rs: seq<Routine>)
    requires rs != []
    ensures Names(rs) == [Name(rs[0])] + Names(rs[1..])
  {
  }

  lemma PreludeNamesAreNotRoutines()
    ensures CommandNames(PRELUDE + ["install"]) == []
    ensures forall k :: 0 <= k < |PRELUDE| ==> !StartsWith(PRELUDE[k], "install_")
  {
    var ps := PRELUDE + ["install"];
    assert forall k :: 0 <= k < |ps| ==> |ps[k]| < 8 || ps[k][0] != 'i' || ps[k][..8] != "install_";
    assert forall k :: 0 <= k < |ps| ==> !StartsWith(ps[k], "install_");
    assert forall k :: 0 <= k < |PRELUDE| ==> PRELUDE[k] == ps[k];
    NoPrefixedNoNames(ps);
  }

  lemma {:induction false} NoPrefixedNoNames(ds: seq<string>)
    requires forall k :: 0 <= k < |ds| ==> !StartsWith(ds[k], "install_")
    ensures CommandNames(ds) == []
  {
    if ds != [] {
      NoPrefixedNoNames(ds[1..]);
    }
  }

  lemma RoutineNamesListed()
    ensures Names(ROUTINES) == ["ctags", "lpass", "fish", "tmux", "mosh", "neovim", "nnn", "todo", "vcprompt"]
  {
  }

  /** `command_names()`: the names of the routines, in the order they are defined. */
  lemma CommandNamesAreRoutineNames()
    ensures CommandNames(Globals()) == Names(ROUTINES)
    ensures CommandNames(Globals()) == ["ctags", "lpass", "fish", "tmux", "mosh", "neovim", "nnn", "todo", "vcprompt"]
  {
    var head := PRELUDE + ["install"];
    var mid := RoutineGlobals(ROUTINES);
    var tail := ["command_names", "main"];
    GlobalsParts();
    PreludeNamesAreNotRoutines();
    NotInstallPrefixed("command_names");
    NotInstallPrefixed("main");
    NoPrefixedNoNames(tail);
    CommandNamesOfMiddle(head, mid, tail);
    CommandNamesOfRoutines(ROUTINES);
    RoutineNamesListed();
  }

  /** Only the middle part contributes names when neither end has an `install_` global. */
  lemma CommandNamesOfMiddle(head: seq<string>, mid: seq<string>, tail: seq<string>)
    requires CommandNames(head) == [] && CommandNames(tail) == []
    ensures CommandNames(head + mid + tail) == CommandNames(mid)
  {
    CommandNamesAppend(head, mid);
    CommandNamesAppend(head + mid, tail);
  }

  // ---------------------------------------------------------------- dispatch

  function Find(rs: seq<Routine>, name: string): (r: Option<Routine>)
    ensures r.Some? ==> r.value in rs && Name(r.value) == name
    ensures r.None? ==> forall k :: 0 <= k < |rs| ==> Name(rs[k]) != name
  {
    if rs == [] then None else if Name(rs[0]) == name then Some(rs[0]) else Find(rs[1..], name)
  }

  /** `globals()[f"install_{name}"]`: the routine, or `None` where the lookup raises `KeyError`. */
  function Lookup(name: string): (r: Option<Routine>)
    ensures r.Some? ==> Name(r.value) == name
  {
    Find(ROUTINES, name)
  }

  /** The lookup succeeds exactly for the names that `command_names()` lists. */
  lemma LookupCommandNames(name: string)
    ensures Lookup(name).Some? <==> name in CommandNames(Globals())
  {
    CommandNamesAreRoutineNames();
    FindNames(ROUTINES, name);
  }

  lemma FindNames(rs: seq<Routine>, name: string)
    ensures Find(rs, name).Some? <==> name in Names(rs)
  {
    var names := Names(rs);
    if Find(rs, name).Some? {
      var k :| 0 <= k < |rs| && rs[k] == Find(rs, name).value;
      assert names[k] == name;
    }
  }

  lemma GlobalsParts()
    ensures Globals() == PRELUDE + ["install"] + RoutineGlobals(ROUTINES) + ["command_names", "main"]
  {
  }

  lemma KnownIsGlobal(name: string)
    requires Lookup(name).Some?
    ensures Prefixed(name) in Globals()
  {
    var head := PRELUDE + ["install"];
    var mid := RoutineGlobals(ROUTINES);
    GlobalsParts();
    var r := Lookup(name).value;
    var k :| 0 <= k < |ROUTINES| && ROUTINES[k] == r;
    assert mid[k] == Prefixed(name);
    assert Globals()[|head| + k] == mid[k];
  }

  lemma GlobalIsKnown(name: string)
    requires Prefixed(name) in Globals()
    ensures Lookup(name).Some?
  {
    var head := PRELUDE + ["install"];
    var mid := RoutineGlobals(ROUTINES);
    var tail := ["command_names", "main"];
    GlobalsParts();
    var g := Prefixed(name);
    assert g[..8] == "install_";
    PreludeNamesAreNotRoutines();
    assert forall j :: 0 <= j < |PRELUDE| ==> head[j] == PRELUDE[j];
    NotInstallPrefixed("command_names");
    NotInstallPrefixed("main");
    var k := PrefixedInMiddle(head, mid, tail, g);
    RoutineNameOfGlobal(Name(ROUTINES[k]), name);
  }

  /** A name with the `install_` prefix in `head + mid + tail`, where neither end has one, lies in `mid`. */
  lemma PrefixedInMiddle(head: seq<string>, mid: seq<string>, tail: seq<string>, g: string) returns (k: nat)
    requires g in head + mid + tail && StartsWith(g, "install_")
    requires forall j :: 0 <= j < |head| ==> !StartsWith(head[j], "install_")
    requires forall j :: 0 <= j < |tail| ==> !StartsWith(tail[j], "install_")
    ensures k < |mid| && mid[k] == g
  {
    var all := head + mid + tail;
    var i :| 0 <= i < |all| && all[i] == g;
    k := i - |head|;
  }

  lemma NotInstallPrefixed(s: string)
    requires s != "" && s[0] != 'i'
    ensures !StartsWith(s, "install_")
  {
    if |s| >= 8 { assert s[..8][0] == s[0]; }
  }

  lemma RoutineNameOfGlobal(a: string, b: string)
    requires Prefixed(a) == Prefixed(b)
    ensures a == b
  {
    assert a == Prefixed(a)[8..];
    assert b == Prefixed(b)[8..];
  }

  /** The lookup succeeds exactly when `install_<name>` is one of the module's globals. */
  lemma LookupIsGlobalsKey(name: string)
    ensures Lookup(name).Some? <==> Prefixed(name) in Globals()
  {
    if Lookup(name).Some? { KnownIsGlobal(name); }
    if Prefixed(name) in Globals() { GlobalIsKnown(name); }
  }

  /** The `try` of `install` around one routine: a `KeyError` ends `install` with 1. */
  function Attempt(o: Outcome): Option<Outcome> {
    if o.Raised? then Some(if o.exc.KeyMissing? then Returned(1) else o) else None
  }

  /** The loop of `install` over the remaining names. */
  function InstallEach(e: Env, w: World, ns: Namespace, names: seq<string>): (r: (World, Outcome))
    ensures r.0.dirs == w.dirs && r.0.stdin == w.stdin
    ensures RefreshInv(w) ==> RefreshInv(r.0)
    ensures r.1 == Returned(0) || r.1 == Returned(1) || (r.1.Raised? && !r.1.exc.KeyMissing?)
    ensures r.1 == Returned(0) ==> forall k :: 0 <= k < |names| ==> Lookup(names[k]).Some?
    decreases |names|
  {
    if names == [] then (w, Returned(0))
    else match Lookup(names[0])
      case None => (w, Returned(1))
      case Some(routine) =>
        var (w1, o) := RoutinePlan(e, w, ns, routine);
        match Attempt(o)
        case Some(stop) => (w1, stop)
        case None =>
          var r := InstallEach(e, w1, ns, names[1..]);
          assert forall k :: 1 <= k < |names| ==> names[k] == names[1..][k - 1];
          r
  }

  /** `install(args)` */
  function InstallPlan(e: Env, w: World, ns: Namespace): (r: (World, Outcome)) {
    match ns.install
    case None => (w, Raised(AttributeMissing("install")))
    case Some(names) => InstallEach(e, w, ns, names)
  }

  /** Once a name has no routine, `install` returns 1 whatever names follow it. */
  lemma {:induction false} InstallStopsAtUnknown(e: Env, w: World, ns: Namespace, pre: seq<string>, unknown: string, later: seq<string>)
    requires Lookup(unknown).None?
    ensures InstallEach(e, w, ns, pre + [unknown] + later) == InstallEach(e, w, ns, pre + [unknown])
    ensures InstallEach(e, w, ns, pre + [unknown]).1.Returned? ==> InstallEach(e, w, ns, pre + [unknown]).1.code == 1
    decreases |pre|
  {
    var a := pre + [unknown] + later;
    var b := pre + [unknown];
    if pre == [] {
      assert a[0] == unknown && b[0] == unknown;
    } else {
      assert a[0] == pre[0] && b[0] == pre[0];
      assert a[1..] == pre[1..] + [unknown] + later;
      assert b[1..] == pre[1..] + [unknown];
      match Lookup(pre[0])
      case None =>
      case Some(routine) =>
        var (w1, o) := RoutinePlan(e, w, ns, routine);
        InstallStopsAtUnknown(e, w1, ns, pre[1..], unknown, later);
    }
  }

  /** Every name has a routine, and run in turn from `w` none of them raises. */
  ghost predicate AllRunThrough(e: Env, w: World, ns: Namespace, names: seq<string>)
    decreases |names|
  {
    names == [] ||
      (Lookup(names[0]).Some? &&
       var (w1, o) := RoutinePlan(e, w, ns, Lookup(names[0]).value);
       !o.Raised? && AllRunThrough(e, w1, ns, names[1..]))
  }

  /**
   * Whatever a known routine returns (0, 1 or `None`), `install` goes on to
   * the next name; only an exception ends the loop early.
   */
  lemma InstallContinues(e: Env, w: World, ns: Namespace, names: seq<string>)
    requires names != [] && Lookup(names[0]).Some?
    requires !RoutinePlan(e, w, ns, Lookup(names[0]).value).1.Raised?
    ensures InstallEach(e, w, ns, names) ==
      InstallEach(e, RoutinePlan(e, w, ns, Lookup(names[0]).value).0, ns, names[1..])
  {
  }

  /** `install` returns 0 exactly when every name has a routine and none of them raises. */
  lemma {:induction false} InstallZeroIffAllRun(e: Env, w: World, ns: Namespace, names: seq<string>)
    ensures InstallEach(e, w, ns, names).1 == Returned(0) <==> AllRunThrough(e, w, ns, names)
    decreases |names|
  {
    if names != [] && Lookup(names[0]).Some? {
      var (w1, o) := RoutinePlan(e, w, ns, Lookup(names[0]).value);
      InstallZeroIffAllRun(e, w1, ns, names[1..]);
    }
  }

  /** The loop of `main`: an unknown name raises `KeyError`, and so does nothing else. */
  function MainEach(e: Env, w: World, ns: Namespace, names: seq<string>): (r: (World, Outcome))
    decreases |names|
  {
    if names == [] then (w, ReturnedNone)
    else match Lookup(names[0])
      case None => (w, Raised(KeyMissing(Prefixed(names[0]))))
      case Some(routine) =>
        var (w1, o) := RoutinePlan(e, w, ns, routine);
        if o.Raised? then (w1, o) else MainEach(e, w1, ns, names[1..])
  }

  /** `main(args)` */
  function MainPlan(e: Env, w: World, ns: Namespace): (World, Outcome) {
    match ns.install
    case None => (w, Raised(AttributeMissing("install")))
    case Some(names) => MainEach(e, w, ns, names)
  }

  /**
   * `install` and `main` run the same routines with the same effects; `main`
   * finishes normally exactly when `install` returns 0, and the `KeyError`
   * of an unknown name is the 1 of `install`.
   */
  lemma {:induction false} MainMatchesInstall(e: Env, w: World, ns: Namespace, names: seq<string>)
    ensures var i := InstallEach(e, w, ns, names); var m := MainEach(e, w, ns, names);
      i.0 == m.0 && (m.1 == ReturnedNone <==> i.1 == Returned(0))
      && (m.1.Raised? && m.1.exc.KeyMissing? ==> i.1 == Returned(1))
    decreases |names|
  {
    if names != [] {
      match Lookup(names[0])
      case None =>
      case Some(routine) =>
        var (w1, o) := RoutinePlan(e, w, ns, routine);
        if !o.Raised? {
          MainMatchesInstall(e, w1, ns, names[1..]);
        }
    }
  }

  // ---------------------------------------------------------------- properties of the routines

  /** A routine whose program is on PATH, called without `--force`, returns 1 and does nothing. */
  lemma SkipWhenPresent(e: Env, w: World, ns: Namespace, r: Routine)
    requires Which(e, Prog(r)) && ns.force == Some(false)
    ensures RoutinePlan(e, w, ns, r) == (w, Returned(1))
  {
  }

  /**
   * When the routine goes on past its apt packages, the next two effects are
   * the removal of its temporary directory, ignoring errors, and the clone
   * into that directory.
   */
  lemma RemovesTempBeforeClone(e: Env, w: World, ns: Namespace, r: Routine)
    requires SkipCheck(e, Prog(r), ns).None? && !AptStep(e, w, ns, r).1.Raised?
    ensures Prologue(e, w, ns, r).0.log == AptStep(e, w, ns, r).0.log + [RemoveTree(TempDir(r), true), Exec(CloneCmd(r))]
    ensures CloneCmd(r)[3] == TempDir(r)
  {
  }

  /** Once the commands before the configure have all been launched, the block goes on with the configure. */
  lemma ConfiguredBuildAfterPre(e: Env, w: World, tmp: string, pre: seq<seq<string>>, abortOnFailure: bool)
    requires NoRefresh(pre) && Script(e, w, pre).1
    ensures ConfiguredBuild(e, w, tmp, pre, abortOnFailure)
      == ConfigureAndMake(e, w.(log := w.log + Execs(pre)), tmp, abortOnFailure)
  {
    assert Script(e, w, pre).0 == w.(log := w.log + Execs(pre));
  }

  /**
   * ctags and tmux: a configure that exits non-zero returns 1 from inside the
   * block; after it comes only the restoring of the directory, so there is no
   * make, no install and no removal of the temporary directory.
   */
  lemma ConfigureFailureAborts(e: Env, w: World, tmp: string)
    requires e.answer(|w.log|).Exited? && e.answer(|w.log|).code != 0
    ensures var r := ConfigureAndMake(e, w, tmp, true);
      r.1 == Returned(1) && r.0.log == w.log + [Exec(CONFIGURE), LeaveDir]
  {
  }

  /** mosh: after a failed configure the install still runs, then the cleanup, and the routine returns 0. */
  lemma MoshInstallsAnyway(e: Env, w: World, tmp: string)
    requires e.answer(|w.log|).Exited? && e.answer(|w.log|).code != 0
    requires e.answer(|w.log| + 1).Exited?
    ensures var r := ConfigureAndMake(e, w, tmp, false);
      r.1 == Returned(0)
      && r.0.log == w.log + [Exec(CONFIGURE), Exec(MAKE_INSTALL), LeaveDir, RemoveTree(tmp, true)]
  {
    var w2 := Emit(w, Exec(CONFIGURE));
    assert |w2.log| == |w.log| + 1;
    SudoMakeInstallRuns(e, w2, tmp);
    Regroup(w.log, [Exec(CONFIGURE)], [Exec(MAKE_INSTALL), LeaveDir, RemoveTree(tmp, true)]);
  }

  /** A configure that succeeds is followed by make and the install, whether or not failures abort. */
  lemma ConfiguredBuildSucceeds(e: Env, w: World, tmp: string, abortOnFailure: bool)
    requires e.answer(|w.log|).Exited? && e.answer(|w.log|).code == 0
    requires e.answer(|w.log| + 1).Exited? && e.answer(|w.log| + 2).Exited?
    ensures var r := ConfigureAndMake(e, w, tmp, abortOnFailure);
      r.1 == Returned(0)
      && r.0.log == w.log + [Exec(CONFIGURE), Exec(MAKE), Exec(MAKE_INSTALL), LeaveDir, RemoveTree(tmp, true)]
  {
    BuildCommandsAreNotRefresh();
    var w2 := Emit(w, Exec(CONFIGURE));
    var w3 := Emit(w2, Exec(MAKE));
    assert ConfigureAndMake(e, w, tmp, abortOnFailure) == SudoMakeInstall(e, w3, tmp);
    assert |w3.log| == |w.log| + 2;
    SudoMakeInstallRuns(e, w3, tmp);
    Regroup(w.log, [Exec(CONFIGURE), Exec(MAKE)], [Exec(MAKE_INSTALL), LeaveDir, RemoveTree(tmp, true)]);
  }

  lemma Regroup(a: seq<Event>, b: seq<Event>, c: seq<Event>)
    ensures a + b + c == a + (b + c)
  {
  }

  /** nnn: a failed checkout skips make and install, but the cleanup runs and the routine returns 0. */
  lemma NnnCheckoutFailure(e: Env, w: World, tmp: string)
    requires e.answer(|w.log|).Exited?
    requires e.answer(|w.log| + 1).Exited? && e.answer(|w.log| + 1).code != 0
    ensures var tag := StripNewlines(e.answer(|w.log|).stdout);
      var r := NnnBlock(e, w, tmp);
      r.1 == Returned(0)
      && r.0.log == w.log + [Exec(Git.LATEST_TAG), Exec(Checkout(tag)), LeaveDir, RemoveTree(tmp, true)]
  {
    var tag := StripNewlines(e.answer(|w.log|).stdout);
    var w2 := NnnSkipsBuild(e, w, tmp);
    var w3 := LeaveW(w2);
    assert w3.log == w.log + [Exec(Git.LATEST_TAG), Exec(Checkout(tag)), LeaveDir];
    assert Cleanup(e, w3, tmp, 0).0.log == w3.log + [RemoveTree(tmp, true)];
  }

  /** The unfolding behind `NnnCheckoutFailure`: after the tag and the failed checkout the block goes straight to the cleanup. */
  lemma NnnSkipsBuild(e: Env, w: World, tmp: string) returns (w2: World)
    requires e.answer(|w.log|).Exited?
    requires e.answer(|w.log| + 1).Exited? && e.answer(|w.log| + 1).code != 0
    ensures w2 == Emit(Emit(w, Exec(Git.LATEST_TAG)), Exec(Checkout(StripNewlines(e.answer(|w.log|).stdout))))
    ensures NnnBlock(e, w, tmp) == Cleanup(e, LeaveW(w2), tmp, 0)
  {
    var tag := StripNewlines(e.answer(|w.log|).stdout);
    assert Git.LATEST_TAG[1] != REFRESH[1];
    var w1 := Emit(w, Exec(Git.LATEST_TAG));
    assert Git.LatestTagPlan(e, w) == (w1, Some(tag));
    w2 := Emit(w1, Exec(Checkout(tag)));
    assert RunW(e, w1, Checkout(tag)) == (w2, e.answer(|w.log| + 1));
    assert Script(e, w2, []) == (w2, true);
  }

  /** todo and vcprompt return the exit status of their `sudo make install`. */
  lemma InstallStatusReturned(e: Env, w: World, tmp: string, pre: seq<seq<string>>) returns (i: nat)
    requires NoRefresh(pre)
    ensures var r := InstallStatusBlock(e, w, tmp, pre);
      r.1.Returned? ==> i < |r.0.log| && r.0.log[i] == Exec(MAKE_INSTALL) && e.answer(i).Exited? && r.1.code == e.answer(i).code
  {
    var (w1, ok) := Script(e, w, pre);
    i := |w1.log|;
  }

  // ---------------------------------------------------------------- the routines, run step by step

  /** `run(cmd)` for each of `cmds` in turn, stopping at the first that cannot be launched. */
  method RunScript(h: Host, cmds: seq<seq<string>>) returns (ok: bool)
    modifies h
    ensures (h.State(), ok) == Script(h.env, old(h.State()), cmds)
  {
    var i := 0;
    while i < |cmds|
      invariant 0 <= i <= |cmds|
      invariant Script(h.env, old(h.State()), cmds) == Script(h.env, h.State(), cmds[i..])
    {
      assert cmds[i..][0] == cmds[i] && cmds[i..][1..] == cmds[i + 1..];
      var reply := h.Run(cmds[i]);
      if reply.Missing? {
        return false;
      }
      i := i + 1;
    }
    assert cmds[i..] == [];
    ok := true;
  }

  /** Leaving the `with chdir` block on `FileNotFoundError`. */
  method RunAbort(h: Host) returns (o: Outcome)
    modifies h
    ensures (h.State(), o) == Abort(old(h.State()))
  {
    h.LeaveDir();
    o := Raised(FileNotFound);
  }

  method RunCleanup(h: Host, tmp: string, code: int) returns (o: Outcome)
    modifies h
    ensures (h.State(), o) == Cleanup(h.env, old(h.State()), tmp, code)
  {
    var _ := h.RemoveTree(tmp, true);
    o := Returned(code);
  }

  method RunSudoMakeInstall(h: Host, tmp: string) returns (o: Outcome)
    modifies h
    ensures (h.State(), o) == SudoMakeInstall(h.env, old(h.State()), tmp)
  {
    var reply := h.Run(MAKE_INSTALL);
    if reply.Missing? {
      o := RunAbort(h);
    } else {
      h.LeaveDir();
      o := RunCleanup(h, tmp, 0);
    }
  }

  method RunMakeInstall(h: Host, tmp: string, make: bool) returns (o: Outcome)
    modifies h
    ensures (h.State(), o) == MakeInstall(h.env, old(h.State()), tmp, make)
  {
    if make {
      var reply := h.Run(MAKE);
      if reply.Missing? {
        o := RunAbort(h);
        return;
      }
    }
    o := RunSudoMakeInstall(h, tmp);
  }

  method RunConfiguredBuild(h: Host, tmp: string, pre: seq<seq<string>>, abortOnFailure: bool) returns (o: Outcome)
    requires NoRefresh(pre)
    modifies h
    ensures (h.State(), o) == ConfiguredBuild(h.env, old(h.State()), tmp, pre, abortOnFailure)
  {
    var ok := RunScript(h, pre);
    if !ok {
      o := RunAbort(h);
    } else {
      o := RunConfigureAndMake(h, tmp, abortOnFailure);
    }
  }

  method RunConfigureAndMake(h: Host, tmp: string, abortOnFailure: bool) returns (o: Outcome)
    modifies h
    ensures (h.State(), o) == ConfigureAndMake(h.env, old(h.State()), tmp, abortOnFailure)
  {
    var conf := h.Run(CONFIGURE);
    if conf.Missing? {
      o := RunAbort(h);
    } else if conf.code != 0 && abortOnFailure {
      h.LeaveDir();
      o := Returned(1);
    } else {
      o := RunMakeInstall(h, tmp, conf.code == 0);
    }
  }

  method RunTmuxBlock(h: Host, tmp: string) returns (o: Outcome)
    modifies h
    ensures (h.State(), o) == TmuxBlock(h.env, old(h.State()), tmp)
  {
    var tag := Git.GitLatestTag(h);
    if tag.None? {
      o := RunAbort(h);
    } else {
      o := RunConfiguredBuild(h, tmp, [Checkout(tag.value), ["sh", "autogen.sh"]], true);
    }
  }

  method RunLpassBlock(h: Host, tmp: string) returns (o: Outcome)
    modifies h
    ensures (h.State(), o) == LpassBlock(h.env, old(h.State()), tmp)
  {
    var ok := RunScript(h, [MAKE, MAKE_INSTALL]);
    if !ok {
      o := RunAbort(h);
    } else {
      h.LeaveDir();
      o := RunCleanup(h, tmp, 0);
    }
  }

  method RunFishBlock(h: Host, tmp: string) returns (o: Outcome)
    modifies h
    ensures (h.State(), o) == FishBlock(h.env, old(h.State()), tmp)
  {
    var ok := RunScript(h, [["mkdir", "build"]]);
    if !ok {
      o := RunAbort(h);
      return;
    }
    var entered := h.EnterDir(BUILD_DIR);
    if !entered {
      h.LeaveDir();
      return Raised(OsError);
    }
    var built := RunScript(h, [["cmake", ".."], MAKE, MAKE_INSTALL]);
    h.LeaveDir();
    if !built {
      o := RunAbort(h);
    } else {
      h.LeaveDir();
      o := RunCleanup(h, tmp, 0);
    }
  }

  method RunNeovimAfterClone(h: Host, tmp: string) returns (o: Outcome)
    modifies h
    ensures (h.State(), o) == NeovimAfterClone(h.env, old(h.State()), tmp)
  {
    var deps := tmp + "/.deps";
    var made := h.MakeDirs(deps);
    if !made {
      return Raised(OsError);
    }
    var entered := h.EnterDir(deps);
    if !entered {
      return Raised(OsError);
    }
    var cmake := h.Run(THIRD_PARTY);
    if cmake.Missing? {
      o := RunAbort(h);
      return;
    }
    var ok := RunScript(h, if cmake.code == 0 then [MAKE] else []);
    if !ok {
      o := RunAbort(h);
      return;
    }
    h.LeaveDir();
    var entered2 := h.EnterDir(tmp);
    if !entered2 {
      return Raised(OsError);
    }
    var built := RunScript(h, [["make", "distclean"], ["make", "CMAKE_BUILD_TYPE=RelWithDebInfo"], MAKE_INSTALL]);
    if !built {
      o := RunAbort(h);
    } else {
      h.LeaveDir();
      o := RunCleanup(h, tmp, 0);
    }
  }

  method RunNnnBlock(h: Host, tmp: string) returns (o: Outcome)
    modifies h
    ensures (h.State(), o) == NnnBlock(h.env, old(h.State()), tmp)
  {
    var tag := Git.GitLatestTag(h);
    if tag.None? {
      o := RunAbort(h);
      return;
    }
    var checkout := h.Run(Checkout(tag.value));
    if checkout.Missing? {
      o := RunAbort(h);
      return;
    }
    var ok := RunScript(h, if checkout.code == 0 then [MAKE, MAKE_INSTALL] else []);
    if !ok {
      o := RunAbort(h);
    } else {
      h.LeaveDir();
      o := RunCleanup(h, tmp, 0);
    }
  }

  method RunInstallStatusBlock(h: Host, tmp: string, pre: seq<seq<string>>) returns (o: Outcome)
    requires NoRefresh(pre)
    modifies h
    ensures (h.State(), o) == InstallStatusBlock(h.env, old(h.State()), tmp, pre)
  {
    var ok := RunScript(h, pre);
    if !ok {
      o := RunAbort(h);
      return;
    }
    var install := h.Run(MAKE_INSTALL);
    if install.Missing? {
      o := RunAbort(h);
      return;
    }
    h.LeaveDir();
    var removed := h.RemoveTree(tmp, false);
    o := if removed then Returned(install.code) else Raised(OsError);
  }

  method RunAfterClone(h: Host, r: Routine) returns (o: Outcome)
    modifies h
    ensures (h.State(), o) == AfterClone(h.env, old(h.State()), r)
  {
    var tmp := TempDir(r);
    if r == Neovim {
      o := RunNeovimAfterClone(h, tmp);
      return;
    }
    var entered := h.EnterDir(tmp);
    if !entered {
      return Raised(OsError);
    }
    match r
    case Ctags => o := RunConfiguredBuild(h, tmp, [["./autogen.sh"]], true);
    case Lpass => o := RunLpassBlock(h, tmp);
    case Fish => o := RunFishBlock(h, tmp);
    case Tmux => o := RunTmuxBlock(h, tmp);
    case Mosh => o := RunConfiguredBuild(h, tmp, [["sh", "autogen.sh"]], false);
    case Nnn => o := RunNnnBlock(h, tmp);
    case Todo => o := RunInstallStatusBlock(h, tmp, [MAKE]);
    case Vcprompt => o := RunInstallStatusBlock(h, tmp, [["autoconf"], CONFIGURE, MAKE]);
  }

  /** The apt packages of a routine, when it has any. */
  method RunAptStep(h: Host, ns: Namespace, r: Routine) returns (o: Outcome)
    modifies h
    ensures (h.State(), o) == AptStep(h.env, old(h.State()), ns, r)
  {
    o := ReturnedNone;
    if Packages(r).Some? {
      o := Apt.Install(h, ns, Packages(r).value);
    }
  }

  method RunPrologue(h: Host, ns: Namespace, r: Routine) returns (stop: Option<Outcome>)
    modifies h
    ensures (h.State(), stop) == Prologue(h.env, old(h.State()), ns, r)
  {
    var skip := SkipCheck(h.env, Prog(r), ns);
    if skip.Some? {
      return skip;
    }
    var o := RunAptStep(h, ns, r);
    if o.Raised? {
      return Some(o);
    }
    stop := RunFetch(h, r);
  }

  method RunFetch(h: Host, r: Routine) returns (stop: Option<Outcome>)
    modifies h
    ensures (h.State(), stop) == Fetch(h.env, old(h.State()), r)
  {
    var _ := h.RemoveTree(TempDir(r), true);
    var reply := h.Run(CloneCmd(r));
    stop := if reply.Missing? then Some(Raised(FileNotFound)) else None;
  }

  /** `install_<name>(args)` */
  method RunRoutine(h: Host, ns: Namespace, r: Routine) returns (o: Outcome)
    modifies h
    ensures (h.State(), o) == RoutinePlan(h.env, old(h.State()), ns, r)
  {
    var stop := RunPrologue(h, ns, r);
    if stop.Some? {
      o := stop.value;
    } else {
      o := RunAfterClone(h, r);
    }
  }

  /** `install(args)` */
  method RunInstall(h: Host, ns: Namespace) returns (o: Outcome)
    modifies h
    ensures (h.State(), o) == InstallPlan(h.env, old(h.State()), ns)
  {
    if ns.install.None? {
      return Raised(AttributeMissing("install"));
    }
    var names := ns.install.value;
    var i := 0;
    while i < |names|
      invariant 0 <= i <= |names|
      invariant InstallPlan(h.env, old(h.State()), ns) == InstallEach(h.env, h.State(), ns, names[i..])
    {
      assert names[i..][0] == names[i] && names[i..][1..] == names[i + 1..];
      var routine := Lookup(names[i]);
      if routine.None? {
        return Returned(1);
      }
      var result := RunRoutine(h, ns, routine.value);
      var stop := Attempt(result);
      if stop.Some? {
        return stop.value;
      }
      i := i + 1;
    }
    o := Returned(0);
  }

  /** `main(args)` */
  method RunMain(h: Host, ns: Namespace) returns (o: Outcome)
    modifies h
    ensures (h.State(), o) == MainPlan(h.env, old(h.State()), ns)
  {
    if ns.install.None? {
      return Raised(AttributeMissing("install"));
    }
    var names := ns.install.value;
    var i := 0;
    while i < |names|
      invariant 0 <= i <= |names|
      invariant MainPlan(h.env, old(h.State()), ns) == MainEach(h.env, h.State(), ns, names[i..])
    {
      assert names[i..][0] == names[i] && names[i..][1..] == names[i + 1..];
      var routine := Lookup(names[i]);
      if routine.None? {
        return Raised(KeyMissing(Prefixed(names[i])));
      }
      var result := RunRoutine(h, ns, routine.value);
      if result.Raised? {
        return result;
      }
      i := i + 1;
    }
    o := ReturnedNone;
  }
}
