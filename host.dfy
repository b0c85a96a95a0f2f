/**
 * The process that provision runs in, seen from the outside: every external
 * effect is appended to an event log, and whatever the outside world answers
 * (the exit status and output of a command, whether a directory could be
 * entered) is read from an oracle indexed by the position of that effect in
 * the log. Lookups that change nothing (`shutil.which`, reading a file, the
 * GitHub API) are plain fields of the environment.
 */
module Host {
  import opened Wrappers
  import opened Paths

  /**
   * The outcome of an effect: a process that ran, or one that could not be
   * started. For a command `Missing` is `FileNotFoundError` (no such
   * program); for a `chdir`, `mkdir_p` or `rmtree` step it is any `OSError`.
   */
  datatype Reply = Exited(code: int, stdout: string) | Missing

  datatype Event =
    | Exec(argv: seq<string>)                      // utils.run / subprocess.run
    | RemoveTree(path: string, ignoreErrors: bool) // utils.rmtree
    | MakeDirs(path: string)                       // utils.mkdir_p
    | EnterDir(path: string)                       // entering `with chdir(path)`
    | LeaveDir                                     // its `finally` clause
    | Say(text: string)                            // print to stdout
    | Ask(prompt: string)                          // the prompt input() writes to stdout
    | Fetch(url: string)                           // requests.get
    | WriteFile(path: string)                      // open(path, "wb")

  datatype Exc =
    | FileNotFound
    | OsError
    | CalledProcess(code: int)
    | AttributeMissing(name: string)
    | KeyMissing(key: string)
    | IndexOutOfRange
    | EndOfInput
    | GithubFailure
    | GeneratorDidNotYield

  /** How a Python function ends: `return n`, `return` / falling off the end, or an exception. */
  datatype Outcome = Returned(code: int) | ReturnedNone | Raised(exc: Exc)

  datatype Asset = Asset(name: string, url: string)
  /** A repository of the token's owner as `get_repos()` lists it. */
  datatype OwnRepo = OwnRepo(sshUrl: string, rootNames: seq<string>)
  /** A repository as `get_repo(name)` finds it, its releases newest first, each as its list of assets. */
  datatype RemoteRepo = RemoteRepo(name: string, releases: seq<seq<Asset>>)

  datatype Env = Env(
    onPath: set<string>,           // the programs shutil.which finds
    answer: nat -> Reply,          // the outcome of the effect at each log position
    home: string,                  // $HOME
    files: map<string, string>,    // readable text files by absolute path
    ownRepos: seq<OwnRepo>,
    remote: map<string, RemoteRepo>)

  /** The subcommand function argparse stores in `args.func`. */
  datatype Command = AptInstall | AptUpdate | InstallMain | CloneRepos | LatestRelease

  /** An `argparse.Namespace`: `None` for an attribute the parser did not set. */
  datatype Namespace = Namespace(
    debug: Option<int>,
    force: Option<bool>,
    packages: Option<seq<string>>,
    install: Option<seq<string>>,
    dir: Option<string>,
    repo: Option<string>,
    dest: Option<string>,
    func: Option<Command>)

  /**
   * The state that effects change: the log, the apt module's
   * `CACHE_UPDATED`, what is left on standard input, the directories of the
   * `with chdir` blocks the process is inside (innermost last) and how many
   * package-cache refreshes it has launched.
   */
  datatype World = World(log: seq<Event>, cacheUpdated: bool, stdin: seq<string>, dirs: seq<string>, refreshes: nat)

  function Start(stdin: seq<string>): World { World([], false, stdin, [], 0) }

  const REFRESH: seq<string> := ["sudo", "apt", "update", "-y"]

  function Emit(w: World, ev: Event): World { w.(log := w.log + [ev]) }

  function Which(e: Env, prog: string): bool { prog in e.onPath }

  /** `open(os.path.expanduser(path)).read()`; `None` where it raises `FileNotFoundError`. */
  function ReadFile(e: Env, path: string): Option<string> {
    var full := ExpandUser(path, e.home);
    if full in e.files then Some(e.files[full]) else None
  }

  /**
   * `shutil.which(prog) and not args.force`: `None` when the routine goes
   * on, otherwise how it ends. `args.force` is read only when `prog` is found.
   */
  function SkipCheck(e: Env, prog: string, ns: Namespace): (r: Option<Outcome>)
    ensures r.None? <==> !Which(e, prog) || ns.force == Some(true)
  {
    if !Which(e, prog) then None
    else match ns.force
      case None => Some(Raised(AttributeMissing("force")))
      case Some(force) => if force then None else Some(Returned(1))
  }

  /** `run(argv)`; a launched refresh is counted. */
  function RunW(e: Env, w: World, argv: seq<string>): (World, Reply) {
    var reply := e.answer(|w.log|);
    (Emit(w, Exec(argv)).(refreshes := w.refreshes + if argv == REFRESH && reply.Exited? then 1 else 0), reply)
  }

  /** `rmtree(path, ignore_errors)`; false when it raised. */
  function RemoveTreeW(e: Env, w: World, path: string, ignoreErrors: bool): (World, bool) {
    (Emit(w, RemoveTree(path, ignoreErrors)), ignoreErrors || e.answer(|w.log|).Exited?)
  }

  /**
   * `mkdir_p(path)` as the installers call it; false when it raised. The
   * directories they work in come from clones, builds and `$HOME`, which
   * the environment holds and no tree here does, so the outcome is the
   * environment's answer. `Utils.FileSystem.MkdirP` models the function
   * itself, and `Utils.FileSystem.ChdirEnter` the `chdir` below.
   */
  function MakeDirsW(e: Env, w: World, path: string): (World, bool) {
    (Emit(w, MakeDirs(path)), e.answer(|w.log|).Exited?)
  }

  /** Entering `with chdir(path)` for a non-empty path; false when `os.chdir` raised. */
  function EnterW(e: Env, w: World, path: string): (World, bool) {
    var entered := e.answer(|w.log|).Exited?;
    (Emit(w, EnterDir(path)).(dirs := if entered then w.dirs + [path] else w.dirs), entered)
  }

  /** The `finally` clause of the innermost `with chdir` block: back to the directory it was entered from. */
  function LeaveW(w: World): World {
    Emit(w, LeaveDir).(dirs := if w.dirs == [] then [] else w.dirs[..|w.dirs| - 1])
  }

  /** `input(prompt)`: the prompt is written first, then the next line is read, or `None` where it raises `EOFError`. */
  function ReadLineW(w: World, prompt: string): (World, Option<string>) {
    var w1 := Emit(w, Ask(prompt));
    if w1.stdin == [] then (w1, None) else (w1.(stdin := w1.stdin[1..]), Some(w1.stdin[0]))
  }

  /** `CACHE_UPDATED` is set exactly when one refresh has been launched, and never more than one is. */
  ghost predicate RefreshInv(w: World) {
    w.refreshes == if w.cacheUpdated then 1 else 0
  }

  /**
   * The running process. `cloneDefaults` is the list object that
   * `git_clone` uses as the default value of its `args` parameter; Python
   * creates it once, when the function is defined.
   */
  class Host {
    var log: seq<Event>
    var cacheUpdated: bool
    var stdin: seq<string>
    var dirs: seq<string>
    var refreshes: nat
    const env: Env
    const cloneDefaults: StrList

    function State(): World
      reads this
    {
      World(log, cacheUpdated, stdin, dirs, refreshes)
    }

    constructor (env0: Env, stdin0: seq<string>)
      ensures State() == Start(stdin0) && env == env0
      ensures fresh(cloneDefaults) && cloneDefaults.items == ["--recursive"]
    {
      log, cacheUpdated, stdin, dirs, refreshes, env := [], false, stdin0, [], 0, env0;
      cloneDefaults := new StrList(["--recursive"]);
    }

    method Run(argv: seq<string>) returns (r: Reply)
      modifies this
      ensures (State(), r) == RunW(env, old(State()), argv)
    {
      r := env.answer(|log|);
      if argv == REFRESH && r.Exited? {
        refreshes := refreshes + 1;
      }
      log := log + [Exec(argv)];
    }

    method RemoveTree(path: string, ignoreErrors: bool) returns (ok: bool)
      modifies this
      ensures (State(), ok) == RemoveTreeW(env, old(State()), path, ignoreErrors)
    {
      ok := ignoreErrors || env.answer(|log|).Exited?;
      log := log + [Event.RemoveTree(path, ignoreErrors)];
    }

    method MakeDirs(path: string) returns (ok: bool)
      modifies this
      ensures (State(), ok) == MakeDirsW(env, old(State()), path)
    {
      ok := env.answer(|log|).Exited?;
      log := log + [Event.MakeDirs(path)];
    }

    method EnterDir(path: string) returns (ok: bool)
      modifies this
      ensures (State(), ok) == EnterW(env, old(State()), path)
    {
      ok := env.answer(|log|).Exited?;
      log := log + [Event.EnterDir(path)];
      if ok {
        dirs := dirs + [path];
      }
    }

    method LeaveDir()
      modifies this
      ensures State() == LeaveW(old(State()))
    {
      log := log + [Event.LeaveDir];
      if dirs != [] {
        dirs := dirs[..|dirs| - 1];
      }
    }

    method Record(ev: Event)
      modifies this
      ensures State() == Emit(old(State()), ev)
    {
      log := log + [ev];
    }

    method SetCacheUpdated()
      modifies this
      ensures State() == old(State()).(cacheUpdated := true)
    {
      cacheUpdated := true;
    }

    method ReadLine(prompt: string) returns (line: Option<string>)
      modifies this
      ensures (State(), line) == ReadLineW(old(State()), prompt)
    {
      log := log + [Ask(prompt)];
      if stdin == [] {
        line := None;
      } else {
        line := Some(stdin[0]);
        stdin := stdin[1..];
      }
    }
  }

  /** A Python list of strings that callers share and mutate. */
  class StrList {
    var items: seq<string>

    constructor (items0: seq<string>)
      ensures items == items0
    {
      items := items0;
    }

    method Append(s: string)
      modifies this
      ensures items == old(items) + [s]
    {
      items := items + [s];
    }
  }
}
