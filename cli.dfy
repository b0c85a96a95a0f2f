/**
 * provision/cli.py: `cli()`, the command-line entry point. It defaults the
 * argument list to `--help`, maps the `-d` count to a log level, calls the
 * function the parse stored in `args.func` and returns 0. Building the
 * parser and parsing the arguments are given: the namespace is an input.
 */
module Cli {
  import opened Wrappers
  import opened Host
  import Apt
  import Git
  import Install
  import Args

  /** `sys.argv[1:]`, or `["--help"]` where `sys.argv[1]` raises `IndexError`. */
  function CliArgs(argv: seq<string>): (args: seq<string>)
    ensures args != []
    ensures |argv| >= 2 ==> argv == argv[..1] + args
    ensures |argv| < 2 ==> args == ["--help"]
  {
    if |argv| < 2 then ["--help"] else argv[1..]
  }

  const DEBUG := 10
  const INFO := 20
  const WARNING := 30

  /** One `-d` gives INFO, two or more DEBUG, none WARNING. */
  function LogLevel(debug: int): (level: int)
    ensures level == INFO <==> debug == 1
    ensures level == DEBUG <==> debug >= 2
    ensures level == WARNING <==> debug < 1
  {
    if debug == 1 then INFO else if debug >= 2 then DEBUG else WARNING
  }

  /** More `-d` flags never make the log quieter. */
  lemma LogLevelMonotone(d1: int, d2: int)
    requires d1 <= d2
    ensures LogLevel(d2) <= LogLevel(d1)
  {
  }

  /**
   * `args.func(args)` for each function the subcommands store. The list is
   * the default argument list of `git_clone`, which cloning extends.
   */
  function Dispatch(e: Env, w: World, defaults: seq<string>, ns: Namespace, func: Command): (r: (World, seq<string>, Outcome))
    ensures func != CloneRepos ==> r.1 == defaults
  {
    match func
    case AptInstall =>
      var (w1, o) := Apt.InstallPlan(e, w, ns, []);
      (w1, defaults, o)
    case AptUpdate =>
      var (w1, o) := Apt.UpdatePlan(e, w, ns);
      (w1, defaults, o)
    case InstallMain =>
      var (w1, o) := Install.MainPlan(e, w, ns);
      (w1, defaults, o)
    case CloneRepos => Git.CloneReposPlan(e, w, defaults)
    case LatestRelease =>
      var (w1, o) := Git.LatestReleasePlan(e, w, ns);
      (w1, defaults, o)
  }

  /**
   * `cli()` given the namespace the parse produced. Reading `args.debug`
   * sits outside the `try`, so a namespace without it ends `cli` with
   * `AttributeError`; inside the `try`, an `AttributeError` from a missing
   * `args.func` or from the function is logged, and `cli` returns 0.
   */
  function CliPlan(e: Env, w: World, defaults: seq<string>, ns: Namespace): (r: (World, seq<string>, Outcome))
    ensures r.2 == Returned(0) || r.2.Raised?
    ensures r.2.Raised? && r.2.exc.AttributeMissing? <==> ns.debug.None?
    ensures ns.debug.None? ==> r == (w, defaults, Raised(AttributeMissing("debug")))
    ensures ns.debug.Some? && ns.func.None? ==> r == (w, defaults, Returned(0))
  {
    if ns.debug.None? then (w, defaults, Raised(AttributeMissing("debug")))
    else if ns.func.None? then (w, defaults, Returned(0))
    else
      var (w1, d1, o) := Dispatch(e, w, defaults, ns, ns.func.value);
      (w1, d1, if o.Raised? && !o.exc.AttributeMissing? then o else Returned(0))
  }

  /**
   * `provision install <names>`: the namespace has no `packages`, so the
   * first routine that needs apt packages, once the cache is refreshed and
   * `apt-get` is found, raises `AttributeError` in `apt.install`; `main`
   * stops there and `cli` returns 0 with the refresh as the only effect.
   */
  lemma InstallFromCliStopsAtApt(e: Env, w: World, defaults: seq<string>, debug: nat, force: bool, names: seq<string>)
    requires Args.ParsedNamespace(Args.InstallChoices(), ["install"], debug, force, names).Some?
    requires var ns := Args.ParsedNamespace(Args.InstallChoices(), ["install"], debug, force, names).value;
      Install.Lookup(names[0]).Some? && Install.Packages(Install.Lookup(names[0]).value).Some?
      && SkipCheck(e, Install.Prog(Install.Lookup(names[0]).value), ns).None?
    requires Apt.UpdateCachePlan(e, w).1.None? && Which(e, "apt-get")
    ensures var ns := Args.ParsedNamespace(Args.InstallChoices(), ["install"], debug, force, names).value;
      CliPlan(e, w, defaults, ns) == (Apt.UpdateCachePlan(e, w).0, defaults, Returned(0))
  {
    var ns := Args.ParsedNamespace(Args.InstallChoices(), ["install"], debug, force, names).value;
    Args.InstallSubcommand(Args.InstallChoices(), debug, force, names);
    var r := Install.Lookup(names[0]).value;
    var w1 := Apt.UpdateCachePlan(e, w).0;
    assert Apt.InstallPlan(e, w, ns, Install.Packages(r).value) == (w1, Raised(AttributeMissing("packages")));
    assert Install.RoutinePlan(e, w, ns, r) == (w1, Raised(AttributeMissing("packages")));
    assert Install.MainEach(e, w, ns, names) == (w1, Raised(AttributeMissing("packages")));
  }

  /** `cli()` on the host: the dispatched function runs on the process's own state and default list. */
  method RunCli(h: Host, ns: Namespace) returns (o: Outcome)
    modifies h, h.cloneDefaults
    ensures (h.State(), h.cloneDefaults.items, o) == CliPlan(h.env, old(h.State()), old(h.cloneDefaults.items), ns)
  {
    if ns.debug.None? {
      return Raised(AttributeMissing("debug"));
    }
    if ns.func.None? {
      return Returned(0);
    }
    var result: Outcome;
    match ns.func.value {
      case AptInstall => result := Apt.Install(h, ns, []);
      case AptUpdate => result := Apt.Update(h, ns);
      case InstallMain => result := Install.RunMain(h, ns);
      case CloneRepos => result := Git.CloneGitRepos(h);
      case LatestRelease => result := Git.GithubLatestRelease(h, ns);
    }
    o := if result.Raised? && !result.exc.AttributeMissing? then result else Returned(0);
  }
}
