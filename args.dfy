/**
 * provision/args.py: the colours of its `ColoredArgParser` and the table of
 * subcommands that `build_parser` sets up, as the namespace each one
 * produces. How argparse splits the command line is not modelled: a parse
 * is given as the subcommand path argparse recognised, the `-d` count, the
 * `-f` flag and the positional values.
 */
module Args {
  import opened Wrappers
  import opened Text
  import opened Host
  import opened Colored
  import Install

  /** `ColoredArgParser.color_dict` */
  const COLOR_DICT: map<string, string> := map["RED" := "1;31", "GREEN" := "1;32", "YELLOW" := "1;33", "BLUE" := "1;36"]

  /** Usage in yellow, help in blue, errors in red. */
  const PALETTE: Palette := Palette(COLOR_DICT["YELLOW"], COLOR_DICT["BLUE"], COLOR_DICT["RED"])

  const PROG := "provision"

  /** `print_usage(file)`: the first letter upper-cased, in yellow, on standard output unless `file` says otherwise. */
  function PrintUsage(usage: string, file: Option<Stream>): (r: Option<seq<Write>>)
    ensures r.None? <==> usage == ""
    ensures r.Some? ==> |r.value| == 1 && r.value[0].stream == (if file.Some? then file.value else Stdout)
    ensures r.Some? ==> Plain(r.value[0].text, "1;33") == Some(Strip(UpperFirst(usage).value))
  {
    Colored.PrintUsage(PALETTE, usage, file)
  }

  /** `print_help(file)`: the first letter upper-cased, in blue (`1;36`), on standard output unless `file` says otherwise. */
  function PrintHelp(help: string, file: Option<Stream>): (r: Option<seq<Write>>)
    ensures r.None? <==> help == ""
    ensures r.Some? ==> |r.value| == 1 && r.value[0].stream == (if file.Some? then file.value else Stdout)
    ensures r.Some? ==> Plain(r.value[0].text, "1;36") == Some(Strip(UpperFirst(help).value))
  {
    Colored.PrintHelp(PALETTE, help, file)
  }

  /** `exit(status, message)`: a message in red on standard error, then the status. */
  function Exit(status: int, message: Option<string>): (r: (seq<Write>, Ending))
    ensures r.1 == SystemExit(status)
    ensures r.0 == [] <==> message.None? || message.value == ""
    ensures r.0 != [] ==> message.Some? && r.0 == [Write(Stderr, Coloured(message.value, "1;31"))]
  {
    Colored.Exit(PALETTE, status, message)
  }

  /** `error(message)` of the `provision` parser: usage in yellow, then `provision: Error: <message>` in red, and status 2. */
  function Error(usage: string, message: string): (r: (seq<Write>, Ending))
    ensures r.1 == SystemExit(2) <==> usage != ""
    ensures r.1 == SystemExit(2) ==> |r.0| == 2 && r.0[0].stream == Stderr
    ensures r.1 == SystemExit(2) ==> Plain(r.0[0].text, "1;33") == Some(Strip(UpperFirst(usage).value))
    ensures r.1 == SystemExit(2) && message != "" && !IsSpace(message[|message| - 1]) ==>
      r.0[1] == Write(Stderr, Sgr("1;31") + "provision: Error: " + message + RESET)
  {
    var r := Colored.Error(PALETTE, PROG, usage, message);
    if usage != "" && message != "" && !IsSpace(message[|message| - 1]) then
      PaletteCodes();
      ErrorLine(PALETTE, PROG, usage, message);
      ErrorPrefix();
      r
    else r
  }

  lemma PaletteCodes()
    ensures PALETTE == Palette("1;33", "1;36", "1;31")
  {
  }

  lemma ErrorPrefix()
    ensures Sgr("1;31") + PROG + ": Error: " == Sgr("1;31") + "provision: Error: "
  {
  }

  // ---------------------------------------------------------------- the subcommands

  /** Which attribute the positional values of a subcommand are stored in. */
  datatype Operand = Packages | Programs | Dir | Repo

  /** A subcommand: the words that select it, the function `set_defaults(func=...)` stores, and its positional argument. */
  datatype Route = Route(path: seq<string>, func: Command, operand: Operand)

  /** The subcommands of `build_parser`, with `upgrade` as the alias of `apt update`. */
  const ROUTES: seq<Route> := [
    Route(["apt", "install"], AptInstall, Packages),
    Route(["apt", "update"], AptUpdate, Packages),
    Route(["apt", "upgrade"], AptUpdate, Packages),
    Route(["install"], InstallMain, Programs),
    Route(["github"], CloneRepos, Dir),
    Route(["github-release"], LatestRelease, Repo)]

  function FindRoute(routes: seq<Route>, path: seq<string>): (r: Option<Route>)
    ensures r.Some? ==> r.value in routes && r.value.path == path
    ensures r.None? ==> forall k :: 0 <= k < |routes| ==> routes[k].path != path
  {
    if routes == [] then None
    else if routes[0].path == path then Some(routes[0])
    else FindRoute(routes[1..], path)
  }

  /** `choices=install.command_names()` of the `install` subcommand. */
  function InstallChoices(): seq<string> { Install.CommandNames(Install.Globals()) }

  /**
   * Whether argparse accepts the positional values: any number of packages,
   * one or more programs among `choices`, and at least one word for a
   * directory or repository. `parse_known_args` keeps the first of those
   * and returns the rest among the unrecognised arguments, which `cli()`
   * ignores.
   */
  predicate Accepts(operand: Operand, values: seq<string>, choices: seq<string>) {
    match operand
    case Packages => true
    case Programs => values != [] && forall k :: 0 <= k < |values| ==> values[k] in choices
    case Dir => values != []
    case Repo => values != []
  }

  /**
   * The namespace a parse produces: with no subcommand, none of the
   * attributes (the top-level parser has no options of its own); `apt`
   * alone, only `debug` and `force`; a subcommand, also its positional
   * attribute and `func`. `None` where argparse rejects the command line
   * and calls `error`. `choices` are those of the `install` subcommand,
   * `InstallChoices()` in `build_parser`.
   */
  function ParsedNamespace(choices: seq<string>, path: seq<string>, debug: nat, force: bool, values: seq<string>): (ns: Option<Namespace>)
    ensures ns.Some? && ns.value.func.Some? ==> ns.value.debug == Some(debug) && ns.value.force == Some(force)
    ensures ns.Some? ==> ns.value.dest.None?
  {
    if path == [] then Some(Namespace(None, None, None, None, None, None, None, None))
    else if path == ["apt"] then Some(Namespace(Some(debug), Some(force), None, None, None, None, None, None))
    else match FindRoute(ROUTES, path)
      case None => None
      case Some(route) =>
        if !Accepts(route.operand, values, choices) then None
        else
          var ns := Namespace(Some(debug), Some(force), None, None, None, None, None, Some(route.func));
          Some(match route.operand
            case Packages => ns.(packages := Some(values))
            case Programs => ns.(install := Some(values))
            case Dir => ns.(dir := Some(values[0]))
            case Repo => ns.(repo := Some(values[0])))
  }

  /** `upgrade` is another name for `apt update`. */
  lemma UpgradeIsUpdate(choices: seq<string>, debug: nat, force: bool, values: seq<string>)
    ensures ParsedNamespace(choices, ["apt", "upgrade"], debug, force, values) == ParsedNamespace(choices, ["apt", "update"], debug, force, values)
    ensures ParsedNamespace(choices, ["apt", "update"], debug, force, values).value.func == Some(AptUpdate)
  {
    assert ROUTES[0].path != ["apt", "upgrade"] && ROUTES[0].path != ["apt", "update"];
    assert ROUTES[1].path != ["apt", "upgrade"];
  }

  /**
   * `github` and `github-release` need one word, keep the first in `dir` or
   * `repo`, and dispatch to `clone_git_repos` or `github_latest_release`;
   * further words do not make the parse fail.
   */
  lemma SingleOperandKeepsFirst(choices: seq<string>, debug: nat, force: bool, values: seq<string>)
    ensures var ns := ParsedNamespace(choices, ["github"], debug, force, values);
      (ns.Some? <==> values != [])
      && (ns.Some? ==> ns.value.dir == Some(values[0]) && ns.value.repo.None? && ns.value.func == Some(CloneRepos))
    ensures var ns := ParsedNamespace(choices, ["github-release"], debug, force, values);
      (ns.Some? <==> values != [])
      && (ns.Some? ==> ns.value.repo == Some(values[0]) && ns.value.dir.None? && ns.value.func == Some(LatestRelease))
  {
    GithubParse(choices, debug, force, values);
    ReleaseParse(choices, debug, force, values);
  }

  /** The namespace of `github <values>`. */
  lemma GithubParse(choices: seq<string>, debug: nat, force: bool, values: seq<string>)
    ensures ParsedNamespace(choices, ["github"], debug, force, values)
      == if values != []
         then Some(Namespace(Some(debug), Some(force), None, None, Some(values[0]), None, None, Some(CloneRepos)))
         else None
  {
    GithubRoutes();
    assert ["github"] != ["apt"] by { assert |"github"| != |"apt"|; }
  }

  /** The namespace of `github-release <values>`. */
  lemma ReleaseParse(choices: seq<string>, debug: nat, force: bool, values: seq<string>)
    ensures ParsedNamespace(choices, ["github-release"], debug, force, values)
      == if values != []
         then Some(Namespace(Some(debug), Some(force), None, None, None, Some(values[0]), None, Some(LatestRelease)))
         else None
  {
    GithubRoutes();
    assert ["github-release"] != ["apt"] by { assert |"github-release"| != |"apt"|; }
  }

  lemma GithubRoutes()
    ensures FindRoute(ROUTES, ["github"]) == Some(Route(["github"], CloneRepos, Dir))
    ensures FindRoute(ROUTES, ["github-release"]) == Some(Route(["github-release"], LatestRelease, Repo))
  {
    assert ["github"] != ["github-release"] by { assert |"github"| != |"github-release"|; }
    assert ROUTES[3].path != ["github"] by { assert |"install"| != |"github"|; }
    assert ROUTES[3].path != ["github-release"] by { assert |"install"| != |"github-release"|; }
  }

  lemma InstallRoute()
    ensures FindRoute(ROUTES, ["install"]) == Some(Route(["install"], InstallMain, Programs))
  {
    assert ROUTES[0].path != ["install"] && ROUTES[1].path != ["install"] && ROUTES[2].path != ["install"];
  }

  /**
   * The `install` subcommand accepts exactly the non-empty lists of names
   * that `command_names()` lists, stores them in `install` and dispatches to
   * `install.main`; it sets no `packages`.
   */
  lemma InstallSubcommand(choices: seq<string>, debug: nat, force: bool, values: seq<string>)
    ensures var ns := ParsedNamespace(choices, ["install"], debug, force, values);
      ns.Some? <==> values != [] && forall k :: 0 <= k < |values| ==> values[k] in choices
    ensures var ns := ParsedNamespace(choices, ["install"], debug, force, values);
      ns.Some? ==> ns.value.func == Some(InstallMain) && ns.value.install == Some(values) && ns.value.packages.None?
  {
    InstallParse(choices, debug, force, values);
  }

  /** The namespace of `install <values>`, before what `Accepts` says of the values. */
  lemma InstallParse(choices: seq<string>, debug: nat, force: bool, values: seq<string>)
    ensures ParsedNamespace(choices, ["install"], debug, force, values)
      == if Accepts(Programs, values, choices)
         then Some(Namespace(Some(debug), Some(force), None, Some(values), None, None, None, Some(InstallMain)))
         else None
  {
    InstallRoute();
    assert ["install"] != ["apt"] by { assert ["install"][0] != ["apt"][0] by { assert |"install"| != |"apt"|; } }
  }

  /** Every name the `install` subcommand accepts has its `install_<name>` routine. */
  lemma AcceptedProgramsAreKnown(debug: nat, force: bool, values: seq<string>)
    requires ParsedNamespace(InstallChoices(), ["install"], debug, force, values).Some?
    ensures forall k :: 0 <= k < |values| ==> Install.Lookup(values[k]).Some?
  {
    InstallSubcommand(InstallChoices(), debug, force, values);
    forall k | 0 <= k < |values|
      ensures Install.Lookup(values[k]).Some?
    {
      Install.LookupCommandNames(values[k]);
    }
  }
}
