/**
 * provision/arguments.py: the older `ColoredArgParser`, with its own colour
 * table. Its printing and exiting are those of the parser in
 * provision/args.py, and so are the colours it picks from its table.
 */
module Arguments {
  import opened Wrappers
  import opened Text
  import opened Colored
  import Args

  /** `ColoredArgParser.colors` */
  const COLORS: map<string, string> := map[
    "red" := "1;31", "green" := "1;32", "yellow" := "1;33", "blue" := "1;34",
    "cyan" := "1;36", "magenta" := "1;37", "reset" := "1;00"]

  /** Usage in yellow, help in cyan, errors in red. */
  const PALETTE: Palette := Palette(COLORS["yellow"], COLORS["cyan"], COLORS["red"])

  lemma PaletteCodes()
    ensures PALETTE == Palette("1;33", "1;36", "1;31")
  {
  }

  /** `print_usage(file)`: the first letter upper-cased, in yellow, on standard output unless `file` says otherwise. */
  function PrintUsage(usage: string, file: Option<Stream>): (r: Option<seq<Write>>)
    ensures r.None? <==> usage == ""
    ensures r.Some? ==> |r.value| == 1 && r.value[0].stream == (if file.Some? then file.value else Stdout)
    ensures r.Some? ==> Plain(r.value[0].text, "1;33") == Some(Strip(UpperFirst(usage).value))
  {
    PaletteCodes();
    Colored.PrintUsage(PALETTE, usage, file)
  }

  /** `print_help(file)`: the first letter upper-cased, in cyan, on standard output unless `file` says otherwise. */
  function PrintHelp(help: string, file: Option<Stream>): (r: Option<seq<Write>>)
    ensures r.None? <==> help == ""
    ensures r.Some? ==> |r.value| == 1 && r.value[0].stream == (if file.Some? then file.value else Stdout)
    ensures r.Some? ==> Plain(r.value[0].text, "1;36") == Some(Strip(UpperFirst(help).value))
  {
    PaletteCodes();
    Colored.PrintHelp(PALETTE, help, file)
  }

  /** `exit(status, message)`: a message in red on standard error, then the status. */
  function Exit(status: int, message: Option<string>): (r: (seq<Write>, Ending))
    ensures r.1 == SystemExit(status)
    ensures r.0 == [] <==> message.None? || message.value == ""
    ensures r.0 != [] ==> message.Some? && r.0 == [Write(Stderr, Coloured(message.value, "1;31"))]
  {
    PaletteCodes();
    Colored.Exit(PALETTE, status, message)
  }

  /** `error(message)` for a parser named `prog`: usage in yellow, then `<prog>: Error: <message>` in red, and status 2. */
  function Error(prog: string, usage: string, message: string): (r: (seq<Write>, Ending))
    ensures r.1 == SystemExit(2) <==> usage != ""
    ensures r.1 == SystemExit(2) ==> |r.0| == 2 && r.0[0].stream == Stderr
    ensures r.1 == SystemExit(2) ==> Plain(r.0[0].text, "1;33") == Some(Strip(UpperFirst(usage).value))
    ensures r.1 == SystemExit(2) && prog != "" && !IsSpace(prog[0]) && message != "" && !IsSpace(message[|message| - 1]) ==>
      r.0[1] == Write(Stderr, Sgr("1;31") + prog + ": Error: " + message + RESET)
  {
    PaletteCodes();
    var r := Colored.Error(PALETTE, prog, usage, message);
    if usage != "" && prog != "" && !IsSpace(prog[0]) && message != "" && !IsSpace(message[|message| - 1]) then
      ErrorLine(PALETTE, prog, usage, message);
      r
    else r
  }

  /** Both parsers write the same text for the same usage, help and error, and exit with the same status. */
  lemma SameAsArgs(usage: string, help: string, message: string, file: Option<Stream>, status: int, exitMessage: Option<string>)
    ensures PrintUsage(usage, file) == Args.PrintUsage(usage, file)
    ensures PrintHelp(help, file) == Args.PrintHelp(help, file)
    ensures Exit(status, exitMessage) == Args.Exit(status, exitMessage)
    ensures Error(Args.PROG, usage, message) == Args.Error(usage, message)
  {
    PaletteCodes();
    Args.PaletteCodes();
  }
}
