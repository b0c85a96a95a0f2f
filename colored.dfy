/**
 * `ColoredArgParser`, the argparse parser of provision/args.py and of
 * provision/arguments.py: its printing and exiting, with every message
 * in bold ANSI colour. The two classes differ only in how they name their
 * colours, so the logic is written once here over a palette, and each
 * module supplies its own.
 *
 * A call is modelled by the writes it makes, in order, and by how it ends:
 * `sys.exit(status)`, or an `IndexError` where the formatted usage or help
 * text is empty.
 */
module Colored {
  import opened Wrappers
  import opened Text

  datatype Stream = Stdout | Stderr

  /** One `file.write(text)`. */
  datatype Write = Write(stream: Stream, text: string)

  /** The colour codes a parser uses for usage text, help text and errors. */
  datatype Palette = Palette(usage: string, help: string, error: string)

  /** How a call that does not return ends. */
  datatype Ending = SystemExit(status: int) | IndexError

  /** The ANSI Control Sequence Introducer. */
  const CSI := "\U{1b}["
  /** Back to normal text, and the line ends. */
  const RESET := "\U{1b}[0m\n"

  /** The escape sequence that selects `color`. */
  function Sgr(color: string): string { CSI + color + "m" }

  /** `message.strip()` between the escape sequences of `color` and the reset. */
  function Coloured(message: string, color: string): string {
    Sgr(color) + Strip(message) + RESET
  }

  /** The text between the selection of `color` and the reset, if `text` has that shape. */
  function Plain(text: string, color: string): (r: Option<string>)
    ensures r.Some? ==> text == Sgr(color) + r.value + RESET
  {
    var pre := Sgr(color);
    if |text| >= |pre| + |RESET| && text[..|pre|] == pre && text[|text| - |RESET|..] == RESET then
      var core := text[|pre|..|text| - |RESET|];
      assert text == pre + core + RESET;
      Some(core)
    else None
  }

  /** What colouring keeps of a message: exactly its stripped text, framed by the two escape sequences. */
  lemma PlainColoured(message: string, color: string)
    ensures Plain(Coloured(message, color), color) == Some(Strip(message))
  {
    var text := Coloured(message, color);
    var pre := Sgr(color);
    assert text[..|pre|] == pre;
    assert text[|text| - |RESET|..] == RESET;
    assert text[|pre|..|text| - |RESET|] == Strip(message);
  }

  /** Colouring a message or its stripped text writes the same thing. */
  lemma ColouredStripped(message: string, color: string)
    ensures Coloured(Strip(message), color) == Coloured(message, color)
  {
    StripWithIdempotent(message, IsSpace);
  }

  /**
   * `_print_message(message, file, color)`: nothing for an empty message;
   * otherwise one write, to `file` or else standard error, of the message
   * as it is when there is no colour and coloured otherwise.
   */
  function PrintMessage(message: string, file: Option<Stream>, color: Option<string>): (ws: seq<Write>)
    ensures message == "" <==> ws == []
    ensures |ws| <= 1
    ensures ws != [] ==> ws[0].stream == (if file.Some? then file.value else Stderr)
    ensures ws != [] && color.None? ==> ws[0].text == message
    ensures ws != [] && color.Some? ==> Plain(ws[0].text, color.value) == Some(Strip(message))
  {
    if message == "" then []
    else
      var stream := if file.Some? then file.value else Stderr;
      if color.None? then [Write(stream, message)]
      else
        PlainColoured(message, color.value);
        [Write(stream, Coloured(message, color.value))]
  }

  /**
   * `print_usage(file)` and `print_help(file)`, given the text argparse
   * formatted: its first character upper-cased, in `color`, on `file` or
   * else standard output. An empty text raises `IndexError` at `[0]`.
   */
  function PrintFormatted(formatted: string, file: Option<Stream>, color: string): (r: Option<seq<Write>>)
    ensures r.None? <==> formatted == ""
    ensures r.Some? ==> |r.value| == 1 && r.value[0].stream == (if file.Some? then file.value else Stdout)
    ensures r.Some? ==> Plain(r.value[0].text, color) == Some(Strip(UpperFirst(formatted).value))
  {
    match UpperFirst(formatted)
    case None => None
    case Some(text) => Some(PrintMessage(text, Some(if file.Some? then file.value else Stdout), Some(color)))
  }

  function PrintUsage(p: Palette, usage: string, file: Option<Stream>): Option<seq<Write>> {
    PrintFormatted(usage, file, p.usage)
  }

  function PrintHelp(p: Palette, help: string, file: Option<Stream>): Option<seq<Write>> {
    PrintFormatted(help, file, p.help)
  }

  /** `exit(status, message)`: a non-empty message in the error colour on standard error, then `sys.exit(status)`. */
  function Exit(p: Palette, status: int, message: Option<string>): (r: (seq<Write>, Ending))
    ensures r.1 == SystemExit(status)
    ensures r.0 == [] <==> message.None? || message.value == ""
    ensures r.0 != [] ==> |r.0| == 1 && r.0[0].stream == Stderr && Plain(r.0[0].text, p.error) == Some(Strip(message.value))
  {
    var ws := if message.Some? then PrintMessage(message.value, Some(Stderr), Some(p.error)) else [];
    (ws, SystemExit(status))
  }

  /** `"%(prog)s: Error: %(message)s\n" % args` */
  function ErrorText(prog: string, message: string): string {
    prog + ": Error: " + message + "\n"
  }

  /** `error(message)`: the usage on standard error, then `exit(2, ...)` with the program name and the message. */
  function Error(p: Palette, prog: string, usage: string, message: string): (r: (seq<Write>, Ending))
    ensures r.1 == SystemExit(2) <==> usage != ""
    ensures r.1 != SystemExit(2) ==> r == ([], IndexError)
    ensures r.1 == SystemExit(2) ==> |r.0| == 2 && r.0[0].stream == r.0[1].stream == Stderr
    ensures r.1 == SystemExit(2) ==> Plain(r.0[0].text, p.usage) == Some(Strip(UpperFirst(usage).value))
    ensures r.1 == SystemExit(2) ==> Plain(r.0[1].text, p.error) == Some(Strip(ErrorText(prog, message)))
  {
    match PrintUsage(p, usage, Some(Stderr))
    case None => ([], IndexError)
    case Some(ws) =>
      var (more, ending) := Exit(p, 2, Some(ErrorText(prog, message)));
      (ws + more, ending)
  }

  /** A text whose ends are not blank loses only the newline after it. */
  lemma StripLine(core: string)
    requires core != "" && !IsSpace(core[0]) && !IsSpace(core[|core| - 1])
    ensures Strip(core + "\n") == core
  {
    var s := core + "\n";
    var b := StripBounds(s, IsSpace);
    assert !IsSpace(s[0]) && !IsSpace(s[|core| - 1]) && IsSpace(s[|core|]);
    assert b.0 == 0;
    assert b.1 == |core|;
    assert s[..|core|] == core;
  }

  /** The error line of `error` reads `<prog>: Error: <message>` in the error colour. */
  lemma ErrorLine(p: Palette, prog: string, usage: string, message: string)
    requires usage != "" && prog != "" && !IsSpace(prog[0])
    requires message != "" && !IsSpace(message[|message| - 1])
    ensures var r := Error(p, prog, usage, message);
      r.0[1].text == Sgr(p.error) + prog + ": Error: " + message + RESET
  {
    var core := prog + ": Error: " + message;
    var text := ErrorText(prog, message);
    assert core[0] == prog[0] && core[|core| - 1] == message[|message| - 1];
    assert text == core + "\n";
    var ws := PrintUsage(p, usage, Some(Stderr)).value;
    var more := PrintMessage(text, Some(Stderr), Some(p.error));
    assert more == [Write(Stderr, Coloured(text, p.error))];
    assert Error(p, prog, usage, message).0 == ws + more;
    StripLine(core);
    assert Coloured(text, p.error) == Sgr(p.error) + core + RESET;
    Regroup(Sgr(p.error), prog, ": Error: ", message);
  }

  lemma Regroup(a: string, b: string, c: string, d: string)
    ensures a + (b + c + d) == a + b + c + d
  {
  }
}
