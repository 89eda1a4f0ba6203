/** The console reporter (BoxCLI/CommandUtilities/Reporter.cs): how a message
    becomes the text of one console write and which stream receives it. The
    static `NoColor` and `PrefixOutput` flags and `Environment.NewLine` are
    passed in as `Settings`; the escape codes of `ColorConstants` as a
    `Palette`. */
module Reporter {
  import opened Wrappers
  import opened Strings

  datatype Settings = Settings(noColor: bool, prefixOutput: bool, newline: string)

  /** Bold, Reset and the four colours the writers use. */
  datatype Palette = Palette(bold: string, reset: string, green: string, red: string, yellow: string, gray: string)

  /** One writer per level: WriteSuccess, WriteError, WriteWarning,
      WriteWarningNoNewLine, WriteInformation, WriteData. */
  datatype Level = Success | Error | Warning | WarningNoNewLine | Information | Data

  /** `Console.Out`, `Console.Error`, or `AnsiConsole` with its error flag. */
  datatype Stream = StandardOut | StandardError | Ansi(isErr: bool)

  /** One console write: where it goes, its text, and whether a newline follows. */
  datatype Emission = Emission(stream: Stream, text: string, endLine: bool)

  /** The fixed tag each writer puts before every line. */
  function Tag(level: Level): string {
    match level
    case Success => "success:   "
    case Error => "error:   "
    case Warning => "warn:    "
    case WarningNoNewLine => "warn:    "
    case Information => "info:    "
    case Data => "data:    "
  }

  /** `Colorize`: the value itself under NoColor, else the wrapped value. */
  function Colorize(noColor: bool, value: string, colorize: string -> string): (r: string)
    ensures noColor ==> r == value
    ensures !noColor ==> r == colorize(value)
  {
    if noColor then value else colorize(value)
  }

  /** The writers' wrapper `x => Bold + colour + x + Reset`. */
  function Paint(p: Palette, colour: string): string -> string {
    x => p.bold + colour + x + p.reset
  }

  /** The colour each writer paints with; WriteInformation paints nothing. */
  function Colour(p: Palette, level: Level): Option<string> {
    match level
    case Success => Some(p.green)
    case Error => Some(p.red)
    case Warning => Some(p.yellow)
    case WarningNoNewLine => Some(p.yellow)
    case Information => None
    case Data => Some(p.gray)
  }

  /** Every line with the prefix in front of it. */
  function PrefixLines(prefix: string, lines: seq<string>): (r: seq<string>)
    ensures |r| == |lines|
    ensures forall i :: 0 <= i < |r| ==> r[i] == prefix + lines[i]
  {
    seq(|lines|, i requires 0 <= i < |lines| => prefix + lines[i])
  }

  /** Every line with its first `n` characters removed. */
  function DropPrefixes(n: nat, lines: seq<string>): seq<string>
    requires forall i :: 0 <= i < |lines| ==> n <= |lines[i]|
  {
    seq(|lines|, i requires 0 <= i < |lines| => lines[i][n..])
  }

  /** `Prefix`: with PrefixOutput on, the value is split on the newline
      string, every line is prefixed, and the lines are joined again. */
  function Prefix(prefixOutput: bool, newline: string, prefix: string, value: string): (r: string)
    requires |newline| > 0
    ensures !prefixOutput ==> r == value
  {
    if prefixOutput then Join(newline, PrefixLines(prefix, Split(value, newline))) else value
  }

  /** `WriteLine`/`Write`: under NoColor an error goes to standard output and
      anything else to standard error; otherwise to `AnsiConsole`. */
  function StreamFor(noColor: bool, isErr: bool): Stream {
    if noColor && isErr then StandardOut
    else if noColor && !isErr then StandardError
    else Ansi(isErr)
  }

  /** The write one of the six writers performs for `message`. */
  function Write(s: Settings, p: Palette, level: Level, message: string): Emission
    requires |s.newline| > 0
  {
    var shown := match Colour(p, level)
      case None => message
      case Some(colour) => Colorize(s.noColor, message, Paint(p, colour));
    Emission(StreamFor(s.noColor, level == Error), Prefix(s.prefixOutput, s.newline, Tag(level), shown),
             level != WarningNoNewLine)
  }

  /** Stripping the prefix from every output line and joining the lines
      again gives back the value, whatever the newline string. */
  lemma PrefixStrip(newline: string, prefix: string, value: string)
    requires |newline| > 0
    ensures var lines := PrefixLines(prefix, Split(value, newline));
      && Prefix(true, newline, prefix, value) == Join(newline, lines)
      && |lines| == |Split(value, newline)|
      && (forall i :: 0 <= i < |lines| ==> |prefix| <= |lines[i]| && lines[i][..|prefix|] == prefix)
      && Join(newline, DropPrefixes(|prefix|, lines)) == value
  {
    var pieces := Split(value, newline);
    var lines := PrefixLines(prefix, pieces);
    assert DropPrefixes(|prefix|, lines) == pieces;
    JoinSplit(value, newline);
  }

  /** With a one-character newline that the prefix does not contain, the
      output has exactly as many lines as the value, each one the prefix
      followed by the corresponding line of the value. */
  lemma PrefixKeepsLines(newline: char, prefix: string, value: string)
    requires newline !in prefix
    ensures Split(Prefix(true, [newline], prefix, value), [newline]) == PrefixLines(prefix, Split(value, [newline]))
    ensures |Split(Prefix(true, [newline], prefix, value), [newline])| == |Split(value, [newline])|
  {
    var pieces := Split(value, [newline]);
    var lines := PrefixLines(prefix, pieces);
    SplitPieces(value, newline);
    forall i | 0 <= i < |lines| ensures newline !in lines[i] {
      assert lines[i] == prefix + pieces[i];
    }
    SplitJoin(newline, lines);
  }

  /** Under NoColor no writer adds escape codes: the text is the prefixed message. */
  lemma NoColorIsPlain(s: Settings, p: Palette, level: Level, message: string)
    requires |s.newline| > 0 && s.noColor
    ensures Write(s, p, level, message).text == Prefix(s.prefixOutput, s.newline, Tag(level), message)
  {
  }

  /** WriteInformation never colourises: its text does not depend on NoColor
      or on the palette. */
  lemma InformationUncoloured(s: Settings, p: Palette, message: string)
    requires |s.newline| > 0
    ensures Write(s, p, Information, message).text == Prefix(s.prefixOutput, s.newline, "info:    ", message)
  {
  }

  /** With colour on and prefixing off, a coloured writer's text is its
      message between Bold plus the level's colour and Reset. */
  lemma ColouredText(s: Settings, p: Palette, level: Level, message: string)
    requires |s.newline| > 0 && !s.noColor && !s.prefixOutput && level != Information
    ensures Write(s, p, level, message).text == p.bold + Colour(p, level).value + message + p.reset
  {
  }

  /** The stream mapping is inverted under NoColor: only errors reach
      standard output, every other level reaches standard error; without
      NoColor everything goes through AnsiConsole, flagged only for errors. */
  lemma StreamChoice(s: Settings, p: Palette, level: Level, message: string)
    requires |s.newline| > 0
    ensures var e := Write(s, p, level, message);
      && (s.noColor ==> (e.stream == StandardOut <==> level == Error))
      && (s.noColor ==> (e.stream == StandardError <==> level != Error))
      && (!s.noColor ==> e.stream == Ansi(level == Error))
  {
  }

  /** Only WriteWarningNoNewLine leaves the line open. */
  lemma EndOfLine(s: Settings, p: Palette, level: Level, message: string)
    requires |s.newline| > 0
    ensures !Write(s, p, level, message).endLine <==> level == WarningNoNewLine
  {
  }
}
