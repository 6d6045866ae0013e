/**
 * The printer of the top-level package: for each kind of message (title,
 * warning, failure, success, information, plain text) a builder that returns
 * the formatted string and a printing method that writes it to the printer's
 * standard output or standard error. Symbols and colours are configurable
 * fields; the sinks are modelled as the text written to each so far.
 */
module Msg {
  import opened Styling
  import opened Strings
  import opened Wrappers

  // Default symbols.
  const DefaultInfoSymbol: string := "\U{2139}"
  const DefaultTitleSymbol: string := ""
  const DefaultWarnSymbol: string := "\U{26A0}\U{FE0F}"
  const DefaultFailSymbol: string := "\U{2718}"
  const DefaultGoodSymbol: string := "\U{2714}"

  // Default colours.
  const DefaultInfoColor: Attribute := FgHiCyan
  const DefaultTitleColor: Attribute := FgCyan
  const DefaultWarnColor: Attribute := FgYellow
  const DefaultFailColor: Attribute := FgHiRed
  const DefaultGoodColor: Attribute := FgGreen

  /** The label a failure carries before its message. */
  const ErrorLabel: string := "Error"

  /**
   * The rule every builder follows: a configured symbol goes in front of the
   * text, separated by two spaces, and an empty symbol adds nothing at all.
   */
  function Prefixed(symbol: string, text: string): (r: string)
    ensures symbol == "" ==> r == text
    ensures symbol != "" ==>
      && |r| == |symbol| + 2 + |text|
      && r[..|symbol|] == symbol && r[|symbol|..|symbol| + 2] == "  " && r[|symbol| + 2..] == text
  {
    if symbol != "" then symbol + "  " + text else text
  }

  /** The message inside a line built by `Prefixed`, when the line has the symbol's prefix. */
  function Unprefixed(symbol: string, s: string): (r: Option<string>)
  {
    if symbol == "" then
      Some(s)
    else if |s| >= |symbol| + 2 && s[..|symbol|] == symbol && s[|symbol|..|symbol| + 2] == "  " then
      Some(s[|symbol| + 2..])
    else
      None
  }

  /** `Unprefixed` inverts `Prefixed`: a line decomposes into `text` exactly when it was built from it. */
  lemma PrefixedInverse(symbol: string, text: string, s: string)
    ensures Unprefixed(symbol, s) == Some(text) <==> Prefixed(symbol, text) == s
  {
    if symbol != "" {
      if Prefixed(symbol, text) == s {
        assert s[|symbol| + 2..] == text;
      }
      if Unprefixed(symbol, s) == Some(text) {
        assert s == s[..|symbol|] + s[|symbol|..|symbol| + 2] + s[|symbol| + 2..];
      }
    }
  }

  class Printer {
    // What has been written to the two sinks.
    var stdout: string
    var stderr: string

    var symbolInfo: string
    var symbolTitle: string
    var symbolWarn: string
    var symbolFail: string
    var symbolGood: string

    var colorInfo: Attribute
    var colorTitle: Attribute
    var colorWarn: Attribute
    var colorFail: Attribute
    var colorGood: Attribute

    /** Every symbol and colour holds its default. */
    ghost predicate HasDefaults()
      reads this
    {
      && symbolInfo == DefaultInfoSymbol && symbolTitle == DefaultTitleSymbol
      && symbolWarn == DefaultWarnSymbol && symbolFail == DefaultFailSymbol
      && symbolGood == DefaultGoodSymbol
      && colorInfo == DefaultInfoColor && colorTitle == DefaultTitleColor
      && colorWarn == DefaultWarnColor && colorFail == DefaultFailColor
      && colorGood == DefaultGoodColor
    }

    /** `Default()`: the default symbols and colours, nothing written yet. */
    constructor Default()
      ensures HasDefaults()
      ensures stdout == [] && stderr == []
    {
      symbolInfo, symbolTitle, symbolWarn := DefaultInfoSymbol, DefaultTitleSymbol, DefaultWarnSymbol;
      symbolFail, symbolGood := DefaultFailSymbol, DefaultGoodSymbol;
      colorInfo, colorTitle, colorWarn := DefaultInfoColor, DefaultTitleColor, DefaultWarnColor;
      colorFail, colorGood := DefaultFailColor, DefaultGoodColor;
      stdout, stderr := [], [];
    }

    /** The block `Title` writes: one newline before the (prefixed) text and two after, styled as a whole. */
    function TitleBlock(style: Style, text: string): (r: string)
      reads this
    {
      style([colorTitle, Bold], "\n" + Prefixed(symbolTitle, text) + "\n\n")
    }

    method Title(style: Style, text: string)
      modifies this`stdout
      ensures stdout == old(stdout) + TitleBlock(style, text)
      ensures stderr == old(stderr)
    {
      var t := text;
      if symbolTitle != "" {
        t := "\n" + symbolTitle + "  " + t + "\n\n";
        assert t == "\n" + Prefixed(symbolTitle, text) + "\n\n";
      } else {
        t := "\n" + t + "\n\n";
      }
      stdout := stdout + style([colorTitle, Bold], t);
    }

    method Titlef<A>(style: Style, sprintf: Formatter<A>, format: string, args: seq<A>)
      modifies this`stdout
      ensures stdout == old(stdout) + TitleBlock(style, sprintf(format, args))
      ensures stderr == old(stderr)
    {
      var text := sprintf(format, args);
      Title(style, text);
    }

    /**
     * The title as a string: with a symbol, the text loses its surrounding
     * whitespace and gets the symbol; without one it is styled as it is.
     */
    function Stitle(style: Style, text: string): (r: string)
      reads this
      ensures symbolTitle != "" ==> r == style([colorTitle, Bold], Prefixed(symbolTitle, TrimSpace(text)))
      ensures symbolTitle == "" ==> r == style([colorTitle, Bold], text)
    {
      var t := if symbolTitle != "" then symbolTitle + "  " + TrimSpace(text) else text;
      style([colorTitle, Bold], t)
    }

    function Stitlef<A>(style: Style, sprintf: Formatter<A>, format: string, args: seq<A>): (r: string)
      reads this
    {
      Stitle(style, sprintf(format, args))
    }

    method Warn(style: Style, text: string)
      modifies this`stdout
      ensures stdout == old(stdout) + Swarn(style, text) + "\n"
      ensures stderr == old(stderr)
    {
      var t := text;
      if symbolWarn != "" {
        t := symbolWarn + "  " + t;
      }
      stdout := stdout + style([colorWarn], t) + "\n";
    }

    method Warnf<A>(style: Style, sprintf: Formatter<A>, format: string, args: seq<A>)
      modifies this`stdout
      ensures stdout == old(stdout) + Swarn(style, sprintf(format, args)) + "\n"
      ensures stderr == old(stderr)
    {
      var text := sprintf(format, args);
      Warn(style, text);
    }

    function Swarn(style: Style, text: string): (r: string)
      reads this
      ensures r == style([colorWarn], Prefixed(symbolWarn, text))
    {
      var t := if symbolWarn != "" then symbolWarn + "  " + text else text;
      style([colorWarn], t)
    }

    function Swarnf<A>(style: Style, sprintf: Formatter<A>, format: string, args: seq<A>): (r: string)
      reads this
    {
      Swarn(style, sprintf(format, args))
    }

    method Fail(style: Style, text: string)
      modifies this`stderr
      ensures stderr == old(stderr) + Sfail(style, text) + "\n"
      ensures stdout == old(stdout)
    {
      var failAttrs := [colorFail, Bold];
      var t := style(failAttrs, ErrorLabel) + ": " + style([FgHiWhite, Bold], text);
      if symbolFail != "" {
        t := style(failAttrs, symbolFail) + "  " + t;
      }
      stderr := stderr + t + "\n";
    }

    method Failf<A>(style: Style, sprintf: Formatter<A>, format: string, args: seq<A>)
      modifies this`stderr
      ensures stderr == old(stderr) + Sfail(style, sprintf(format, args)) + "\n"
      ensures stdout == old(stdout)
    {
      var text := sprintf(format, args);
      Fail(style, text);
    }

    /**
     * A failure as a string: the styled label, a colon and the styled message,
     * behind the styled symbol and two spaces when there is a symbol. It is
     * not styled again as a whole.
     */
    function Sfail(style: Style, text: string): (r: string)
      reads this
      ensures var body := style([colorFail, Bold], ErrorLabel) + ": " + style([FgHiWhite, Bold], text);
              r == if symbolFail == "" then body else style([colorFail, Bold], symbolFail) + "  " + body
    {
      var failAttrs := [colorFail, Bold];
      var t := style(failAttrs, ErrorLabel) + ": " + style([FgHiWhite, Bold], text);
      if symbolFail != "" then style(failAttrs, symbolFail) + "  " + t else t
    }

    function Sfailf<A>(style: Style, sprintf: Formatter<A>, format: string, args: seq<A>): (r: string)
      reads this
    {
      Sfail(style, sprintf(format, args))
    }

    method Good(style: Style, text: string)
      modifies this`stdout
      ensures stdout == old(stdout) + Sgood(style, text) + "\n"
      ensures stderr == old(stderr)
    {
      var t := text;
      if symbolGood != "" {
        t := symbolGood + "  " + t;
      }
      stdout := stdout + style([colorGood], t) + "\n";
    }

    method Goodf<A>(style: Style, sprintf: Formatter<A>, format: string, args: seq<A>)
      modifies this`stdout
      ensures stdout == old(stdout) + Sgood(style, sprintf(format, args)) + "\n"
      ensures stderr == old(stderr)
    {
      var text := sprintf(format, args);
      Good(style, text);
    }

    function Sgood(style: Style, text: string): (r: string)
      reads this
      ensures r == style([colorGood], Prefixed(symbolGood, text))
    {
      var t := if symbolGood != "" then symbolGood + "  " + text else text;
      style([colorGood], t)
    }

    function Sgoodf<A>(style: Style, sprintf: Formatter<A>, format: string, args: seq<A>): (r: string)
      reads this
    {
      Sgood(style, sprintf(format, args))
    }

    method Info(style: Style, text: string)
      modifies this`stdout
      ensures stdout == old(stdout) + Sinfo(style, text) + "\n"
      ensures stderr == old(stderr)
    {
      var t := text;
      if symbolInfo != "" {
        t := symbolInfo + "  " + t;
      }
      stdout := stdout + style([colorInfo], t) + "\n";
    }

    method Infof<A>(style: Style, sprintf: Formatter<A>, format: string, args: seq<A>)
      modifies this`stdout
      ensures stdout == old(stdout) + Sinfo(style, sprintf(format, args)) + "\n"
      ensures stderr == old(stderr)
    {
      var text := sprintf(format, args);
      Info(style, text);
    }

    function Sinfo(style: Style, text: string): (r: string)
      reads this
      ensures r == style([colorInfo], Prefixed(symbolInfo, text))
    {
      var t := if symbolInfo != "" then symbolInfo + "  " + text else text;
      style([colorInfo], t)
    }

    function Sinfof<A>(style: Style, sprintf: Formatter<A>, format: string, args: seq<A>): (r: string)
      reads this
    {
      Sinfo(style, sprintf(format, args))
    }

    /** Plain text: written as it is, with a newline and no styling. */
    method Text(text: string)
      modifies this`stdout
      ensures stdout == old(stdout) + text + "\n"
      ensures stderr == old(stderr)
    {
      stdout := stdout + text + "\n";
    }

    /** The newline is added to the format before formatting. */
    method Textf<A>(sprintf: Formatter<A>, format: string, args: seq<A>)
      modifies this`stdout
      ensures stdout == old(stdout) + sprintf(format + "\n", args)
      ensures stderr == old(stderr)
    {
      stdout := stdout + sprintf(format + "\n", args);
    }

    function Stext(text: string): (r: string)
      ensures r == text
    {
      text
    }

    function Stextf<A>(sprintf: Formatter<A>, format: string, args: seq<A>): (r: string)
    {
      sprintf(format, args)
    }
  }

  /** Every formatted builder is its plain builder applied to the formatted text. */
  lemma FormattedBuilders<A>(p: Printer, style: Style, sprintf: Formatter<A>, format: string, args: seq<A>)
    ensures var text := sprintf(format, args);
            && p.Stitlef(style, sprintf, format, args) == p.Stitle(style, text)
            && p.Swarnf(style, sprintf, format, args) == p.Swarn(style, text)
            && p.Sfailf(style, sprintf, format, args) == p.Sfail(style, text)
            && p.Sgoodf(style, sprintf, format, args) == p.Sgood(style, text)
            && p.Sinfof(style, sprintf, format, args) == p.Sinfo(style, text)
            && p.Stextf(sprintf, format, args) == p.Stext(text)
  {
  }

  /**
   * With colour off, the message can be read back out of every symbol-led
   * builder, so two different messages never give the same line; a failure
   * reads back as its label and message.
   */
  lemma UnstyledBuildersRecoverText(p: Printer, text: string)
    ensures Unprefixed(p.symbolWarn, p.Swarn(Unstyled, text)) == Some(text)
    ensures Unprefixed(p.symbolGood, p.Sgood(Unstyled, text)) == Some(text)
    ensures Unprefixed(p.symbolInfo, p.Sinfo(Unstyled, text)) == Some(text)
    ensures Unprefixed(p.symbolFail, p.Sfail(Unstyled, text)) == Some(ErrorLabel + ": " + text)
  {
    PrefixedInverse(p.symbolWarn, text, p.Swarn(Unstyled, text));
    PrefixedInverse(p.symbolGood, text, p.Sgood(Unstyled, text));
    PrefixedInverse(p.symbolInfo, text, p.Sinfo(Unstyled, text));
    var body := ErrorLabel + ": " + text;
    assert p.Sfail(Unstyled, text) == Prefixed(p.symbolFail, body);
    PrefixedInverse(p.symbolFail, body, p.Sfail(Unstyled, text));
  }

  /**
   * With a title symbol, whitespace around the text does not reach the
   * title string; without one, the text (colour off) comes back untouched.
   */
  lemma StitleSpacing(p: Printer, style: Style, before: string, text: string, after: string)
    requires AllSpace(before) && AllSpace(after)
    ensures p.symbolTitle != "" ==> p.Stitle(style, before + text + after) == p.Stitle(style, text)
    ensures p.symbolTitle == "" ==> p.Stitle(Unstyled, before + text + after) == before + text + after
  {
    TrimSpacePadding(before, text, after);
  }

  /**
   * With colour off, `Title` writes the title string between one newline and
   * two, as long as trimming has nothing to remove.
   */
  lemma TitleFramesStitle(p: Printer, text: string)
    requires p.symbolTitle == "" || IsTrimmed(text)
    ensures p.TitleBlock(Unstyled, text) == "\n" + p.Stitle(Unstyled, text) + "\n\n"
  {
    if p.symbolTitle != "" {
      TrimmedIsFixed(text);
    }
  }

  /**
   * With colour off, each builder is its symbol rule applied to the message,
   * a failure's message being its label, a colon and the text.
   */
  lemma UnstyledBuilders(p: Printer, text: string)
    ensures p.TitleBlock(Unstyled, text) == "\n" + Prefixed(p.symbolTitle, text) + "\n\n"
    ensures p.Swarn(Unstyled, text) == Prefixed(p.symbolWarn, text)
    ensures p.Sgood(Unstyled, text) == Prefixed(p.symbolGood, text)
    ensures p.Sinfo(Unstyled, text) == Prefixed(p.symbolInfo, text)
    ensures p.Sfail(Unstyled, text) == Prefixed(p.symbolFail, ErrorLabel + ": " + text)
  {
  }

  /** A default printer's title, with colour off, as the tests expect it. */
  method ExpectedTitle() returns (printed: string)
    ensures printed == "\nI'm a Title\n\n"
  {
    var p := new Printer.Default();
    p.Title(Unstyled, "I'm a Title");
    printed := p.stdout;
  }

  /** A title string with a title symbol, colour off, as the tests expect it. */
  method ExpectedStitle() returns (built: string)
    ensures built == "\U{1F4A8}  I'm a Stitle"
  {
    var p := new Printer.Default();
    p.symbolTitle := "\U{1F4A8}";
    TrimmedIsFixed("I'm a Stitle");
    built := p.Stitle(Unstyled, "I'm a Stitle");
  }

  /** A default printer's failure, with colour off, goes to standard error as the tests expect it. */
  method ExpectedFailure() returns (stdout: string, stderr: string)
    ensures stderr == DefaultFailSymbol + "  Error: I'm a Failure\n"
    ensures stdout == []
  {
    var p := new Printer.Default();
    p.Fail(Unstyled, "I'm a Failure");
    stdout, stderr := p.stdout, p.stderr;
  }

  /** A default printer's warning, with colour off, as the tests expect it. */
  method ExpectedWarning() returns (printed: string)
    ensures printed == DefaultWarnSymbol + "  I'm a Warning\n"
  {
    var p := new Printer.Default();
    p.Warn(Unstyled, "I'm a Warning");
    printed := p.stdout;
  }

  /** A warning string with another symbol, colour off, as the tests expect it. */
  method ExpectedSwarn() returns (built: string)
    ensures built == "\U{2622}\U{FE0F}  I'm a Swarn"
  {
    var p := new Printer.Default();
    p.symbolWarn := "\U{2622}\U{FE0F}";
    built := p.Swarn(Unstyled, "I'm a Swarn");
  }

  // The package-level functions: each builds a default printer and uses it.
  // The printing ones return what the default printer wrote to standard
  // output and standard error.

  method Title(style: Style, text: string) returns (stdout: string, stderr: string)
    ensures stdout == style([DefaultTitleColor, Bold], "\n" + text + "\n\n") && stderr == []
  {
    var p := new Printer.Default();
    p.Title(style, text);
    stdout, stderr := p.stdout, p.stderr;
  }

  method Titlef<A>(style: Style, sprintf: Formatter<A>, format: string, args: seq<A>) returns (stdout: string, stderr: string)
    ensures stdout == style([DefaultTitleColor, Bold], "\n" + sprintf(format, args) + "\n\n") && stderr == []
  {
    var p := new Printer.Default();
    p.Titlef(style, sprintf, format, args);
    stdout, stderr := p.stdout, p.stderr;
  }

  method Stitle(style: Style, text: string) returns (r: string)
    ensures r == style([DefaultTitleColor, Bold], text)
  {
    var p := new Printer.Default();
    r := p.Stitle(style, text);
  }

  method Stitlef<A>(style: Style, sprintf: Formatter<A>, format: string, args: seq<A>) returns (r: string)
    ensures r == style([DefaultTitleColor, Bold], sprintf(format, args))
  {
    var p := new Printer.Default();
    r := p.Stitlef(style, sprintf, format, args);
  }

  method Warn(style: Style, text: string) returns (stdout: string, stderr: string)
    ensures stdout == style([DefaultWarnColor], DefaultWarnSymbol + "  " + text) + "\n" && stderr == []
  {
    var p := new Printer.Default();
    p.Warn(style, text);
    stdout, stderr := p.stdout, p.stderr;
  }

  method Warnf<A>(style: Style, sprintf: Formatter<A>, format: string, args: seq<A>) returns (stdout: string, stderr: string)
    ensures stdout == style([DefaultWarnColor], DefaultWarnSymbol + "  " + sprintf(format, args)) + "\n" && stderr == []
  {
    var p := new Printer.Default();
    p.Warnf(style, sprintf, format, args);
    stdout, stderr := p.stdout, p.stderr;
  }

  method Swarn(style: Style, text: string) returns (r: string)
    ensures r == style([DefaultWarnColor], DefaultWarnSymbol + "  " + text)
  {
    var p := new Printer.Default();
    r := p.Swarn(style, text);
  }

  method Swarnf<A>(style: Style, sprintf: Formatter<A>, format: string, args: seq<A>) returns (r: string)
    ensures r == style([DefaultWarnColor], DefaultWarnSymbol + "  " + sprintf(format, args))
  {
    var p := new Printer.Default();
    r := p.Swarnf(style, sprintf, format, args);
  }

  method Fail(style: Style, text: string) returns (stdout: string, stderr: string)
    ensures stdout == []
    ensures stderr == style([DefaultFailColor, Bold], DefaultFailSymbol) + "  "
                      + style([DefaultFailColor, Bold], ErrorLabel) + ": " + style([FgHiWhite, Bold], text) + "\n"
  {
    var p := new Printer.Default();
    p.Fail(style, text);
    stdout, stderr := p.stdout, p.stderr;
  }

  method Failf<A>(style: Style, sprintf: Formatter<A>, format: string, args: seq<A>) returns (stdout: string, stderr: string)
    ensures stdout == []
    ensures stderr == style([DefaultFailColor, Bold], DefaultFailSymbol) + "  "
                      + style([DefaultFailColor, Bold], ErrorLabel) + ": " + style([FgHiWhite, Bold], sprintf(format, args)) + "\n"
  {
    var p := new Printer.Default();
    p.Failf(style, sprintf, format, args);
    stdout, stderr := p.stdout, p.stderr;
  }

  method Sfail(style: Style, text: string) returns (r: string)
    ensures r == style([DefaultFailColor, Bold], DefaultFailSymbol) + "  "
                 + style([DefaultFailColor, Bold], ErrorLabel) + ": " + style([FgHiWhite, Bold], text)
  {
    var p := new Printer.Default();
    r := p.Sfail(style, text);
  }

  method Sfailf<A>(style: Style, sprintf: Formatter<A>, format: string, args: seq<A>) returns (r: string)
    ensures r == style([DefaultFailColor, Bold], DefaultFailSymbol) + "  "
                 + style([DefaultFailColor, Bold], ErrorLabel) + ": " + style([FgHiWhite, Bold], sprintf(format, args))
  {
    var p := new Printer.Default();
    r := p.Sfailf(style, sprintf, format, args);
  }

  method Good(style: Style, text: string) returns (stdout: string, stderr: string)
    ensures stdout == style([DefaultGoodColor], DefaultGoodSymbol + "  " + text) + "\n" && stderr == []
  {
    var p := new Printer.Default();
    p.Good(style, text);
    stdout, stderr := p.stdout, p.stderr;
  }

  method Goodf<A>(style: Style, sprintf: Formatter<A>, format: string, args: seq<A>) returns (stdout: string, stderr: string)
    ensures stdout == style([DefaultGoodColor], DefaultGoodSymbol + "  " + sprintf(format, args)) + "\n" && stderr == []
  {
    var p := new Printer.Default();
    p.Goodf(style, sprintf, format, args);
    stdout, stderr := p.stdout, p.stderr;
  }

  method Sgood(style: Style, text: string) returns (r: string)
    ensures r == style([DefaultGoodColor], DefaultGoodSymbol + "  " + text)
  {
    var p := new Printer.Default();
    r := p.Sgood(style, text);
  }

  method Sgoodf<A>(style: Style, sprintf: Formatter<A>, format: string, args: seq<A>) returns (r: string)
    ensures r == style([DefaultGoodColor], DefaultGoodSymbol + "  " + sprintf(format, args))
  {
    var p := new Printer.Default();
    r := p.Sgoodf(style, sprintf, format, args);
  }

  method Info(style: Style, text: string) returns (stdout: string, stderr: string)
    ensures stdout == style([DefaultInfoColor], DefaultInfoSymbol + "  " + text) + "\n" && stderr == []
  {
    var p := new Printer.Default();
    p.Info(style, text);
    stdout, stderr := p.stdout, p.stderr;
  }

  method Infof<A>(style: Style, sprintf: Formatter<A>, format: string, args: seq<A>) returns (stdout: string, stderr: string)
    ensures stdout == style([DefaultInfoColor], DefaultInfoSymbol + "  " + sprintf(format, args)) + "\n" && stderr == []
  {
    var p := new Printer.Default();
    p.Infof(style, sprintf, format, args);
    stdout, stderr := p.stdout, p.stderr;
  }

  method Sinfo(style: Style, text: string) returns (r: string)
    ensures r == style([DefaultInfoColor], DefaultInfoSymbol + "  " + text)
  {
    var p := new Printer.Default();
    r := p.Sinfo(style, text);
  }

  method Sinfof<A>(style: Style, sprintf: Formatter<A>, format: string, args: seq<A>) returns (r: string)
    ensures r == style([DefaultInfoColor], DefaultInfoSymbol + "  " + sprintf(format, args))
  {
    var p := new Printer.Default();
    r := p.Sinfof(style, sprintf, format, args);
  }

  method Text(text: string) returns (stdout: string, stderr: string)
    ensures stdout == text + "\n" && stderr == []
  {
    var p := new Printer.Default();
    p.Text(text);
    stdout, stderr := p.stdout, p.stderr;
  }

  method Textf<A>(sprintf: Formatter<A>, format: string, args: seq<A>) returns (stdout: string, stderr: string)
    ensures stdout == sprintf(format + "\n", args) && stderr == []
  {
    var p := new Printer.Default();
    p.Textf(sprintf, format, args);
    stdout, stderr := p.stdout, p.stderr;
  }

  method Stext(text: string) returns (r: string)
    ensures r == text
  {
    var p := new Printer.Default();
    r := p.Stext(text);
  }

  method Stextf<A>(sprintf: Formatter<A>, format: string, args: seq<A>) returns (r: string)
    ensures r == sprintf(format, args)
  {
    var p := new Printer.Default();
    r := p.Stextf(sprintf, format, args);
  }
}
