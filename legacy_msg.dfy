/**
 * The earlier printer of the `msg` sub-package: titles and warnings only,
 * written to a single sink `out`. Its rules are those of the top-level
 * printer; its default colours for info and failure differ.
 */
module LegacyMsg {
  import opened Styling
  import opened Strings
  import Msg

  // Default symbols.
  const DefaultInfoSymbol: string := "\U{2139}"
  const DefaultTitleSymbol: string := ""
  const DefaultWarnSymbol: string := "\U{26A0}\U{FE0F}"
  const DefaultFailSymbol: string := "\U{2718}"
  const DefaultGoodSymbol: string := "\U{2714}"

  // Default colours.
  const DefaultInfoColor: Attribute := FgCyan
  const DefaultTitleColor: Attribute := FgCyan
  const DefaultWarnColor: Attribute := FgYellow
  const DefaultFailColor: Attribute := FgRed
  const DefaultGoodColor: Attribute := FgGreen

  class Printer {
    var symbolInfo: string
    var symbolTitle: string
    var symbolWarn: string
    var symbolFail: string
    var symbolGood: string

    var colorInfo: Attribute
    var colorTitle: Attribute
    var colorWarn: Attribute
    var colorFail: Attribute
    var colorGood: Attribute

    // What has been written to the sink.
    var out: string

    /** `newDefault()`: the default symbols and colours, nothing written yet. */
    constructor NewDefault()
      ensures symbolInfo == DefaultInfoSymbol && symbolTitle == DefaultTitleSymbol
      ensures symbolWarn == DefaultWarnSymbol && symbolFail == DefaultFailSymbol
      ensures symbolGood == DefaultGoodSymbol
      ensures colorInfo == DefaultInfoColor && colorTitle == DefaultTitleColor
      ensures colorWarn == DefaultWarnColor && colorFail == DefaultFailColor
      ensures colorGood == DefaultGoodColor
      ensures out == []
    {
      symbolInfo, symbolTitle, symbolWarn := DefaultInfoSymbol, DefaultTitleSymbol, DefaultWarnSymbol;
      symbolFail, symbolGood := DefaultFailSymbol, DefaultGoodSymbol;
      colorInfo, colorTitle, colorWarn := DefaultInfoColor, DefaultTitleColor, DefaultWarnColor;
      colorFail, colorGood := DefaultFailColor, DefaultGoodColor;
      out := [];
    }

    /** The block `Title` writes: one newline before the (prefixed) text and two after, styled as a whole. */
    function TitleBlock(style: Style, text: string): (r: string)
      reads this
    {
      style([colorTitle, Bold], "\n" + Msg.Prefixed(symbolTitle, text) + "\n\n")
    }

    method Title(style: Style, text: string)
      modifies this`out
      ensures out == old(out) + TitleBlock(style, text)
    {
      var t := text;
      if symbolTitle != "" {
        t := "\n" + symbolTitle + "  " + t + "\n\n";
        assert t == "\n" + Msg.Prefixed(symbolTitle, text) + "\n\n";
      } else {
        t := "\n" + t + "\n\n";
      }
      out := out + style([colorTitle, Bold], t);
    }

    /** Trims and prefixes the text only when there is a title symbol. */
    function TitleString(style: Style, text: string): (r: string)
      reads this
      ensures symbolTitle != "" ==> r == style([colorTitle, Bold], Msg.Prefixed(symbolTitle, TrimSpace(text)))
      ensures symbolTitle == "" ==> r == style([colorTitle, Bold], text)
    {
      var t := if symbolTitle != "" then symbolTitle + "  " + TrimSpace(text) else text;
      style([colorTitle, Bold], t)
    }

    method Warn(style: Style, text: string)
      modifies this`out
      ensures out == old(out) + WarnString(style, text) + "\n"
    {
      var t := text;
      if symbolWarn != "" {
        t := symbolWarn + "  " + t;
      }
      out := out + style([colorWarn], t) + "\n";
    }

    function WarnString(style: Style, text: string): (r: string)
      reads this
      ensures r == style([colorWarn], Msg.Prefixed(symbolWarn, text))
    {
      var t := if symbolWarn != "" then symbolWarn + "  " + text else text;
      style([colorWarn], t)
    }
  }

  /**
   * Configured alike, the earlier printer and the top-level one build the
   * same title and warning strings and print the same title block.
   */
  lemma AgreesWithMsg(q: Printer, p: Msg.Printer, style: Style, text: string)
    requires q.symbolTitle == p.symbolTitle && q.colorTitle == p.colorTitle
    requires q.symbolWarn == p.symbolWarn && q.colorWarn == p.colorWarn
    ensures q.TitleString(style, text) == p.Stitle(style, text)
    ensures q.TitleBlock(style, text) == p.TitleBlock(style, text)
    ensures q.WarnString(style, text) == p.Swarn(style, text)
  {
  }

  /**
   * With colour off and a title symbol, the title string of a padded text is
   * the symbol, two spaces and the text, whatever the padding.
   */
  lemma TitleStringDropsPadding(q: Printer, before: string, text: string, after: string)
    requires q.symbolTitle != "" && AllSpace(before) && AllSpace(after) && IsTrimmed(text)
    ensures q.TitleString(Unstyled, before + text + after) == q.symbolTitle + "  " + text
  {
    TrimSpacePadding(before, text, after);
    TrimmedIsFixed(text);
  }

  /** The package-level `Title`: a default printer's title block, with no symbol. */
  method Title(style: Style, text: string) returns (out: string)
    ensures out == style([DefaultTitleColor, Bold], "\n" + text + "\n\n")
  {
    var p := new Printer.NewDefault();
    p.Title(style, text);
    out := p.out;
  }

  /** The package-level `Warn`: a default printer's warning line. */
  method Warn(style: Style, text: string) returns (out: string)
    ensures out == style([DefaultWarnColor], DefaultWarnSymbol + "  " + text) + "\n"
  {
    var p := new Printer.NewDefault();
    p.Warn(style, text);
    out := p.out;
  }
}
