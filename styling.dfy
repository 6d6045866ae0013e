/**
 * The foreign colour library the printers call (`github.com/fatih/color`),
 * reduced to what the printers rely on: a styler built from a list of
 * attributes turns a string into a styled string. Whether it adds escape
 * codes, and which, is the library's business, so a `Style` is a parameter.
 */
module Styling {

  /** A text attribute, an integer as in the library. */
  type Attribute = int

  // The attribute values the printers use.
  const Bold: Attribute := 1
  const FgRed: Attribute := 31
  const FgGreen: Attribute := 32
  const FgYellow: Attribute := 33
  const FgCyan: Attribute := 36
  const FgHiRed: Attribute := 91
  const FgHiCyan: Attribute := 96
  const FgHiWhite: Attribute := 97

  /** `color.New(attrs...).Sprint(text)` for the library's current settings. */
  type Style = (seq<Attribute>, string) -> string

  /** The library with colour switched off: text passes through unchanged. */
  function Unstyled(attrs: seq<Attribute>, text: string): (r: string)
  {
    text
  }

  /** `fmt.Sprintf(format, args...)`, taken as given. */
  type Formatter<-A> = (string, seq<A>) -> string
}
