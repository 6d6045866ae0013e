# msg: console message formatting, in Dafny

This project models the formatting core of `msg`, a small Go library that
command-line tools use to print titles, warnings, failures, successes,
information and plain text. Each kind of message has a symbol and a colour.
It covers three parts of the library:

- **internal/colour** (module `Colour`): the package's own ANSI colouring.
  `sprint` either wraps text in an escape code and the reset code, or leaves
  it alone. The choice follows `$NO_COLOR` and `$FORCE_COLOR`, and force
  wins. All six codes are padded to nine characters, so styled columns stay
  aligned.
- **msg.go** (module `Msg`): the current `Printer`. For each kind there is a
  builder (`Stitle`, `Swarn`, `Sfail`, `Sgood`, `Sinfo`, `Stext`), a printing
  method (`Title`, `Warn`, `Fail`, `Good`, `Info`, `Text`), the `…f` variants
  and the package-level shortcuts that use `Default()`. `Printer` is a class.
  Its two sinks are `seq<char>` fields holding everything written so far, and
  each printing method appends to exactly one of them: failures go to
  standard error, everything else to standard output.
- **msg/msg.go** (module `LegacyMsg`): the earlier `Printer`. It has titles
  and warnings only and one sink, `out`.

Supporting modules:

- `Strings` models Go's `strings.TrimSpace`, which the title builders use.
- `Styling` models the external colour library (`github.com/fatih/color`) as
  a parameter `style: (seq<Attribute>, string) -> string`. `Unstyled` is
  that library with colour switched off, which is the case the library's
  tests assume.
- `Wrappers` holds `Option`.

The main results:

- `Sprint` is described by a separate definition of "colour is on", whose
  three cases are proved.
- Styled text is the plain text framed by nine-character codes, and
  `Unstyle` gives the text back. Every code widens the text by the same
  amount.
- One rule, `Prefixed`, puts a symbol and two spaces in front of the text
  only when the symbol is non-empty. `Unprefixed` undoes it, in both
  directions. With colour off, the message can be read back from the
  strings of `Swarn`, `Sgood` and `Sinfo`, and "Error: " plus the message
  from `Sfail`. `Stitle` is not among them: with a title symbol it trims, so
  texts that differ only in surrounding whitespace give the same string.
- `Stitle` ignores surrounding whitespace when a title symbol is set, under
  any style. Without one, and with colour off, it returns the text
  untouched. With colour off, `Title` writes `Stitle`'s string between one
  newline and two whenever trimming has nothing to remove; with colour on
  the newlines are inside the styling, so this framing is not claimed.
- `Warn`, `Fail`, `Good`, `Info`, `Text` and the `…f` forms of the first
  four append exactly their builder's string and a newline, to the right
  sink, and change nothing else. `Title` (and `Titlef`) append the styled
  block `TitleBlock`, that is the style applied to a newline, the prefixed
  text and two newlines. `Textf` appends the formatter's result for the
  format with a newline added to it, which need not be `Stextf`'s string
  followed by a newline.
- The earlier printer builds the same strings as the current one when both
  are configured alike.

Where the comments and the code disagree, the model follows the code:

- `Stitle`, `Stitlef` and `TitleString` are documented as trimming their
  text (msg.go:102, msg.go:114, msg/msg.go:101). The code trims only when a title symbol is
  set, so with the default (empty) symbol the text is not trimmed.
- The tests of msg.go assign a field `Out` (msg_test.go:20, :47) that the
  current `Printer` no longer has. The model uses the `Stdout`/`Stderr` it
  does have.
- The tests under msg/ cover `Fail`, `Good` and their string forms
  (msg/msg_test.go:139-221). msg/msg.go defines none of them, so those tests
  are not modelled.

## Model

| member | source | states |
|---|---|---|
| `Colour.CodesUniform` | internal/colour/colour.go:14-23 | the six escape codes all have width 9 and are pairwise different |
| `Colour.Sprint` | internal/colour/colour.go:63-81 | when colour is on (forced, or not switched off) the result is code + text + reset; otherwise it is the text unchanged; so force beats no-colour, and neither set means colour |
| `Colour.SprintFrames` | internal/colour/colour.go:66-81 | styled output is exactly the text, or the text between a 9-character code and a 9-character reset; `Unstyle` under the same flags recovers the text |
| `Colour.SprintKeepsAlignment` | internal/colour/colour.go:3-4 | whichever codes style two texts, each grows by the same amount (18 with colour, 0 without), so equal-width columns stay aligned |
| `Colour.Title` | internal/colour/colour.go:38-41 | wraps in `CodeTitle` when colour is on, otherwise returns the text |
| `Colour.Success` | internal/colour/colour.go:43-46 | wraps in `CodeSuccess` when colour is on, otherwise returns the text |
| `Colour.Info` | internal/colour/colour.go:48-51 | wraps in `CodeInfo` when colour is on, otherwise returns the text |
| `Colour.Warn` | internal/colour/colour.go:53-56 | wraps in `CodeWarn` when colour is on, otherwise returns the text |
| `Colour.Error` | internal/colour/colour.go:58-61 | wraps in `CodeError` when colour is on, otherwise returns the text |
| `Strings.TrimLeft` | msg.go:109 | the result is a suffix of the input, everything dropped is a space, and it does not start with a space |
| `Strings.TrimRight` | msg.go:109 | the result is a prefix of the input, everything dropped is a space, and it does not end with a space |
| `Strings.TrimSpace` | msg.go:109 | neither end of the result is a space, and the result is empty exactly when the input is all spaces |
| `Strings.TrimSpaceInfix` | msg.go:109 | the trimmed text is the stretch of the input between a run of leading spaces and a run of trailing spaces |
| `Strings.TrimmedIsFixed` | msg.go:109 | trimming a text with no space at either end returns it unchanged |
| `Strings.TrimSpaceIdempotent` | msg.go:109 | trimming twice is the same as trimming once |
| `Strings.TrimLeftPadding` | msg.go:109 | leading spaces make no difference to left trimming |
| `Strings.TrimRightPadding` | msg.go:109 | trailing spaces make no difference to right trimming |
| `Strings.TrimLeftAppend` | msg.go:109 | when a text holds a non-space, left trimming never reaches what follows it |
| `Strings.TrimSpacePadding` | msg.go:109 | spaces added at either end make no difference to `TrimSpace` |
| `Msg.Prefixed` | msg.go:124-126 | with an empty symbol the text is unchanged; otherwise the line is the symbol, then exactly two spaces, then the text |
| `Msg.PrefixedInverse` | msg.go:124-126 | `Unprefixed(symbol, s)` is `Some(text)` exactly when `Prefixed(symbol, text)` is `s` (both directions) |
| `Msg.Printer.Default` | msg.go:58-73 | every symbol and colour holds its default (empty title symbol), and nothing has been written to either sink |
| `Msg.Printer.Title` | msg.go:82-92 | appends to standard output the styled block "\n" + symbol + "  " + text + "\n\n", with no symbol part when the title symbol is empty; standard error and the configuration are unchanged |
| `Msg.Printer.Titlef` | msg.go:95-98 | appends the title block of the formatted text to standard output only |
| `Msg.Printer.Stitle` | msg.go:104-112 | with a title symbol: the styled symbol, two spaces and the trimmed text; without one: the styled text, not trimmed |
| `Msg.Printer.Warn` | msg.go:121-128 | appends `Swarn(text)` and a newline to standard output; standard error is unchanged |
| `Msg.Printer.Warnf` | msg.go:131-134 | appends `Swarn` of the formatted text and a newline to standard output only |
| `Msg.Printer.Swarn` | msg.go:137-144 | the warning colour applied to the text, prefixed by the symbol and two spaces only when the symbol is non-empty |
| `Msg.Printer.Fail` | msg.go:153-163 | appends `Sfail(text)` and a newline to standard error; standard output is unchanged |
| `Msg.Printer.Failf` | msg.go:166-169 | appends `Sfail` of the formatted text and a newline to standard error only |
| `Msg.Printer.Sfail` | msg.go:172-182 | the fail-styled "Error", ": " and the message-styled text; when the symbol is non-empty, the fail-styled symbol and two spaces come first; the whole is not styled again |
| `Msg.Printer.Good` | msg.go:191-198 | appends `Sgood(text)` and a newline to standard output; standard error is unchanged |
| `Msg.Printer.Goodf` | msg.go:201-204 | appends `Sgood` of the formatted text and a newline to standard output only |
| `Msg.Printer.Sgood` | msg.go:207-214 | the success colour applied to the text, prefixed by the symbol and two spaces only when the symbol is non-empty |
| `Msg.Printer.Info` | msg.go:223-230 | appends `Sinfo(text)` and a newline to standard output; standard error is unchanged |
| `Msg.Printer.Infof` | msg.go:233-236 | appends `Sinfo` of the formatted text and a newline to standard output only |
| `Msg.Printer.Sinfo` | msg.go:239-246 | the info colour applied to the text, prefixed by the symbol and two spaces only when the symbol is non-empty |
| `Msg.Printer.Text` | msg.go:256-258 | appends the text and a newline, unstyled, to standard output only |
| `Msg.Printer.Textf` | msg.go:263-265 | appends the formatting of format + "\n" to standard output only |
| `Msg.Printer.Stext` | msg.go:268-270 | returns the text unchanged |
| `Msg.FormattedBuilders` | msg.go:114-275 | `Stitlef`, `Swarnf`, `Sfailf`, `Sgoodf`, `Sinfof` and `Stextf` each equal their plain builder applied to the formatted text |
| `Msg.UnstyledBuildersRecoverText` | msg.go:137-246 | with colour off, removing the symbol prefix from `Swarn`/`Sgood`/`Sinfo` gives back the text, and from `Sfail` gives "Error: " + text, so different messages give different lines |
| `Msg.StitleSpacing` | msg.go:100-112 | with a title symbol, whitespace around the text never reaches `Stitle`; without one, with colour off, the text comes back with its whitespace |
| `Msg.TitleFramesStitle` | msg.go:82-112 | with colour off, `Title` writes "\n" + `Stitle(text)` + "\n\n" whenever the title symbol is empty or the text has no surrounding whitespace |
| `Msg.UnstyledBuilders` | msg.go:82-246 | with colour off, the title block is "\n" + prefixed text + "\n\n", warnings, successes and infos are the prefixed text, and a failure is the prefixed "Error: " + text |
| `Msg.ExpectedTitle` | msg_test.go:55-62 | a default printer's `Title("I'm a Title")` writes "\nI'm a Title\n\n" |
| `Msg.ExpectedStitle` | msg_test.go:85-95 | with title symbol 💨, `Stitle("I'm a Stitle")` is "💨  I'm a Stitle" |
| `Msg.ExpectedFailure` | msg_test.go:183-190 | a default printer's `Fail("I'm a Failure")` writes "✘  Error: I'm a Failure\n" to standard error and nothing to standard output |
| `Msg.ExpectedWarning` | msg_test.go:119-126 | a default printer's `Warn("I'm a Warning")` writes "⚠️  I'm a Warning\n" |
| `Msg.ExpectedSwarn` | msg_test.go:171-181 | with warn symbol ☢️, `Swarn("I'm a Swarn")` is "☢️  I'm a Swarn" |
| `Msg.Title` | msg.go:281-284 | writes the default title block, "\n" + text + "\n\n" with no symbol, to standard output only |
| `Msg.Titlef` | msg.go:287-290 | writes the default title block of the formatted text to standard output only |
| `Msg.Stitle` | msg.go:293-296 | the default title style applied to the untrimmed text (the default title symbol is empty) |
| `Msg.Stitlef` | msg.go:299-302 | the default title style applied to the untrimmed formatted text |
| `Msg.Warn` | msg.go:305-308 | writes the default-styled "⚠️  " + text and a newline to standard output only |
| `Msg.Warnf` | msg.go:311-314 | writes the default-styled "⚠️  " + formatted text and a newline to standard output only |
| `Msg.Swarn` | msg.go:317-320 | the default-styled "⚠️  " + text |
| `Msg.Swarnf` | msg.go:323-326 | the default-styled "⚠️  " + formatted text |
| `Msg.Fail` | msg.go:329-332 | writes the styled "✘", two spaces, styled "Error", ": ", the styled text and a newline to standard error only |
| `Msg.Failf` | msg.go:335-338 | as `Fail`, for the formatted text |
| `Msg.Sfail` | msg.go:341-344 | the styled "✘", two spaces, styled "Error", ": " and the styled text |
| `Msg.Sfailf` | msg.go:347-350 | as `Sfail`, for the formatted text |
| `Msg.Good` | msg.go:353-356 | writes the default-styled "✔  " + text and a newline to standard output only |
| `Msg.Goodf` | msg.go:359-362 | as `Good`, for the formatted text |
| `Msg.Sgood` | msg.go:365-368 | the default-styled "✔  " + text |
| `Msg.Sgoodf` | msg.go:371-374 | as `Sgood`, for the formatted text |
| `Msg.Info` | msg.go:377-380 | writes the default-styled "ℹ  " + text and a newline to standard output only |
| `Msg.Infof` | msg.go:383-386 | as `Info`, for the formatted text |
| `Msg.Sinfo` | msg.go:389-392 | the default-styled "ℹ  " + text |
| `Msg.Sinfof` | msg.go:395-398 | as `Sinfo`, for the formatted text |
| `Msg.Text` | msg.go:401-404 | writes the text and a newline to standard output only |
| `Msg.Textf` | msg.go:407-410 | writes the formatting of format + "\n" to standard output only |
| `Msg.Stext` | msg.go:413-416 | returns the text unchanged |
| `Msg.Stextf` | msg.go:419-422 | returns the formatted text |
| `LegacyMsg.Printer.NewDefault` | msg/msg.go:64-78 | every symbol and colour holds this package's default (empty title symbol; cyan info, red failure), and nothing has been written |
| `LegacyMsg.Printer.Title` | msg/msg.go:87-97 | appends to `out` the styled block "\n" + symbol + "  " + text + "\n\n", with no symbol part when the title symbol is empty |
| `LegacyMsg.Printer.TitleString` | msg/msg.go:103-111 | with a title symbol: the styled symbol, two spaces and the trimmed text; without one: the styled text, not trimmed |
| `LegacyMsg.Printer.Warn` | msg/msg.go:114-121 | appends `WarnString(text)` and a newline to `out` |
| `LegacyMsg.Printer.WarnString` | msg/msg.go:124-130 | the warning colour applied to the text, prefixed by the symbol and two spaces only when the symbol is non-empty |
| `LegacyMsg.AgreesWithMsg` | msg/msg.go:87-130 | configured alike, the earlier and current printers give the same title string, title block and warning string |
| `LegacyMsg.TitleStringDropsPadding` | msg/msg.go:99-111 | with colour off and a title symbol, the title string of a whitespace-padded text is the symbol, two spaces and the bare text |
| `LegacyMsg.Title` | msg/msg.go:136-139 | writes the default printer's title block, "\n" + text + "\n\n" with no symbol |
| `LegacyMsg.Warn` | msg/msg.go:142-145 | writes the default-styled "⚠️  " + text and a newline |

## Left out

- The one-time, concurrency-safe reading of `$NO_COLOR` and `$FORCE_COLOR` (`getColourOnce`, `getColour`, internal/colour/colour.go:25-36) is environment I/O behind a memo. The two flags are a parameter, `Colour.Flags`. A flag set to the empty string counts as unset, as in `getColour`. Because the flags are a parameter, repeated calls with the same flags give the same output.
- The colour library `github.com/fatih/color` is foreign code, so it is the parameter `style`. The model assumes `Fprint(w, x)` writes `style(attrs, x)` and `Fprintln(w, x)` writes `style(attrs, x)` followed by a newline. With colour off both readings agree with the tests. Terminal detection and the meaning of each colour attribute are the library's and are not modelled.
- `fmt.Sprintf`'s verb interpretation is foreign. It is the parameter `sprintf`, applied to the format and the argument list.
- Write errors from the sinks: the code ignores them, so there is nothing to model.
- `os.Stdout` and `os.Stderr`: each sink is the text written to it so far, starting empty. The two sinks are distinct buffers, so a printer whose two writers are the same object (aliasing) is not modelled.
- Strings are sequences of Unicode code points, not UTF-8 bytes. Lengths count code points, and the code widths (all ASCII) are the same either way.
- The error-chain renderer `Err`, called from docs/src/main.go:26, is not part of this model. Its source is not among the files modelled.
- main.go and docs/src/main.go are demonstration programs. hello/hello_test.go tests a function whose source is not part of this model.
