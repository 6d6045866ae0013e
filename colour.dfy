/**
 * The package's own minimal ANSI colouring. Every escape code has the same
 * width, so padding computed on styled text lines up whichever style is used.
 * The two environment switches, `$NO_COLOR` and `$FORCE_COLOR`, are read once
 * per process by the package; here they are a parameter.
 */
module Colour {

  // Escape codes, all padded to the same width.
  const CodeError: string := "\U{1B}[1;0031m"
  const CodeTitle: string := "\U{1B}[1;0096m"
  const CodeInfo: string := "\U{1B}[1;0036m"
  const CodeWarn: string := "\U{1B}[1;0033m"
  const CodeSuccess: string := "\U{1B}[1;0032m"
  const CodeReset: string := "\U{1B}[000000m"

  /** The common width of every escape code. */
  const CodeWidth: nat := 9

  function Codes(): (r: seq<string>)
  {
    [CodeError, CodeTitle, CodeInfo, CodeWarn, CodeSuccess, CodeReset]
  }

  /** Whether `$NO_COLOR` and `$FORCE_COLOR` were set (to a non-empty value). */
  datatype Flags = Flags(noColour: bool, forceColour: bool)

  /** Colour is on unless it was switched off and not forced back on. */
  predicate Enabled(flags: Flags)
  {
    flags.forceColour || !flags.noColour
  }

  /** The escape codes all have width `CodeWidth` and are pairwise different. */
  lemma CodesUniform()
    ensures forall c :: c in Codes() ==> |c| == CodeWidth
    ensures forall i, j :: 0 <= i < j < |Codes()| ==> Codes()[i] != Codes()[j]
  {
  }

  /**
   * Wraps `text` in `code` and the reset code, or leaves it alone: forcing
   * colour beats switching it off, and colour is on when neither is set.
   */
  function Sprint(flags: Flags, code: string, text: string): (r: string)
    ensures Enabled(flags) ==> r == code + text + CodeReset
    ensures !Enabled(flags) ==> r == text
  {
    if flags.forceColour then
      code + text + CodeReset
    else if flags.noColour then
      text
    else
      code + text + CodeReset
  }

  /** Undoes the styling of `Sprint` under the same flags. */
  function Unstyle(flags: Flags, s: string): (r: string)
  {
    if Enabled(flags) && |s| >= 2 * CodeWidth then s[CodeWidth..|s| - CodeWidth] else s
  }

  /**
   * Styled text is either the text itself or the text between a code and the
   * reset code, and removing the codes gives back the text.
   */
  lemma SprintFrames(flags: Flags, code: string, text: string)
    requires code in Codes()
    ensures var r := Sprint(flags, code, text);
            || (!Enabled(flags) && r == text)
            || (Enabled(flags) && |r| == |text| + 2 * CodeWidth && r[..CodeWidth] == code
                && r[CodeWidth..|r| - CodeWidth] == text && r[|r| - CodeWidth..] == CodeReset)
    ensures Unstyle(flags, Sprint(flags, code, text)) == text
  {
    CodesUniform();
    var r := Sprint(flags, code, text);
    if Enabled(flags) {
      assert r[..CodeWidth] == code;
      assert r[CodeWidth..|r| - CodeWidth] == text;
      assert r[|r| - CodeWidth..] == CodeReset;
    }
  }

  /**
   * Styling adds the same number of characters whichever code is used, so
   * columns of equal-width text stay aligned once styled.
   */
  lemma SprintKeepsAlignment(flags: Flags, code1: string, code2: string, text1: string, text2: string)
    requires code1 in Codes() && code2 in Codes()
    ensures |Sprint(flags, code1, text1)| - |text1| == |Sprint(flags, code2, text2)| - |text2|
    ensures |Sprint(flags, code1, text1)| - |text1| == if Enabled(flags) then 2 * CodeWidth else 0
  {
    CodesUniform();
  }

  /** `Title`: styled with `CodeTitle`. */
  function Title(flags: Flags, text: string): (r: string)
    ensures Enabled(flags) ==> r == CodeTitle + text + CodeReset
    ensures !Enabled(flags) ==> r == text
  {
    Sprint(flags, CodeTitle, text)
  }

  /** `Success`: styled with `CodeSuccess`. */
  function Success(flags: Flags, text: string): (r: string)
    ensures Enabled(flags) ==> r == CodeSuccess + text + CodeReset
    ensures !Enabled(flags) ==> r == text
  {
    Sprint(flags, CodeSuccess, text)
  }

  /** `Info`: styled with `CodeInfo`. */
  function Info(flags: Flags, text: string): (r: string)
    ensures Enabled(flags) ==> r == CodeInfo + text + CodeReset
    ensures !Enabled(flags) ==> r == text
  {
    Sprint(flags, CodeInfo, text)
  }

  /** `Warn`: styled with `CodeWarn`. */
  function Warn(flags: Flags, text: string): (r: string)
    ensures Enabled(flags) ==> r == CodeWarn + text + CodeReset
    ensures !Enabled(flags) ==> r == text
  {
    Sprint(flags, CodeWarn, text)
  }

  /** `Error`: styled with `CodeError`. */
  function Error(flags: Flags, text: string): (r: string)
    ensures Enabled(flags) ==> r == CodeError + text + CodeReset
    ensures !Enabled(flags) ==> r == text
  {
    Sprint(flags, CodeError, text)
  }
}
