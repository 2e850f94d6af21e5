/** The text `console_oneline` prints: a carriage return, then the message
    padded or cut to the console width, never a newline. */
module Oneline {

  import opened Text
  import opened Levels
  import opened Formatting

  /** The width-sized line for a non-empty message: a message that fits is
      right-padded with spaces; a longer one keeps `text[:width - 3]` and
      ends in "...". Python's negative slice index applies for widths 1 and
      2, so the cut line is then longer than the width. */
  function Payload(text: string, width: int): (p: string)
    requires width > 0
    ensures |text| <= width ==>
      |p| == width && p[..|text|] == text && forall i :: |text| <= i < width ==> p[i] == ' '
    ensures |text| > width >= 3 ==> |p| == width && p == text[..width - 3] + "..."
    ensures |text| > width && width < 3 ==>
      |p| == |text| + width && p == text[..|text| + width - 3] + "..."
  {
    if |text| > width then SliceTo(text, width - 3) + "..."
    else text + Spaces(width - |text|)
  }

  /** Everything one `console_oneline` call writes to standard output. */
  function OnelineText(colored: bool, color: Color, text: string, width: int): string
  {
    if width <= 0 then ""
    else if text == "" then "\r" + Spaces(width) + "\r"
    else if colored then "\r" + ColorPrefix(color) + Payload(text, width) + RESET
    else "\r" + Payload(text, width)
  }

  /** The guards: no output for a width of zero or less; an empty message
      blanks the line with `width` spaces between two carriage returns. */
  lemma OnelineGuards(colored: bool, color: Color, text: string, width: int)
    ensures width <= 0 ==> OnelineText(colored, color, text, width) == ""
    ensures width > 0 && text == "" ==>
      var out := OnelineText(colored, color, text, width);
      |out| == width + 2 && out[0] == '\r' && out[|out| - 1] == '\r'
      && forall i :: 0 < i < |out| - 1 ==> out[i] == ' '
  {
  }

  /** A non-empty message is written after a carriage return, wrapped in
      the colour (COLORED) or bare (MONO), and the visible part is exactly
      `width` characters whenever the width is at least 3 or the message
      fits. */
  lemma OnelineVisible(colored: bool, color: Color, text: string, width: int)
    requires width > 0 && text != ""
    ensures var out := OnelineText(colored, color, text, width);
      out == "\r" + Colorize(colored, color, Payload(text, width))
    ensures width >= 3 || |text| <= width ==> |Payload(text, width)| == width
  {
    var p := Payload(text, width);
    if colored {
      calc {
        OnelineText(colored, color, text, width);
        "\r" + ColorPrefix(color) + p + RESET;
        { assert "\r" + ColorPrefix(color) + p + RESET == "\r" + (ColorPrefix(color) + p + RESET); }
        "\r" + (ColorPrefix(color) + p + RESET);
      }
    }
  }

  /** The three printed lines the unit tests expect: a cut message, a
      coloured message of exactly the width, and a padded one. */
  lemma OnelineExamples()
    ensures OnelineText(false, Black, "1234567890", 5) == "\r12..."
    ensures OnelineText(true, Black, "12345", 5) == "\r\U{1B}[1;30m12345\U{1B}[0m"
    ensures OnelineText(false, Black, "1", 100) == "\r1" + Spaces(99)
  {
  }
}
