/** The small enumerations of `uglylogger/logger.py`: colour mode, colour,
    output target, severity level and the format tokens. */
module Levels {

  import opened Optional

  /** `LogColorMode`: COLORED wraps console text in ANSI codes, MONO does not. */
  datatype ColorMode = Colored | Mono

  /** `LogColor`, the eight terminal colours in ANSI order. */
  datatype Color = Black | Red | Green | Yellow | Blue | Magenta | Cyan | White

  /** `int(color)`: the ANSI colour index, BLACK = 0 .. WHITE = 7. */
  function ColorIndex(c: Color): (k: nat)
    ensures k < 8
  {
    match c
    case Black => 0
    case Red => 1
    case Green => 2
    case Yellow => 3
    case Blue => 4
    case Magenta => 5
    case Cyan => 6
    case White => 7
  }

  /** Different colours have different ANSI indices. */
  lemma ColorIndexInjective(a: Color, b: Color)
    requires ColorIndex(a) == ColorIndex(b)
    ensures a == b
  {
  }

  /** `LogOutput`, a flag set over the two targets; `CONSOLE in output` is
      the `console` field and `FILE in output` the `file` field. */
  datatype Output = Output(console: bool, file: bool)

  const CONSOLE := Output(true, false)
  const FILE := Output(false, true)
  const ALL := Output(true, true)

  /** `LogLevel`. */
  datatype Level = Debug | Info | Warning | Error | Critical

  /** `LogLevel.__str__`: the level's upper-case name. */
  function LevelName(l: Level): (s: string)
    ensures |s| > 0 && forall i :: 0 <= i < |s| ==> 'A' <= s[i] <= 'Z'
  {
    match l
    case Debug => "DEBUG"
    case Info => "INFO"
    case Warning => "WARNING"
    case Error => "ERROR"
    case Critical => "CRITICAL"
  }

  /** Reads a level name back; the reference used to show that level names
      identify their level. */
  function ParseLevelName(s: string): (r: Option<Level>)
    ensures r.Some? ==> LevelName(r.value) == s
  {
    if s == "DEBUG" then Some(Debug)
    else if s == "INFO" then Some(Info)
    else if s == "WARNING" then Some(Warning)
    else if s == "ERROR" then Some(Error)
    else if s == "CRITICAL" then Some(Critical)
    else None
  }

  /** Every level's name parses back to that level, so the LEVEL token of a
      rendered record determines the record's level. */
  lemma LevelNameRoundTrip(l: Level)
    ensures ParseLevelName(LevelName(l)) == Some(l)
  {
  }

  /** The colour a level gets on the console when the caller gives none
      (the `d_color` choice of `console`). */
  function DefaultColor(l: Level): (c: Color)
    ensures c != Green && c != Cyan && c != White
  {
    match l
    case Debug => Black
    case Info => Blue
    case Warning => Yellow
    case Error => Red
    case Critical => Magenta
  }

  /** An explicit colour overrides the level's default colour. */
  function ResolveColor(color: Option<Color>, l: Level): (c: Color)
    ensures color.Some? ==> c == color.value
    ensures color.None? ==> c == DefaultColor(l)
  {
    if color.Some? then color.value else DefaultColor(l)
  }

  /** Distinct levels get distinct default colours. */
  lemma DefaultColorInjective(a: Level, b: Level)
    ensures DefaultColor(a) == DefaultColor(b) ==> a == b
  {
  }

  /** `LogFormatBlock`. */
  datatype Block = NameBlock | LevelBlock | DateTimeBlock | MessageBlock
                 | FileBlock | LineBlock | FunctionBlock
  {
    /** FILE, LINE and FUNCTION need the call site. */
    predicate IsSite() {
      FileBlock? || LineBlock? || FunctionBlock?
    }
  }

  /** The blocks of a `LogFormatBlock` flag value that is not a single
      token: none (the empty flag) or at least two (a union such as
      `FILE | LINE`). */
  type MultiBlocks = s: set<Block> | |s| != 1 witness {}

  /** An entry of a format template: a literal (already passed through
      `str`), a single format token, or a flag value that is not a single
      token, given by its set of blocks. */
  datatype Item = Literal(text: string) | Token(block: Block) | Combined(blocks: MultiBlocks)
  {
    predicate IsSite() {
      Token? && block.IsSite()
    }
  }
}
