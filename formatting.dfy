/** The format engine of `Logger`: what a template renders to
    (`_format`), the call-site search over the stack (`_get_file_line_func`),
    message text (`_msg_to_str`), the timestamp cut (`DateTimeToStr`) and the
    ANSI wrapping (`_color_str`, `_colored_format`). */
module Formatting {

  import opened Optional
  import opened Text
  import opened Levels

  newtype byte = x: int | 0 <= x < 256

  /** One entry of `inspect.stack()`: file name, line number, function. */
  datatype Frame = Frame(file: string, line: int, func: string)

  /** The stack as the lookup sees it: frame 0 is the lookup itself and
      frame 1 its caller inside the logger, so there are always two. */
  type CallStack = s: seq<Frame> | |s| >= 2
    witness [Frame("", 0, ""), Frame("", 0, "")]

  /** A logged message: a byte string, or any other value given by its
      `str()` text. */
  datatype Message = Str(text: string) | Bytes(data: seq<byte>)

  /** What one logging call sees of its environment: the stack at the call,
      the `strftime("%Y-%m-%d %H:%M:%S.%f")` text of `datetime.now()`, and
      UTF-8 decoding of byte strings. */
  datatype Context = Context(stack: CallStack, stamp: string, utf8: seq<byte> -> string)

  /** Everything one rendering depends on besides the template. */
  datatype Record = Record(name: string, level: Level, msg: Message, ctx: Context)

  /** `_msg_to_str`: bytes are decoded as UTF-8, anything else is `str()`. */
  function MsgToStr(m: Message, utf8: seq<byte> -> string): (s: string)
    ensures m.Bytes? ==> s == utf8(m.data)
    ensures m.Str? ==> s == m.text
  {
    match m
    case Bytes(data) => utf8(data)
    case Str(text) => text
  }

  /** `DateTimeToStr`: the `strftime` text without its last three
      characters, so microseconds become milliseconds by truncation. */
  function DateTimeToStr(stamp: string): (s: string)
    ensures |stamp| >= 3 ==> s + stamp[|stamp| - 3..] == stamp
    ensures |stamp| < 3 ==> s == ""
  {
    SliceTo(stamp, -3)
  }

  /** ANSI reset, written after coloured text. */
  const RESET: string := "\U{1B}[0m"

  /** `_color_str`: the bold foreground sequence for code 30 + colour
      index. */
  function ColorPrefix(c: Color): (p: string)
    ensures p == "\U{1B}[1;3" + [DigitChar(ColorIndex(c))] + "m"
  {
    var code := 30 + ColorIndex(c);
    assert NatToDecimal(code) == NatToDecimal(3) + [DigitChar(ColorIndex(c))];
    "\U{1B}[1;" + NatToDecimal(code) + "m"
  }

  /** The wrapping `_colored_format` applies when colours are on: coloured
      text is the payload between a seven-character prefix naming the
      colour and the four-character reset; mono text is the payload. */
  function Colorize(colored: bool, c: Color, s: string): (w: string)
    ensures colored ==>
      |w| == |s| + 11 && w[..7] == ColorPrefix(c) && w[7..|w| - 4] == s
      && w[|w| - 4..] == RESET
    ensures !colored ==> w == s
  {
    if colored then ColorPrefix(c) + s + RESET else s
  }

  /** The colour can be read back from the prefix. */
  lemma ColorPrefixInjective(a: Color, b: Color)
    requires ColorPrefix(a) == ColorPrefix(b)
    ensures a == b
  {
    assert ColorPrefix(a)[5] == DigitChar(ColorIndex(a));
    assert ColorPrefix(b)[5] == DigitChar(ColorIndex(b));
    ColorIndexInjective(a, b);
  }

  /** The index of the first frame, from `i` on, whose file is not `here`;
      `|stack|` when there is none. */
  function FirstForeign(stack: seq<Frame>, here: string, i: nat): (k: nat)
    requires i <= |stack|
    ensures i <= k <= |stack|
    ensures forall j :: i <= j < k ==> stack[j].file == here
    ensures k < |stack| ==> stack[k].file != here
    decreases |stack| - i
  {
    if i == |stack| then i
    else if stack[i].file == here then FirstForeign(stack, here, i + 1)
    else i
  }

  /** The call site: the first frame outside the file of frame 1, if any. */
  function Caller(stack: CallStack): Option<Frame>
  {
    var k := FirstForeign(stack, stack[1].file, 0);
    if k < |stack| then Some(stack[k]) else None
  }

  /** `_get_file_line_func`: scan from frame 0 for the first frame whose
      file differs from that of frame 1; every frame before it shares that
      file, and when no frame differs there is no call site. */
  method FileLineFunc(stack: CallStack) returns (site: Option<Frame>)
    ensures site == Caller(stack)
    ensures site.None? ==> forall k :: 0 <= k < |stack| ==> stack[k].file == stack[1].file
    ensures site.Some? ==>
      (exists k :: 0 <= k < |stack| && stack[k] == site.value
        && stack[k].file != stack[1].file
        && forall j :: 0 <= j < k ==> stack[j].file == stack[1].file)
  {
    var here := stack[1].file;
    var index := 0;
    while index < |stack|
      invariant 0 <= index <= |stack|
      invariant forall j :: 0 <= j < index ==> stack[j].file == here
    {
      if stack[index].file == here {
        index := index + 1;
      } else {
        site := Some(stack[index]);
        return;
      }
    }
    site := None;
  }

  /** Whether one of the first `i` items of the template needs the call
      site, i.e. whether the lazy lookup has already run before item `i`. */
  predicate SiteBefore(fmt: seq<Item>, i: nat)
    requires i <= |fmt|
  {
    i > 0 && (fmt[i - 1].IsSite() || SiteBefore(fmt, i - 1))
  }

  /** The number of call-site tokens among the first `i` items. */
  function SiteCount(fmt: seq<Item>, i: nat): nat
    requires i <= |fmt|
  {
    if i == 0 then 0 else SiteCount(fmt, i - 1) + (if fmt[i - 1].IsSite() then 1 else 0)
  }

  /** What one item adds to the rendering, given whether a call-site token
      came before it. FILE adds the base name only when it is the first
      call-site token (the lookup happens inside its own lazy branch); LINE
      and FUNCTION add their value whenever there is a call site. A flag
      that is not a single token matches no case and adds nothing. */
  function ItemPiece(x: Item, siteSeen: bool, r: Record): string
  {
    match x
    case Literal(t) => t
    case Combined(_) => ""
    case Token(b) =>
      var site := Caller(r.ctx.stack);
      match b
      case NameBlock => r.name
      case LevelBlock => LevelName(r.level)
      case DateTimeBlock => DateTimeToStr(r.ctx.stamp)
      case MessageBlock => MsgToStr(r.msg, r.ctx.utf8)
      case FileBlock => if !siteSeen && site.Some? then Basename(site.value.file) else ""
      case LineBlock => if site.Some? then IntToDecimal(site.value.line) else ""
      case FunctionBlock => if site.Some? then site.value.func else ""
  }

  /** What item `i` of the template adds to the rendering. */
  function Piece(fmt: seq<Item>, i: nat, r: Record): string
    requires i < |fmt|
  {
    ItemPiece(fmt[i], SiteBefore(fmt, i), r)
  }

  /** The pieces of the first `n` items, in order. */
  function RenderUpTo(fmt: seq<Item>, n: nat, r: Record): string
    requires n <= |fmt|
  {
    if n == 0 then "" else RenderUpTo(fmt, n - 1, r) + Piece(fmt, n - 1, r)
  }

  /** The rendering of a whole template: every item's piece, in order. */
  function Render(fmt: seq<Item>, r: Record): (s: string)
    ensures fmt == [] ==> s == ""
  {
    RenderUpTo(fmt, |fmt|, r)
  }

  /** The default template of `Logger`. */
  const DEFAULT_FORMAT: seq<Item> := [
    Literal("["), Token(NameBlock), Literal("] ["), Token(LevelBlock),
    Literal("] ["), Token(DateTimeBlock), Literal("] ("), Token(FileBlock),
    Literal(":"), Token(LineBlock), Literal(":"), Token(FunctionBlock),
    Literal(") "), Token(MessageBlock)]

  /** Whether a template holds FILE, LINE or FUNCTION at all. */
  predicate HasSite(fmt: seq<Item>) {
    SiteBefore(fmt, |fmt|)
  }

  lemma {:induction false} SiteBeforeStable(fmt: seq<Item>, more: seq<Item>, i: nat)
    requires i <= |fmt|
    ensures SiteBefore(fmt + more, i) == SiteBefore(fmt, i)
    decreases i
  {
    if i > 0 {
      assert (fmt + more)[i - 1] == fmt[i - 1];
      SiteBeforeStable(fmt, more, i - 1);
    }
  }

  lemma {:induction false} RenderUpToStable(fmt: seq<Item>, more: seq<Item>, n: nat, r: Record)
    requires n <= |fmt|
    ensures RenderUpTo(fmt + more, n, r) == RenderUpTo(fmt, n, r)
    decreases n
  {
    if n > 0 {
      RenderUpToStable(fmt, more, n - 1, r);
      assert (fmt + more)[n - 1] == fmt[n - 1];
      SiteBeforeStable(fmt, more, n - 1);
      assert Piece(fmt + more, n - 1, r) == Piece(fmt, n - 1, r);
    }
  }

  /** Appending an item to a template appends that item's piece to the
      rendering: what is already rendered never changes. */
  lemma RenderAppend(fmt: seq<Item>, x: Item, r: Record)
    ensures Render(fmt + [x], r) == Render(fmt, r) + Piece(fmt + [x], |fmt|, r)
  {
    RenderUpToStable(fmt, [x], |fmt|, r);
  }

  /** Rendering a longer template extends the rendering of a shorter one. */
  lemma RenderPrefix(fmt: seq<Item>, more: seq<Item>, r: Record)
    ensures Render(fmt, r) <= Render(fmt + more, r)
  {
    RenderPrefixUpTo(fmt + more, |fmt|, |fmt + more|, r);
    RenderUpToStable(fmt, more, |fmt|, r);
  }

  lemma {:induction false} RenderPrefixUpTo(fmt: seq<Item>, m: nat, n: nat, r: Record)
    requires m <= n <= |fmt|
    ensures RenderUpTo(fmt, m, r) <= RenderUpTo(fmt, n, r)
    decreases n
  {
    if m < n {
      RenderPrefixUpTo(fmt, m, n - 1, r);
    }
  }

  /** The FILE quirk: a FILE token after any call-site token adds nothing,
      while a first FILE adds the base name of the call site. */
  lemma FileAfterSite(fmt: seq<Item>, r: Record)
    ensures HasSite(fmt) ==> Render(fmt + [Token(FileBlock)], r) == Render(fmt, r)
    ensures !HasSite(fmt) ==>
      (Render(fmt + [Token(FileBlock)], r) ==
        Render(fmt, r) + (if Caller(r.ctx.stack).Some? then Basename(Caller(r.ctx.stack).value.file) else ""))
  {
    RenderAppend(fmt, Token(FileBlock), r);
    SiteBeforeStable(fmt, [Token(FileBlock)], |fmt|);
  }

  /** LINE and FUNCTION add the call site's line and function wherever they
      stand, even after other call-site tokens. */
  lemma LineAndFunctionAlways(fmt: seq<Item>, r: Record)
    ensures var site := Caller(r.ctx.stack);
      Render(fmt + [Token(LineBlock)], r) ==
        Render(fmt, r) + (if site.Some? then IntToDecimal(site.value.line) else "")
    ensures var site := Caller(r.ctx.stack);
      Render(fmt + [Token(FunctionBlock)], r) ==
        Render(fmt, r) + (if site.Some? then site.value.func else "")
  {
    RenderAppend(fmt, Token(LineBlock), r);
    RenderAppend(fmt, Token(FunctionBlock), r);
  }

  /** A literal adds its text, NAME the logger name, LEVEL the level's
      name, DATETIME the cut timestamp and MESSAGE the message text,
      wherever they stand; a combined or empty flag adds nothing. */
  lemma PlainPieces(fmt: seq<Item>, r: Record, t: string, bs: MultiBlocks)
    ensures Render(fmt + [Literal(t)], r) == Render(fmt, r) + t
    ensures Render(fmt + [Token(NameBlock)], r) == Render(fmt, r) + r.name
    ensures Render(fmt + [Token(LevelBlock)], r) == Render(fmt, r) + LevelName(r.level)
    ensures Render(fmt + [Token(DateTimeBlock)], r) == Render(fmt, r) + DateTimeToStr(r.ctx.stamp)
    ensures Render(fmt + [Token(MessageBlock)], r) == Render(fmt, r) + MsgToStr(r.msg, r.ctx.utf8)
    ensures Render(fmt + [Combined(bs)], r) == Render(fmt, r)
  {
    RenderAppend(fmt, Literal(t), r);
    RenderAppend(fmt, Token(NameBlock), r);
    RenderAppend(fmt, Token(LevelBlock), r);
    RenderAppend(fmt, Token(DateTimeBlock), r);
    RenderAppend(fmt, Token(MessageBlock), r);
    RenderAppend(fmt, Combined(bs), r);
  }

  /** A template without FILE, LINE or FUNCTION renders the same whatever
      the stack is: rendering it never needs the call site. */
  lemma {:induction false} RenderIgnoresStack(fmt: seq<Item>, n: nat, r: Record, s: CallStack)
    requires n <= |fmt|
    requires !SiteBefore(fmt, n)
    ensures RenderUpTo(fmt, n, r) == RenderUpTo(fmt, n, r.(ctx := r.ctx.(stack := s)))
    decreases n
  {
    if n > 0 {
      RenderIgnoresStack(fmt, n - 1, r, s);
    }
  }

  /** The default template renders as
      `[name] [LEVEL] [date time.mmm] (file:line:function) message`; without
      a call site the three call-site fields are empty. */
  lemma DefaultRender(fmt: seq<Item>, r: Record)
    requires fmt == DEFAULT_FORMAT
    ensures var site := Caller(r.ctx.stack);
      Render(fmt, r) ==
        "[" + r.name + "] [" + LevelName(r.level) + "] [" + DateTimeToStr(r.ctx.stamp)
        + "] (" + (if site.Some? then Basename(site.value.file) else "")
        + ":" + (if site.Some? then IntToDecimal(site.value.line) else "")
        + ":" + (if site.Some? then site.value.func else "")
        + ") " + MsgToStr(r.msg, r.ctx.utf8)
  {
    var open := DefaultOpen(r);
    var name := DefaultName(r, open);
    var head := DefaultHead(r, name);
    var site := DefaultSite(r, head);
    var all := DefaultTail(r, site);
    assert fmt[..14] == fmt;
  }

  /** Items 0 and 1 of the default template: the opening bracket and the
      logger name. */
  lemma DefaultOpen(r: Record) returns (acc: string)
    ensures acc == "[" + r.name
    ensures Render(DEFAULT_FORMAT[..2], r) == acc && !HasSite(DEFAULT_FORMAT[..2])
  {
    var fmt := DEFAULT_FORMAT;
    assert fmt[..0] == [];
    acc := Next(fmt, 0, "", r);
    acc := Next(fmt, 1, acc, r);
  }

  /** Items 2 and 3 of the default template: the level. */
  lemma DefaultName(r: Record, before: string) returns (acc: string)
    requires Render(DEFAULT_FORMAT[..2], r) == before && !HasSite(DEFAULT_FORMAT[..2])
    ensures acc == before + "] [" + LevelName(r.level)
    ensures Render(DEFAULT_FORMAT[..4], r) == acc && !HasSite(DEFAULT_FORMAT[..4])
  {
    var fmt := DEFAULT_FORMAT;
    acc := Next(fmt, 2, before, r);
    acc := Next(fmt, 3, acc, r);
  }

  /** Items 4 to 6 of the default template: the timestamp. The first seven
      items need no call site. */
  lemma DefaultHead(r: Record, before: string) returns (acc: string)
    requires Render(DEFAULT_FORMAT[..4], r) == before && !HasSite(DEFAULT_FORMAT[..4])
    ensures acc == before + "] [" + DateTimeToStr(r.ctx.stamp) + "] ("
    ensures Render(DEFAULT_FORMAT[..7], r) == acc && !HasSite(DEFAULT_FORMAT[..7])
  {
    var fmt := DEFAULT_FORMAT;
    acc := Next(fmt, 4, before, r);
    acc := Next(fmt, 5, acc, r);
    acc := Next(fmt, 6, acc, r);
  }

  /** Items 7 to 10 of the default template: the file and line fields. FILE
      is the first call-site token, so it adds the base name. */
  lemma DefaultSite(r: Record, before: string) returns (acc: string)
    requires Render(DEFAULT_FORMAT[..7], r) == before && !HasSite(DEFAULT_FORMAT[..7])
    ensures var site := Caller(r.ctx.stack);
      acc == before + (if site.Some? then Basename(site.value.file) else "")
        + ":" + (if site.Some? then IntToDecimal(site.value.line) else "") + ":"
    ensures Render(DEFAULT_FORMAT[..11], r) == acc
  {
    var fmt := DEFAULT_FORMAT;
    acc := Next(fmt, 7, before, r);
    acc := Next(fmt, 8, acc, r);
    acc := Next(fmt, 9, acc, r);
    acc := Next(fmt, 10, acc, r);
  }

  /** Items 11 to 13 of the default template: the function field and the
      message. */
  lemma DefaultTail(r: Record, before: string) returns (acc: string)
    requires Render(DEFAULT_FORMAT[..11], r) == before
    ensures var site := Caller(r.ctx.stack);
      acc == before + (if site.Some? then site.value.func else "") + ") " + MsgToStr(r.msg, r.ctx.utf8)
    ensures Render(DEFAULT_FORMAT[..14], r) == acc
  {
    var fmt := DEFAULT_FORMAT;
    acc := Next(fmt, 11, before, r);
    acc := Next(fmt, 12, acc, r);
    acc := Next(fmt, 13, acc, r);
  }

  /** Rendering one more item of a template: item `k` adds its piece to the
      rendering of the items before it. */
  lemma Next(fmt: seq<Item>, k: nat, acc: string, r: Record) returns (acc': string)
    requires k < |fmt| && Render(fmt[..k], r) == acc
    ensures acc' == acc + ItemPiece(fmt[k], HasSite(fmt[..k]), r)
    ensures Render(fmt[..k + 1], r) == acc'
    ensures HasSite(fmt[..k + 1]) == (HasSite(fmt[..k]) || fmt[k].IsSite())
  {
    assert fmt[..k + 1] == fmt[..k] + [fmt[k]];
    RenderAppend(fmt[..k], fmt[k], r);
    SiteBeforeStable(fmt[..k], [fmt[k]], k);
    HasSiteAppend(fmt[..k], fmt[k]);
    acc' := acc + ItemPiece(fmt[k], HasSite(fmt[..k]), r);
  }

  /** An appended item is a call-site token or it is not: the template
      needs the call site exactly when it did before or the item does. */
  lemma HasSiteAppend(fmt: seq<Item>, x: Item)
    ensures HasSite(fmt + [x]) == (HasSite(fmt) || x.IsSite())
  {
    SiteBeforeStable(fmt, [x], |fmt|);
  }
}
