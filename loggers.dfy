/** The `Logger` class of `uglylogger/logger.py`: a name-keyed registry of
    handler pairs (`logging.getLogger`), attaching to or creating an entry
    on construction, releasing it, and routing each formatted record to the
    console handler, the file handler or both through the two "block"
    filters. */
module Loggers {

  import opened Optional
  import opened Text
  import opened Levels
  import opened Formatting
  import opened Oneline

  /** The file mode chosen by `append`: "a" or "w". */
  datatype FileMode = Append | Write

  /** Where a handler writes: the console stream of `StreamHandler()` or a
      `FileHandler` over a path. */
  datatype Target = ConsoleStream | LogFile(path: string, mode: FileMode)

  /** The `block` tag that keeps a record away from the console handler
      (used by `file`) and from the file handler (used by `console`). */
  const CONSOLE_TAG: string := "console"
  const FILE_TAG: string := "file"

  /** `_build_handler_filter(handler)`: a record passes unless it carries a
      `block` equal to the handler's own tag. */
  function Accepts(handlerTag: string, block: Option<string>): (ok: bool)
    ensures ok <==> block.None? || block.value != handlerTag
  {
    match block
    case None => true
    case Some(b) => b != handlerTag
  }

  /** The two tags keep the targets apart: a record blocked for the file
      reaches the console handler only, and the other way round; an
      untagged record reaches both. */
  lemma FiltersSeparate()
    ensures Accepts(CONSOLE_TAG, Some(FILE_TAG)) && !Accepts(FILE_TAG, Some(FILE_TAG))
    ensures Accepts(FILE_TAG, Some(CONSOLE_TAG)) && !Accepts(CONSOLE_TAG, Some(CONSOLE_TAG))
    ensures Accepts(CONSOLE_TAG, None) && Accepts(FILE_TAG, None)
  {
  }

  /** A `logging` handler with its filter: `lines` is what it has written,
      one record per line. */
  class Handler {
    const target: Target
    const tag: string
    var lines: seq<string>
    var closed: bool

    constructor (target: Target, tag: string)
      ensures this.target == target && this.tag == tag
      ensures lines == [] && !closed
    {
      this.target := target;
      this.tag := tag;
      lines := [];
      closed := false;
    }

    /** `Handler.handle`: a record the filter accepts is written. */
    method Handle(text: string, block: Option<string>)
      modifies this`lines
      ensures lines == if Accepts(tag, block) then old(lines) + [text] else old(lines)
    {
      if Accepts(tag, block) {
        lines := lines + [text];
      }
    }

    /** `Handler.close`. */
    method Close()
      modifies this`closed
      ensures closed
    {
      closed := true;
    }
  }

  /** A registered `logging.Logger`: the attributes the constructor stores
      on it and its handlers, the console one first. */
  datatype Entry = Entry(file: Option<string>, permanent: bool, colorMode: ColorMode,
                         console: Handler, fileHandler: Option<Handler>)
  {
    /** The handlers are the ones the constructor adds: a filtered console
        handler, and a filtered file handler on the logger's file exactly
        when that file is given and not empty. */
    predicate Valid() {
      console.target == ConsoleStream && console.tag == CONSOLE_TAG
      && (fileHandler.Some? <==> !(file.None? || file.value == ""))
      && (fileHandler.Some? ==>
            fileHandler.value.target.LogFile? && fileHandler.value.target.path == file.value
            && fileHandler.value.tag == FILE_TAG)
    }
  }

  /** `logging.getLogger` returns the root logger for the empty name and
      for "root"; the root logger is never in `loggerDict`. */
  predicate IsRootName(name: string) {
    name == "" || name == "root"
  }

  /** The loggers `logging.getLogger` hands out, reduced to the ones that
      carry handlers: `entries` is `logging.Logger.manager.loggerDict`, and
      `root` the root logger, which lives outside it. */
  class Registry {
    var entries: map<string, Entry>
    var root: Option<Entry>

    constructor ()
      ensures entries == map[] && root == None
    {
      entries := map[];
      root := None;
    }

    ghost predicate Valid()
      reads this
    {
      (forall n :: n in entries ==> !IsRootName(n) && entries[n].Valid())
      && (root.Some? ==> root.value.Valid())
    }

    /** The logger with handlers that `logging.getLogger(name)` returns, if
        there is one. */
    function Lookup(name: string): Option<Entry>
      reads this
    {
      if IsRootName(name) then root
      else if name in entries then Some(entries[name])
      else None
    }
  }

  class Logger {
    const registry: Registry
    const name: string
    /** `_logger`; None once released. */
    var entry: Option<Entry>
    /** `_console_handler` and `_file_handler`. */
    var consoleHandler: Handler?
    var fileHandler: Handler?
    var file: Option<string>
    var permanent: bool
    /** `_colored`. */
    var colored: bool
    /** `_format_arr`. */
    var format: seq<Item>

    /** The handler fields are the registered entry's handlers, and both are
        cleared together with the entry. */
    ghost predicate Valid()
      reads this
    {
      match entry
      case Some(e) =>
        e.Valid() && consoleHandler == e.console
        && fileHandler == (if e.fileHandler.Some? then e.fileHandler.value else null)
      case None => consoleHandler == null && fileHandler == null
    }

    ghost function Handlers(): set<Handler>
      reads this
    {
      (if consoleHandler == null then {} else {consoleHandler})
      + (if fileHandler == null then {} else {fileHandler})
    }

    /** `Logger.__init__`. A name whose logger already has handlers is
        attached to: its file, permanence, colour mode and handlers are
        taken over and the registry is left alone. Otherwise a new entry is
        registered, as the root logger for "" and "root" and in
        `loggerDict` for any other name, with a fresh console handler and,
        for a non-empty file, a fresh file handler opened for appending or
        truncation. */
    constructor (registry: Registry, name: string, file: Option<string> := None,
                 permanent: bool := false, append: bool := true,
                 colorMode: ColorMode := Colored)
      requires registry.Valid()
      modifies registry
      ensures Valid() && registry.Valid() && entry.Some?
      ensures this.registry == registry && this.name == name && format == DEFAULT_FORMAT
      ensures old(registry.Lookup(name)).Some? ==>
        registry.entries == old(registry.entries) && registry.root == old(registry.root)
        && entry == old(registry.Lookup(name))
        && this.file == entry.value.file && this.permanent == entry.value.permanent
        && colored == (entry.value.colorMode == Colored)
      ensures old(registry.Lookup(name)).None? && IsRootName(name) ==>
        registry.entries == old(registry.entries) && registry.root == entry
      ensures old(registry.Lookup(name)).None? && !IsRootName(name) ==>
        registry.entries == old(registry.entries)[name := entry.value]
        && registry.root == old(registry.root)
      ensures old(registry.Lookup(name)).None? ==>
        entry.value.file == file && entry.value.permanent == permanent
        && entry.value.colorMode == colorMode
        && this.file == file && this.permanent == permanent && colored == (colorMode == Colored)
        && fresh(consoleHandler) && consoleHandler.lines == [] && !consoleHandler.closed
        && (fileHandler != null ==>
              fresh(fileHandler) && fileHandler.lines == [] && !fileHandler.closed
              && fileHandler.target == LogFile(file.value, if append then Append else Write))
    {
      this.registry := registry;
      this.name := name;
      format := DEFAULT_FORMAT;
      var found := registry.Lookup(name);
      if found.Some? {
        var e := found.value;
        entry := found;
        this.file := e.file;
        this.permanent := e.permanent;
        colored := e.colorMode == Colored;
        consoleHandler := e.console;
        fileHandler := if e.fileHandler.Some? then e.fileHandler.value else null;
      } else {
        var console := new Handler(ConsoleStream, CONSOLE_TAG);
        var fh: Handler? := null;
        if !(file.None? || file.value == "") {
          fh := new Handler(LogFile(file.value, if append then Append else Write), FILE_TAG);
        }
        var e := Entry(file, permanent, colorMode, console,
                       if fh == null then None else Some(fh));
        if IsRootName(name) {
          registry.root := Some(e);
        } else {
          registry.entries := registry.entries[name := e];
        }
        entry := Some(e);
        this.file := file;
        this.permanent := permanent;
        colored := colorMode == Colored;
        consoleHandler := console;
        fileHandler := fh;
      }
    }

    /** `release`: closes and drops both handlers, drops the logger, and
        removes the name from `loggerDict` (whoever registered it). The root
        logger is not there, so it keeps its closed handlers. The file,
        permanence, colour mode and template stay as they were. */
    method Release()
      requires Valid() && registry.Valid()
      modifies this, registry`entries, Handlers()
      ensures Valid() && registry.Valid()
      ensures entry.None? && consoleHandler == null && fileHandler == null
      ensures registry.entries == old(registry.entries) - {name}
      ensures registry.root == old(registry.root)
      ensures forall h :: h in old(Handlers()) ==> h.closed && h.lines == old(h.lines)
      ensures file == old(file) && permanent == old(permanent)
      ensures colored == old(colored) && format == old(format)
    {
      CloseHandlers();
      entry := None;
      if name in registry.entries {
        registry.entries := registry.entries - {name};
      }
    }

    /** The first half of `release`: each handler present is closed and
        dropped. */
    method CloseHandlers()
      modifies this`consoleHandler, this`fileHandler, Handlers()
      ensures consoleHandler == null && fileHandler == null
      ensures forall h :: h in old(Handlers()) ==> h.closed && h.lines == old(h.lines)
    {
      if consoleHandler != null {
        consoleHandler.Close();
        consoleHandler := null;
      }
      if fileHandler != null {
        fileHandler.Close();
        fileHandler := null;
      }
    }

    /** `set_color_mode`. */
    method SetColorMode(mode: ColorMode)
      modifies this`colored
      ensures colored <==> mode == Colored
    {
      colored := mode == Colored;
    }

    /** `set_format`; the default argument is the empty template. */
    method SetFormat(fmt: seq<Item> := [])
      modifies this`format
      ensures format == fmt
    {
      format := fmt;
    }

    /** The record one call of this logger renders. */
    function RecordOf(msg: Message, level: Level, ctx: Context): Record
      reads this
    {
      Record(name, level, msg, ctx)
    }

    /** `_format`: one pass over the template with the call site looked up
        lazily. The text is the template's rendering; the stack is walked
        once when a call site is found, and at every FILE, LINE or FUNCTION
        token when none is. */
    method Format(msg: Message, level: Level, ctx: Context) returns (formatted: string, ghost lookups: nat)
      ensures formatted == Render(format, RecordOf(msg, level, ctx))
      ensures !HasSite(format) ==> lookups == 0
      ensures Caller(ctx.stack).Some? ==> lookups == (if HasSite(format) then 1 else 0)
      ensures Caller(ctx.stack).None? ==> lookups == SiteCount(format, |format|)
    {
      var r := RecordOf(msg, level, ctx);
      var fmt := format;
      formatted := "";
      lookups := 0;
      var site: Option<Frame> := None;
      var i := 0;
      while i < |fmt|
        invariant 0 <= i <= |fmt|
        invariant formatted == RenderUpTo(fmt, i, r)
        invariant site == if SiteBefore(fmt, i) then Caller(ctx.stack) else None
        invariant Caller(ctx.stack).Some? ==> lookups == (if SiteBefore(fmt, i) then 1 else 0)
        invariant Caller(ctx.stack).None? ==> lookups == SiteCount(fmt, i)
        invariant !SiteBefore(fmt, i) ==> lookups == 0
      {
        ghost var looked: bool;
        formatted, site, looked := FormatItem(fmt[i], msg, level, ctx, formatted, site, SiteBefore(fmt, i));
        if looked {
          lookups := lookups + 1;
        }
        i := i + 1;
      }
    }

    /** One pass of `_format`'s loop: the item's piece is appended, and a
        FILE, LINE or FUNCTION token looks the call site up when it has not
        been found yet. `seen` says whether a call-site token came before. */
    method FormatItem(x: Item, msg: Message, level: Level, ctx: Context, formatted: string,
                      site: Option<Frame>, ghost seen: bool)
      returns (formatted': string, site': Option<Frame>, ghost looked: bool)
      requires site == if seen then Caller(ctx.stack) else None
      ensures formatted' == formatted + ItemPiece(x, seen, RecordOf(msg, level, ctx))
      ensures site' == if seen || x.IsSite() then Caller(ctx.stack) else None
      ensures looked <==> x.IsSite() && site.None?
    {
      formatted', site', looked := formatted, site, false;
      match x {
        case Literal(t) =>
          formatted' := formatted + t;
        case Token(b) =>
          match b {
            case NameBlock =>
              formatted' := formatted + name;
            case LevelBlock =>
              formatted' := formatted + LevelName(level);
            case DateTimeBlock =>
              formatted' := formatted + DateTimeToStr(ctx.stamp);
            case MessageBlock =>
              formatted' := formatted + MsgToStr(msg, ctx.utf8);
            case FileBlock | LineBlock | FunctionBlock =>
              formatted', site', looked := SiteToken(b, msg, level, ctx, formatted, site, seen);
          }
        case Combined(_) =>
      }
    }

    /** The FILE, LINE and FUNCTION branches of `_format`'s loop: FILE adds
        the base name only when its own lazy lookup finds the call site;
        LINE and FUNCTION add their field whenever the call site is known. */
    method SiteToken(b: Block, msg: Message, level: Level, ctx: Context, formatted: string,
                     site: Option<Frame>, ghost seen: bool)
      returns (formatted': string, site': Option<Frame>, ghost looked: bool)
      requires b.IsSite() && site == if seen then Caller(ctx.stack) else None
      ensures formatted' == formatted + ItemPiece(Token(b), seen, RecordOf(msg, level, ctx))
      ensures site' == Caller(ctx.stack)
      ensures looked <==> site.None?
    {
      formatted' := formatted;
      match b {
        case FileBlock =>
          site', looked := site, false;
          if site.None? {
            site', looked := LazySite(site, ctx, seen);
            if site'.Some? {
              formatted' := formatted + Basename(site'.value.file);
            }
          }
        case LineBlock =>
          site', looked := LazySite(site, ctx, seen);
          if site'.Some? {
            formatted' := formatted + IntToDecimal(site'.value.line);
          }
        case FunctionBlock =>
          site', looked := LazySite(site, ctx, seen);
          if site'.Some? {
            formatted' := formatted + site'.value.func;
          }
      }
    }

    /** The lazy initialisation before FILE, LINE and FUNCTION: the stack is
        walked only when the call site has not been found yet. Either way
        the call site is known afterwards. */
    method LazySite(site: Option<Frame>, ctx: Context, ghost seen: bool)
      returns (site': Option<Frame>, ghost looked: bool)
      requires site == if seen then Caller(ctx.stack) else None
      ensures site' == Caller(ctx.stack)
      ensures looked <==> site.None?
    {
      if site.None? {
        site' := FileLineFunc(ctx.stack);
        looked := true;
      } else {
        site', looked := site, false;
      }
    }

    /** `_colored_format`: the rendering, wrapped in the colour when the
        logger is coloured. */
    method ColoredFormat(msg: Message, color: Color, level: Level, ctx: Context) returns (s: string)
      ensures s == Colorize(colored, color, Render(format, RecordOf(msg, level, ctx)))
      ensures !colored ==> s == Render(format, RecordOf(msg, level, ctx))
    {
      var plain, _ := Format(msg, level, ctx);
      if colored {
        s := ColorPrefix(color) + plain + RESET;
      } else {
        s := plain;
      }
    }

    /** The line `console` writes for a record. */
    function ConsoleText(msg: Message, color: Option<Color>, level: Level, ctx: Context): string
      reads this
    {
      Colorize(colored, ResolveColor(color, level), Render(format, RecordOf(msg, level, ctx)))
    }

    /** The line `file` writes for a record. */
    function FileText(msg: Message, level: Level, ctx: Context): string
      reads this
    {
      Render(format, RecordOf(msg, level, ctx))
    }

    /** `console_oneline`: what is printed, in place of the printing. */
    method ConsoleOneline(msg: Message, utf8: seq<byte> -> string, color: Color := Black,
                          width: int := 100) returns (written: string)
      ensures written == OnelineText(colored, color, MsgToStr(msg, utf8), width)
      ensures width <= 0 ==> written == ""
      ensures width > 0 && MsgToStr(msg, utf8) != "" ==>
        written == "\r" + Colorize(colored, color, Payload(MsgToStr(msg, utf8), width))
    {
      if width <= 0 {
        return "";
      }
      var text := MsgToStr(msg, utf8);
      if text == "" {
        return "\r" + Spaces(width) + "\r";
      }
      var toPrint := "";
      if |text| > width {
        toPrint := SliceTo(text, width - 3) + "...";
      } else {
        toPrint := text + Spaces(width - |text|);
      }
      if colored {
        written := "\r" + ColorPrefix(color) + toPrint + RESET;
      } else {
        written := "\r" + toPrint;
      }
      OnelineVisible(colored, color, text, width);
    }

    /** `self._logger.<level>(text, extra={"block": block})`: every handler
        of the logger sees the record and its filter decides. */
    method Emit(text: string, block: string)
      requires Valid() && entry.Some?
      modifies Handlers()
      ensures consoleHandler.lines ==
        old(consoleHandler.lines) + (if Accepts(CONSOLE_TAG, Some(block)) then [text] else [])
      ensures fileHandler != null ==>
        fileHandler.lines ==
          old(fileHandler.lines) + (if Accepts(FILE_TAG, Some(block)) then [text] else [])
      ensures forall h :: h in old(Handlers()) ==> h.closed == old(h.closed)
    {
      consoleHandler.Handle(text, Some(block));
      if fileHandler != null {
        fileHandler.Handle(text, Some(block));
      }
    }

    /** `console`: a released logger writes nothing; otherwise the coloured
        rendering, in the given colour or the level's default, reaches the
        console handler only. */
    method Console(ctx: Context, msg: Message, color: Option<Color> := None,
                   level: Level := Level.Debug)
      requires Valid()
      modifies Handlers()
      ensures consoleHandler != null ==>
        consoleHandler.lines == old(consoleHandler.lines) + [ConsoleText(msg, color, level, ctx)]
      ensures fileHandler != null ==> fileHandler.lines == old(fileHandler.lines)
      ensures forall h :: h in old(Handlers()) ==> h.closed == old(h.closed)
    {
      if entry.None? {
        return;
      }
      var dColor := ResolveColor(color, level);
      var text := ColoredFormat(msg, dColor, level, ctx);
      Emit(text, FILE_TAG);
    }

    /** `file`: a released logger writes nothing; otherwise the plain
        rendering reaches the file handler only, if there is one. */
    method File(ctx: Context, msg: Message, level: Level := Level.Debug)
      requires Valid()
      modifies Handlers()
      ensures consoleHandler != null ==> consoleHandler.lines == old(consoleHandler.lines)
      ensures fileHandler != null ==>
        fileHandler.lines == old(fileHandler.lines) + [FileText(msg, level, ctx)]
      ensures forall h :: h in old(Handlers()) ==> h.closed == old(h.closed)
    {
      if entry.None? {
        return;
      }
      var text, _ := Format(msg, level, ctx);
      Emit(text, CONSOLE_TAG);
    }

    /** `log`: `console` when CONSOLE is in the output, then `file` when
        FILE is in it. Each of the two renders reads the clock and the stack
        on its own, hence one context for each. */
    method Log(consoleCtx: Context, fileCtx: Context, msg: Message, color: Option<Color> := None,
               level: Level := Level.Debug, output: Output := ALL)
      requires Valid()
      modifies Handlers()
      ensures consoleHandler != null ==>
        consoleHandler.lines == old(consoleHandler.lines) + (if output.console then [ConsoleText(msg, color, level, consoleCtx)] else [])
      ensures fileHandler != null ==>
        fileHandler.lines == old(fileHandler.lines) + (if output.file then [FileText(msg, level, fileCtx)] else [])
      ensures forall h :: h in old(Handlers()) ==> h.closed == old(h.closed)
    {
      if output.console {
        Console(consoleCtx, msg, color, level);
      }
      if output.file {
        File(fileCtx, msg, level);
      }
    }

    /** The body shared by `debug` .. `critical`: `console` when CONSOLE is
        in the output, then `file` when there is a file handler and FILE is
        in the output. */
    method AtLevel(consoleCtx: Context, fileCtx: Context, msg: Message, color: Option<Color>, output: Output, level: Level)
      requires Valid()
      modifies Handlers()
      ensures consoleHandler != null ==>
        consoleHandler.lines == old(consoleHandler.lines) + (if output.console then [ConsoleText(msg, color, level, consoleCtx)] else [])
      ensures fileHandler != null ==>
        fileHandler.lines == old(fileHandler.lines) + (if output.file then [FileText(msg, level, fileCtx)] else [])
      ensures forall h :: h in old(Handlers()) ==> h.closed == old(h.closed)
    {
      if output.console {
        Console(consoleCtx, msg, color, level);
      }
      if fileHandler != null && output.file {
        File(fileCtx, msg, level);
      }
    }

    /** `debug`. */
    method Debug(consoleCtx: Context, fileCtx: Context, msg: Message, color: Option<Color> := None, output: Output := ALL)
      requires Valid()
      modifies Handlers()
      ensures consoleHandler != null ==>
        consoleHandler.lines == old(consoleHandler.lines) + (if output.console then [ConsoleText(msg, color, Level.Debug, consoleCtx)] else [])
      ensures fileHandler != null ==>
        fileHandler.lines == old(fileHandler.lines) + (if output.file then [FileText(msg, Level.Debug, fileCtx)] else [])
      ensures forall h :: h in old(Handlers()) ==> h.closed == old(h.closed)
    {
      AtLevel(consoleCtx, fileCtx, msg, color, output, Level.Debug);
    }

    /** `info`. */
    method Info(consoleCtx: Context, fileCtx: Context, msg: Message, color: Option<Color> := None, output: Output := ALL)
      requires Valid()
      modifies Handlers()
      ensures consoleHandler != null ==>
        consoleHandler.lines == old(consoleHandler.lines) + (if output.console then [ConsoleText(msg, color, Level.Info, consoleCtx)] else [])
      ensures fileHandler != null ==>
        fileHandler.lines == old(fileHandler.lines) + (if output.file then [FileText(msg, Level.Info, fileCtx)] else [])
      ensures forall h :: h in old(Handlers()) ==> h.closed == old(h.closed)
    {
      AtLevel(consoleCtx, fileCtx, msg, color, output, Level.Info);
    }

    /** `warning`. */
    method Warning(consoleCtx: Context, fileCtx: Context, msg: Message, color: Option<Color> := None, output: Output := ALL)
      requires Valid()
      modifies Handlers()
      ensures consoleHandler != null ==>
        consoleHandler.lines == old(consoleHandler.lines) + (if output.console then [ConsoleText(msg, color, Level.Warning, consoleCtx)] else [])
      ensures fileHandler != null ==>
        fileHandler.lines == old(fileHandler.lines) + (if output.file then [FileText(msg, Level.Warning, fileCtx)] else [])
      ensures forall h :: h in old(Handlers()) ==> h.closed == old(h.closed)
    {
      AtLevel(consoleCtx, fileCtx, msg, color, output, Level.Warning);
    }

    /** `error`. */
    method Error(consoleCtx: Context, fileCtx: Context, msg: Message, color: Option<Color> := None, output: Output := ALL)
      requires Valid()
      modifies Handlers()
      ensures consoleHandler != null ==>
        consoleHandler.lines == old(consoleHandler.lines) + (if output.console then [ConsoleText(msg, color, Level.Error, consoleCtx)] else [])
      ensures fileHandler != null ==>
        fileHandler.lines == old(fileHandler.lines) + (if output.file then [FileText(msg, Level.Error, fileCtx)] else [])
      ensures forall h :: h in old(Handlers()) ==> h.closed == old(h.closed)
    {
      AtLevel(consoleCtx, fileCtx, msg, color, output, Level.Error);
    }

    /** `critical`. */
    method Critical(consoleCtx: Context, fileCtx: Context, msg: Message, color: Option<Color> := None, output: Output := ALL)
      requires Valid()
      modifies Handlers()
      ensures consoleHandler != null ==>
        consoleHandler.lines == old(consoleHandler.lines) + (if output.console then [ConsoleText(msg, color, Level.Critical, consoleCtx)] else [])
      ensures fileHandler != null ==>
        fileHandler.lines == old(fileHandler.lines) + (if output.file then [FileText(msg, Level.Critical, fileCtx)] else [])
      ensures forall h :: h in old(Handlers()) ==> h.closed == old(h.closed)
    {
      AtLevel(consoleCtx, fileCtx, msg, color, output, Level.Critical);
    }
  }

  /** With the template `[MESSAGE]` a record renders as its message text. */
  lemma MessageOnly(r: Record)
    ensures Render([Token(MessageBlock)], r) == MsgToStr(r.msg, r.ctx.utf8)
  {
    assert RenderUpTo([Token(MessageBlock)], 0, r) == "";
  }

  /** With the template `[MESSAGE]`, `file` writes the bare text and
      `console` the text in the level's default colour. */
  lemma MessageOnlyLines(logger: Logger, text: string, level: Level, ctx: Context)
    requires logger.format == [Token(MessageBlock)]
    ensures logger.FileText(Str(text), level, ctx) == text
    ensures logger.ConsoleText(Str(text), None, level, ctx)
      == Colorize(logger.colored, DefaultColor(level), text)
  {
    MessageOnly(logger.RecordOf(Str(text), level, ctx));
  }

  /** A second logger under a permanent logger's name attaches to it: the
      very same handlers, the first logger's file and permanence, and no
      new registry entry. */
  method ReinstantiatePermanent() returns (sameConsole: bool, sameFile: bool, inherited: bool)
    ensures sameConsole && sameFile && inherited
  {
    var registry := new Registry();
    var first := new Logger(registry, "debug_logger", Some("test.log"), true);
    var before := registry.entries;
    var second := new Logger(registry, "debug_logger");
    sameConsole := second.consoleHandler == first.consoleHandler;
    sameFile := second.fileHandler == first.fileHandler && second.fileHandler != null;
    inherited := second.file == Some("test.log") && second.permanent
      && registry.entries == before;
  }

  /** One call of the level method for `level` on a logger whose handlers
      are `console` and `file` and whose template is `[MESSAGE]`: the text
      is appended to the file as is and to the console in the level's
      default colour. */
  method LevelStep(logger: Logger, console: Handler, file: Handler, level: Level, text: string,
                   consoleCtx: Context, fileCtx: Context)
    requires logger.Valid() && logger.format == [Token(MessageBlock)]
    requires logger.consoleHandler == console && logger.fileHandler == file
    modifies console, file
    ensures file.lines == old(file.lines) + [text]
    ensures console.lines == old(console.lines) + [Colorize(logger.colored, DefaultColor(level), text)]
  {
    MessageOnlyLines(logger, text, level, consoleCtx);
    MessageOnlyLines(logger, text, level, fileCtx);
    match level {
      case Debug => logger.Debug(consoleCtx, fileCtx, Str(text));
      case Info => logger.Info(consoleCtx, fileCtx, Str(text));
      case Warning => logger.Warning(consoleCtx, fileCtx, Str(text));
      case Error => logger.Error(consoleCtx, fileCtx, Str(text));
      case Critical => logger.Critical(consoleCtx, fileCtx, Str(text));
    }
  }

  /** A logger with a file and the template `[MESSAGE]`: `debug("hello")`
      then `info("world")` leave the two messages in the file, in order,
      and the same two on the console in the DEBUG and INFO colours. */
  method HelloWorld(ctx: Context) returns (fileLines: seq<string>, consoleLines: seq<string>)
    ensures fileLines == ["hello", "world"]
    ensures consoleLines == [Colorize(true, Black, "hello"), Colorize(true, Blue, "world")]
  {
    var registry := new Registry();
    var logger := new Logger(registry, "X", Some("x.log"));
    logger.SetFormat([Token(MessageBlock)]);
    var console, file := logger.consoleHandler, logger.fileHandler;
    LevelStep(logger, console, file, Level.Debug, "hello", ctx, ctx);
    LevelStep(logger, console, file, Level.Info, "world", ctx, ctx);
    fileLines := file.lines;
    consoleLines := console.lines;
  }

  /** A MONO logger writes the same uncoloured line to both targets. */
  method MonoLog(ctx: Context) returns (fileLines: seq<string>, consoleLines: seq<string>)
    ensures fileLines == ["MONOLOG"] && consoleLines == ["MONOLOG"]
  {
    var registry := new Registry();
    var logger := new Logger(registry, "log", Some("log.log"), colorMode := Mono);
    logger.SetFormat([Token(MessageBlock)]);
    MessageOnlyLines(logger, "MONOLOG", Level.Debug, ctx);
    logger.Log(ctx, ctx, Str("MONOLOG"));
    fileLines := logger.fileHandler.lines;
    consoleLines := logger.consoleHandler.lines;
  }

  /** An empty file name gives no file handler, so only the console is
      written. */
  method EmptyFileName(ctx: Context) returns (hasFile: bool, consoleCount: nat)
    ensures !hasFile && consoleCount == 1
  {
    var registry := new Registry();
    var logger := new Logger(registry, "x", Some(""));
    hasFile := logger.fileHandler != null;
    logger.Debug(ctx, ctx, Str("hello"));
    consoleCount := |logger.consoleHandler.lines|;
  }

  /** After a release the name is free: the next logger under it creates
      new handlers instead of attaching, and a released logger writes
      nothing. */
  method ReleaseThenRecreate(ctx: Context) returns (newHandler: bool, oldLines: seq<string>)
    ensures newHandler && oldLines == []
  {
    var registry := new Registry();
    var first := new Logger(registry, "n");
    var handler := first.consoleHandler;
    first.Release();
    first.Debug(ctx, ctx, Str("dropped"));
    var second := new Logger(registry, "n");
    newHandler := second.consoleHandler != handler;
    oldLines := handler.lines;
  }

  /** Releasing a logger a second time, after another logger has taken its
      name, removes the newer logger's registry entry: a third logger then
      creates new handlers although the second one is still live. */
  method StaleRelease() returns (registered: bool, secondLive: bool, thirdAttached: bool)
    ensures !registered && secondLive && !thirdAttached
  {
    var registry := new Registry();
    var first := new Logger(registry, "n");
    first.Release();
    var second := new Logger(registry, "n");
    first.Release();
    registered := "n" in registry.entries;
    secondLive := second.entry.Some?;
    var third := new Logger(registry, "n");
    thirdAttached := third.consoleHandler == second.consoleHandler;
  }

  /** A second release of the same logger changes nothing when no other
      logger has taken the name meanwhile. */
  method ReleaseTwice() returns (registered: bool, released: bool)
    ensures !registered && released
  {
    var registry := new Registry();
    var logger := new Logger(registry, "n", Some("n.log"));
    logger.Release();
    var entries := registry.entries;
    logger.Release();
    registered := "n" in registry.entries;
    released := registry.entries == entries && logger.entry.None? && logger.file == Some("n.log");
  }

  /** The root logger is never freed: after the logger for "" is released,
      a logger for "root" attaches to the same, now closed, console
      handler. */
  method RootNeverFreed() returns (attached: bool, closed: bool)
    ensures attached && closed
  {
    var registry := new Registry();
    var first := new Logger(registry, "");
    var handler := first.consoleHandler;
    first.Release();
    var second := new Logger(registry, "root");
    attached := second.consoleHandler == handler;
    closed := handler.closed;
  }
}
