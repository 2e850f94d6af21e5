# uglylogger `Logger` in Dafny

This project models the `Logger` class of `src/uglylogger/logger.py`, a thin
layer over Python's `logging` package that writes every record to a console
handler, a file handler, or both. The model has four parts.

- **Format engine** (module `Formatting`). A template is a sequence of
  literals and tokens (NAME, LEVEL, DATETIME, MESSAGE, FILE, LINE, FUNCTION),
  plus `LogFormatBlock` flag values that are not a single token (an empty
  flag, or a union such as `FILE | LINE`), which match no case of `_format`.
  `Render` is the specification: the in-order concatenation of each item's
  piece. `Logger.Format` is the loop of `_format` and is proved equal to
  `Render`. The call site (file, line, function) is looked up lazily by
  `FileLineFunc`, the while loop of `_get_file_line_func`. Its specification
  `Caller` is the first frame, from index 0, whose file differs from the file
  of frame 1. `Colorize` and `ColorPrefix` are the ANSI wrapping of
  `_colored_format` and `_color_str`.
- **One-line printer** (module `Oneline`, method `Logger.ConsoleOneline`).
  This is the text that `console_oneline` prints: a carriage return, then the
  message padded with spaces or cut with `"..."` to the console width,
  optionally coloured.
- **Router** (`Logger.Console`, `File`, `Log`, `Debug` .. `Critical`).
  Each handler carries a tag filter (`Accepts`), and each record carries a
  `block` tag. A console record is tagged "file", so it never reaches the
  file handler. A file record is tagged "console", so it never reaches the
  console handler. A handler's `lines` is the sequence of lines it has
  written.
- **Registry lifecycle** (`Registry`, `Logger.constructor`,
  `Logger.Release`). `Registry.entries` stands for
  `logging.Logger.manager.loggerDict`. `Registry.root` is the root logger,
  which `logging.getLogger` returns for both "" and "root" and which is never
  in `loggerDict`. A name whose logger already has handlers is attached to:
  its handlers, file, permanence and colour mode are reused. A new name gets
  a fresh console handler and, for a non-empty file, a fresh file handler
  opened in mode "a" or "w". `Release` closes both handlers and removes the
  name from `loggerDict`. The root logger therefore keeps its closed
  handlers, and the next logger for "" or "root" attaches to them.

Inputs from the environment are parameters. They are gathered in
`Formatting.Context`, one for each render. `log` and `debug` .. `critical`
render twice, once for the console and once for the file, so they take two
contexts, and the two timestamps of one call may differ:

- the stack from `inspect.stack()`, as frames of file, line and function;
- the `strftime` text of `datetime.now()`;
- the UTF-8 decoder for byte messages.

A message that is not bytes is given by its `str()` text.

The model follows the code, including these behaviours that are easy to
miss:

- `release` (logger.py:208-221) does not reset the file, the permanence or
  the colour mode. It only drops the handlers and the registry entry.
- `release` deletes the registry entry under the logger's name even when
  another logger has registered that name since. `Loggers.StaleRelease`
  shows the consequence.
- All handler and logger thresholds are DEBUG (logger.py:186, 190, 197), so
  no record is ever dropped for its level.
- `set_color_mode` (logger.py:235-241) sets `_colored` only. The stored
  `_color_mode` attribute never changes after construction.
- `console_oneline` compares the boolean `_colored` with
  `LogColorMode.COLORED`, whose value is 1 (logger.py:350). Since `True == 1`,
  this amounts to testing `_colored`.

## Model

| member | source | states |
|---|---|---|
| Text.NatToDecimal | src/uglylogger/logger.py:252-254 | `%d` of a non-negative number is a non-empty string of digits without leading zeros |
| Text.DecimalRoundTrip | src/uglylogger/logger.py:306-307 | reading the printed digits back gives the number, so distinct line numbers print differently |
| Text.IntToDecimal | src/uglylogger/logger.py:306-307 | `str(lin)` is the digits of the number, after a minus sign when it is negative |
| Text.Basename | src/uglylogger/logger.py:301-302 | `os.path.basename` is the longest suffix without `/`, and the character before it is `/` |
| Text.SliceTo | src/uglylogger/logger.py:346 | Python's `s[:k]` is a prefix, of length `k`, of length `len(s)+k` for a negative `k`, clipped at the ends |
| Text.Spaces | src/uglylogger/logger.py:340 | `" " * n` is `n` spaces, or empty for a negative `n` |
| Levels.ColorIndex | src/uglylogger/logger.py:21-31 | the colours are numbered 0 to 7 |
| Levels.ColorIndexInjective | src/uglylogger/logger.py:21-31 | distinct colours have distinct numbers |
| Levels.LevelName | src/uglylogger/logger.py:60-77 | each level's name is a non-empty word of capital letters |
| Levels.LevelNameRoundTrip | src/uglylogger/logger.py:60-77 | each level's name identifies the level |
| Levels.ResolveColor | src/uglylogger/logger.py:371-402 | a given colour wins; otherwise the level's default colour is used |
| Levels.DefaultColor | src/uglylogger/logger.py:372-401 | no level's default colour is GREEN, CYAN or WHITE |
| Levels.DefaultColorInjective | src/uglylogger/logger.py:372-401 | the five levels get five different default colours |
| Formatting.DateTimeToStr | src/uglylogger/logger.py:223-233 | the timestamp text loses exactly its last three characters |
| Formatting.ColorPrefix | src/uglylogger/logger.py:252-254 | the prefix is ESC `[1;3` followed by the colour's digit and `m` |
| Formatting.ColorPrefixInjective | src/uglylogger/logger.py:252-254 | the colour can be read back from its prefix |
| Formatting.MsgToStr | src/uglylogger/logger.py:256-257 | a byte message is its UTF-8 decoding, any other message its `str()` text |
| Formatting.Colorize | src/uglylogger/logger.py:318-325 | coloured text is the plain text between the 7-character prefix and the 4-character reset, 11 characters longer; mono text is the plain text |
| Formatting.FirstForeign | src/uglylogger/logger.py:266-277 | the index found is the first at or after the start whose file differs, or the end |
| Formatting.FileLineFunc | src/uglylogger/logger.py:259-279 | the frame returned is the first whose file differs from frame 1's and every earlier frame shares that file; with no such frame the result is None |
| Formatting.Render | src/uglylogger/logger.py:281-316 | the empty template renders as the empty string |
| Formatting.RenderAppend | src/uglylogger/logger.py:286-314 | appending an item to a template appends that item's piece to the rendering |
| Formatting.RenderPrefix | src/uglylogger/logger.py:286-314 | the rendering of a template is a prefix of the rendering of any extension of it |
| Formatting.PlainPieces | src/uglylogger/logger.py:286-315 | a literal, NAME, LEVEL, DATETIME and MESSAGE each add their own text wherever they stand; a flag with no block or with two or more blocks (`MultiBlocks`) adds nothing |
| Formatting.FileAfterSite | src/uglylogger/logger.py:297-302 | FILE adds the call site's base name only when no FILE, LINE or FUNCTION came before it |
| Formatting.LineAndFunctionAlways | src/uglylogger/logger.py:303-312 | LINE and FUNCTION add the call site's line and function wherever they stand, or nothing without a call site |
| Formatting.RenderIgnoresStack | src/uglylogger/logger.py:297-312 | a template without FILE, LINE and FUNCTION renders the same for every stack |
| Formatting.DefaultRender | src/uglylogger/logger.py:112-127 | the default template renders as `[name] [LEVEL] [timestamp] (file:line:function) message`, with empty call-site fields when there is no call site |
| Oneline.Payload | src/uglylogger/logger.py:343-348 | a message that fits is padded to exactly the width; a longer one becomes its first `width-3` characters and `...`, exactly the width when the width is at least 3, and longer than the width for widths 1 and 2 |
| Oneline.OnelineGuards | src/uglylogger/logger.py:336-341 | a width of 0 or less prints nothing; an empty message prints a carriage return, `width` spaces and a carriage return |
| Oneline.OnelineVisible | src/uglylogger/logger.py:350-361 | a non-empty message is printed after a carriage return, coloured or plain, and its visible part is exactly the width when the width is at least 3 or the message fits |
| Oneline.OnelineExamples | tests/test_main.py:100-133 | "1234567890" at width 5 prints "12..."; "12345" in colour prints the BLACK prefix, "12345" and the reset; "1" at width 100 is padded with 99 spaces |
| Loggers.Accepts | src/uglylogger/logger.py:243-250 | a record passes a handler's filter exactly when it carries no block tag or a tag other than the handler's |
| Loggers.FiltersSeparate | src/uglylogger/logger.py:243-250 | a record tagged "file" reaches only the console handler, one tagged "console" reaches only the file handler, and an untagged one reaches both |
| Loggers.Logger.constructor | src/uglylogger/logger.py:134-198 | a name whose logger has handlers (the root logger for "" and "root") is attached to: the registry is kept and the entry's handlers, file, permanence and colour mode are taken over; otherwise a new entry with the arguments is registered, as the root logger or in `loggerDict`, with a fresh console handler and a fresh file handler on the file in "a" or "w" mode exactly when the file is non-empty |
| Loggers.Logger.Release | src/uglylogger/logger.py:208-221 | both handlers are closed and dropped, the logger is dropped, the name leaves `loggerDict`, the root logger is left as it was, written lines are kept, and file, permanence, colour and template are unchanged |
| Loggers.Logger.CloseHandlers | src/uglylogger/logger.py:210-217 | each handler present is closed, keeping its lines, and dropped |
| Loggers.Logger.SetColorMode | src/uglylogger/logger.py:235-241 | the logger is coloured exactly when the mode is COLORED |
| Loggers.Logger.SetFormat | src/uglylogger/logger.py:327-328 | the template becomes the one given, empty by default |
| Loggers.Logger.Format | src/uglylogger/logger.py:281-316 | the loop's result is the template's rendering; the stack is walked at most once when a call site exists, never for a template without FILE, LINE or FUNCTION, and at every such token when there is no call site |
| Loggers.Logger.FormatItem | src/uglylogger/logger.py:287-314 | one pass of the loop appends exactly the item's piece, leaves the call site known after a FILE, LINE or FUNCTION token, and walks the stack only for such a token when the call site is not yet known |
| Loggers.Logger.SiteToken | src/uglylogger/logger.py:297-312 | FILE, LINE and FUNCTION append their piece, FILE only when its own lookup finds the call site, and the call site is known afterwards |
| Loggers.Logger.LazySite | src/uglylogger/logger.py:298-299 | the stack is walked exactly when the call site is not known yet, and the call site is known afterwards |
| Loggers.Logger.ColoredFormat | src/uglylogger/logger.py:318-325 | the rendering is wrapped in the colour when the logger is coloured and left bare otherwise |
| Loggers.Logger.ConsoleOneline | src/uglylogger/logger.py:330-361 | what is printed is the one-line text: nothing for width 0 or less, otherwise a carriage return and the coloured or plain padded or cut message |
| Loggers.Logger.Emit | src/uglylogger/logger.py:374-437 | the record goes to every handler of the logger, and each writes it exactly when its filter accepts the block tag; no handler is closed |
| Loggers.Logger.Console | src/uglylogger/logger.py:363-401 | the console gets exactly one line, the coloured rendering in the given or default colour; the file gets nothing; no handler is closed |
| Loggers.Logger.File | src/uglylogger/logger.py:403-437 | the file, when there is one, gets exactly one line, the plain rendering; the console gets nothing; no handler is closed |
| Loggers.Logger.Log | src/uglylogger/logger.py:439-458 | the console gets one line, rendered with its own context, iff CONSOLE is in the output, and the file one line, rendered with its own context, iff FILE is; no handler is closed |
| Loggers.Logger.AtLevel | src/uglylogger/logger.py:475-478 | one console line iff CONSOLE is in the output, one file line iff there is a file handler and FILE is in the output, each rendered with its own context; no handler is closed |
| Loggers.Logger.Debug | src/uglylogger/logger.py:460-478 | as `Log` at DEBUG: one console line iff CONSOLE is in the output, one file line iff there is a file handler and FILE is in the output |
| Loggers.Logger.Info | src/uglylogger/logger.py:480-498 | as `Debug`, at INFO |
| Loggers.Logger.Warning | src/uglylogger/logger.py:500-518 | as `Debug`, at WARNING |
| Loggers.Logger.Error | src/uglylogger/logger.py:520-538 | as `Debug`, at ERROR |
| Loggers.Logger.Critical | src/uglylogger/logger.py:540-558 | as `Debug`, at CRITICAL |
| Loggers.MessageOnly | src/uglylogger/logger.py:295-296 | with the template `[MESSAGE]` a record renders as its message text |
| Loggers.MessageOnlyLines | src/uglylogger/logger.py:256-257 | with the template `[MESSAGE]` the file line is the text and the console line is the text in the level's default colour |
| Loggers.LevelStep | src/uglylogger/logger.py:460-558 | each level method appends exactly one line to the file and one to the console |
| Loggers.HelloWorld | src/uglylogger/logger.py:460-498 | `debug("hello")` then `info("world")` leave "hello" and "world" in the file in that order, and the console lines in BLACK and BLUE |
| Loggers.ReinstantiatePermanent | tests/test_main.py:160-172 | a second logger under a taken name shares the first one's handlers, file and permanence and leaves the registry alone |
| Loggers.MonoLog | tests/test_main.py:336-345 | a MONO logger writes the same uncoloured line to the file and to the console |
| Loggers.EmptyFileName | src/uglylogger/logger.py:192-197 | an empty file name opens no file handler, and the console still gets the line |
| Loggers.ReleaseThenRecreate | src/uglylogger/logger.py:208-221 | after a release the next logger under the name gets a new handler, and the released logger writes nothing |
| Loggers.ReleaseTwice | src/uglylogger/logger.py:208-221 | a second release leaves the registry and the logger's file as they were |
| Loggers.StaleRelease | src/uglylogger/logger.py:219-221 | releasing a logger again after another one took its name unregisters the newer logger, which stays live, and a third logger does not share its handlers |
| Loggers.RootNeverFreed | src/uglylogger/logger.py:162-175 | after the logger for "" is released, a logger for "root" attaches to the same console handler, which is closed |

## Left out

- Locale probing and setting (logger.py:156-157), and the reassignment of `DATETIME_FORMAT` (logger.py:158), are environment side effects.
- `__del__` (logger.py:200-206) releases non-permanent loggers when they are garbage-collected. Its timing is not deterministic, so only explicit `Release` calls are modelled. `permanent` is therefore stored and inherited but never acted on.
- The clock: one `strftime` text serves a whole render. Python calls `datetime.now()` again at every DATETIME token, so two DATETIME tokens of one render can show different times. Separate renders, such as the console and file lines of one `log` call, take separate contexts and so separate times.
- The stack: one stack serves a whole render. Python takes `inspect.stack()` anew at every lookup; the frame found, which lies outside the logger's file, is the same each time.
- Loggers.Logger.constructor: a file that cannot be opened is not modelled. `logging.FileHandler` raises at logger.py:195 after the console handler is added and `_file` is stored, which leaves the name registered with a console handler only and a non-empty file, a state `Entry.Valid` excludes. The model opens every non-empty path.
- UTF-8 decoding of bytes and Python's `str()` of arbitrary objects are inputs. A decoding error, which raises in Python, is not modelled.
- `os.path.basename` is modelled for POSIX paths only.
- Python `logging` internals are reduced to appending one line per accepted record. Not modelled: record creation, propagation to ancestor loggers (once the root logger has handlers, every other logger's records reach them too), the default `%(message)s` formatter, the newline terminator, flushing, and the actual streams. `StreamHandler()` writes to standard error, and `console_oneline` prints to standard output, which the model returns as a string.
- Loggers.Handler.Handle: still writes after `Close`. A closed Python `FileHandler` reopens its file on the next record; in mode "w" recent Python versions drop the record instead. Only a logger that shares the handlers of a released logger can write to a closed handler.
- `loggerDict` can also hold loggers that have no handlers, for example ones created by other code. The model registers only loggers created by `Logger`. For those, apart from the root logger, "has handlers" and "is registered" coincide. The root logger is never registered, and it has handlers from its first `Logger` on, released or not.
- `set_format` stores the caller's list itself, so later changes to that list change the template. The model stores a copy.
- `src/uglylogger/logbase.py` is not part of this model. Neither are the move/rotation options, `set_log_level` and the per-target default levels it refers to, which the modelled `logger.py` does not define.
