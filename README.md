# Conditional debug logger of a game-server resource

This project models the debug logger of a small add-on resource for a
multiplayer game-server runtime (`src/common/debug.ts`). The logger has three parts:

- **Filter.** A call produces output only when three things hold:
  - the configuration's global `enabled` switch is on;
  - the per-category switch (`client`, `server`, `ui`) is on;
  - the call's level is at or above the configured `logLevel`. Levels are
    ranked by their position in the list `debug, info, warn, error`.
- **Formatter.** It builds the line `[timestamp] [resource] [MODULE] [LEVEL] message`.
  If there are extra arguments, it adds a space and the arguments joined by
  single spaces. An argument whose `typeof` is `"object"` is written as JSON;
  any other argument goes through plain string conversion.
- **Router.** It writes the line to `console.error` for `error`, to
  `console.warn` for `warn`, and to `console.log` otherwise. There are also
  four level shorthands and a lazily created shared instance.

Files:

- `levels.dfy` (module `Levels`): the closed sets of levels and categories.
  It also holds their names, the upper-case tags used in the prefix, the
  parsing of a configured level name, and the severity order as an explicit
  table.
- `filter.dfy` (module `Filter`): the configuration record, `indexOf` over the
  level list, `ShouldLog`, and what proves the decision correct.
- `format.dfy` (module `Format`): argument values, `typeof`, the rendering of
  arguments, `join`, and `FormatMessage`. It also proves the exact shape of a
  line.
- `logger.dfy` (module `Logger`): the console as a class that records
  `(stream, line)` entries, and the `DebugLogger` class with `Log` and its
  shorthands. It also has the class's static side (`LoggerStatics`, with the
  nullable `instance`), `GetInstance`, and the module-load export of the
  shared logger.

Host dependencies are explicit parameters:

- the configuration, passed to every call, as the source reads it live at
  every call;
- the resource name, passed to the constructor, or held by `LoggerStatics`
  for `GetInstance`;
- the timestamp string, passed to every call;
- the two host renderers (JSON serialisation and string conversion), as a
  `Renderer` record of functions;
- the console, as a `Console` object that the logging methods modify.

How the configuration is read:

- The configured minimum level is read as a string and ranked with
  `indexOf`. A string that names no level gets rank -1 and lets every level
  through (`UnknownLevelPassesAll`). A missing `logLevel` behaves the same
  way, because `indexOf(undefined)` is -1. The model covers that case as well,
  since it stands for any string that names no level.
- A category key missing from the module map suppresses output, because its
  value is `undefined`, which is falsy. The model represents a missing key as
  absent from the `modules` map, and `ModuleEnabled` treats it as off.
- A missing `enabled` also suppresses output, because `!undefined` is true.
  The model's `enabled` is a boolean, so "missing" is represented by `false`.
- A missing `modules` map, or a missing `Config.Debug`, would throw. The
  model's configuration is always a full record, so these cases do not arise.

## Model

| member | source | states |
|---|---|---|
| `Levels.TagsAreUpperCasedNames` | src/common/debug.ts:42 | the category and level tags in the prefix are exactly the ASCII upper-casing of their lower-case names |
| `Levels.AsciiUpper` | src/common/debug.ts:42 | upper-casing keeps the length and maps each character through the ASCII letter upper-casing |
| `Levels.ParseLevel` | src/common/debug.ts:33-34 | a parsed level has exactly the configured name; `None` means the string is the name of no level |
| `Levels.ParseLevelName` | src/common/debug.ts:33 | reading back a level's name gives that level |
| `Levels.AtLeastIsTotalOrder` | src/common/debug.ts:33 | the severity order debug < info < warn < error is reflexive, antisymmetric, transitive and total |
| `Filter.IndexOf` | src/common/debug.ts:34-35 | the result is the first position holding the string, or -1 exactly when the string is absent |
| `Filter.ShouldLog` | src/common/debug.ts:21-38 | output is never allowed while the global switch is off or the category's switch is off or missing |
| `Filter.LevelPositions` | src/common/debug.ts:33-35 | the four names sit at positions 0, 1, 2, 3 of the level list |
| `Filter.IndexOrderIsSeverityOrder` | src/common/debug.ts:33-37 | comparing level-list positions is the same as the severity order |
| `Filter.UnknownLevelIndex` | src/common/debug.ts:34 | a configured string that names no level gets index -1 |
| `Filter.ShouldLogExactly` | src/common/debug.ts:21-38 | a call passes exactly when the global switch and the category switch are on and the level is at least the configured level; if the configured string names no level, the threshold lets everything through |
| `Filter.WarnThresholdExample` | src/common/debug.ts:33-37 | with `warn` configured, `debug` and `info` are suppressed and `warn` and `error` pass |
| `Filter.UnknownLevelPassesAll` | src/common/debug.ts:34-37 | with both switches on and an unrecognised configured level, every level passes |
| `Filter.ShouldLogUpwardClosed` | src/common/debug.ts:37 | if a level passes, every more severe level passes too |
| `Filter.SwitchingOffOneModule` | src/common/debug.ts:28-30 | turning one category's switch off silences that category at every level and leaves every other category's decision unchanged |
| `Format.RenderArg` | src/common/debug.ts:47-49 | null, arrays and objects are written by JSON serialisation; every other value by plain string conversion |
| `Format.RenderAll` | src/common/debug.ts:47-49 | one rendering per argument, in the arguments' order |
| `Format.JoinIsSpaceEach` | src/common/debug.ts:47-49 | a space and then the space-joined parts equals each part preceded by one space |
| `Format.JoinAppend` | src/common/debug.ts:47-49 | joining one more part at the end adds the separator and that part |
| `Format.FormatShape` | src/common/debug.ts:40-53 | every line is `[ts] [res] [MODULE] [LEVEL] ` and the message, then each rendered argument in order, each preceded by exactly one space |
| `Format.FormatWithoutArgs` | src/common/debug.ts:44-52 | without arguments the line ends right after the message |
| `Format.FormatAppendArg` | src/common/debug.ts:46-50 | one more argument appends one space and its rendering; nothing before it changes |
| `Format.BoomExample` | src/common/debug.ts:40-53 | a server error `Boom` with the object `{code: 42}` gives `[ts] [res] [SERVER] [ERROR] Boom ` followed by that object's JSON |
| `Format.StringArgsVerbatim` | src/common/debug.ts:47-49 | for any sequence of string arguments, the line is the prefix, one space, the message, and then each string verbatim, in order, each preceded by one space. This assumes string conversion of a string gives the string itself |
| `Logger.StreamFor` | src/common/debug.ts:62-74 | `error` goes to the error stream, `warn` to the warning stream, and `debug` and `info` to the standard stream, each in both directions |
| `Logger.EmittedExactlyWhenEnabled` | src/common/debug.ts:55-75 | a call writes at most one line, and writes one exactly when the filter's three conditions hold |
| `Logger.SwitchedOffWritesNothing` | src/common/debug.ts:55-58 | with either switch off, a call writes nothing at any level |
| `Logger.EmittedRouting` | src/common/debug.ts:60-74 | a written line is the formatted line and goes to the stream chosen by its level |
| `Logger.DebugLogger.constructor` | src/common/debug.ts:10-12 | the resource name is the one given by the host at construction and never changes (`const`) |
| `Logger.DebugLogger.Log` | src/common/debug.ts:55-75 | the console gains exactly the entries `Emitted` gives (none when filtered, else one), and nothing else changes |
| `Logger.DebugLogger.Info` | src/common/debug.ts:78-80 | the same effect on the console as `Log` at level `info` |
| `Logger.DebugLogger.Warn` | src/common/debug.ts:82-84 | the same effect on the console as `Log` at level `warn` |
| `Logger.DebugLogger.Error` | src/common/debug.ts:86-88 | the same effect on the console as `Log` at level `error` |
| `Logger.DebugLogger.Debug` | src/common/debug.ts:90-92 | the same effect on the console as `Log` at level `debug` |
| `Logger.LoggerStatics.constructor` | src/common/debug.ts:7 | the static instance starts out absent |
| `Logger.LoggerStatics.GetInstance` | src/common/debug.ts:14-19 | a new logger with the host's resource name is made only when no instance exists; afterwards the stored instance is returned and kept |
| `Logger.LoadDebugModule` | src/common/debug.ts:96 | the exported shared logger is the stored instance and carries the host's resource name |
| `Logger.GetInstanceTwice` | src/common/debug.ts:14-19 | two calls in a row return the identical object, and that object is the earlier instance if there was one |

## Left out

- `GetCurrentResourceName()` is a host-runtime call. It is a constructor
  parameter (and a field of `LoggerStatics`) instead.
- `new Date().toISOString()` reads the clock. The timestamp is a string
  parameter of every call, and ISO-8601 generation is not modelled.
- `JSON.stringify` and `String(...)` are host functions. They are the two
  opaque functions of a `Renderer`. Their failures (cyclic objects, BigInt
  inside objects) are not modelled.
- JavaScript numbers are modelled as integers, since only their rendering
  matters and that is opaque. Symbols and BigInts are not among the argument
  values.
- `toUpperCase` is not modelled in general. The closed sets use fixed tag
  tables, which are proved equal to ASCII upper-casing of the names.
- The `console.*` streams are the `Console` class, an ordered record of
  `(stream, line)` entries.
- Loading `Config` from `./config` is replaced by a `DebugConfig` record
  passed to every call. The record is always present, so the code's failure
  on a missing `Config.Debug` or a missing `modules` map is not represented.
- The global `enabled` switch and the per-category values are read for
  truthiness (src/common/debug.ts:23 and 28). The model holds both as
  booleans, so a missing `enabled` is represented only as `false`. Truthy
  or falsy values that are not booleans are not represented.
- The `default` branch of the `switch` in `log` cannot be reached, because
  levels form a closed datatype. For the same reason a level string outside
  the four names cannot reach the call's own `indexOf`.
- `src/server/index.ts` (`Greetings`, command registration, network events)
  is host and network plumbing with no logic of its own.
- There is no concurrency in the source, so there is no threading model.
