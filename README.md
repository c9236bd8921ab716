# hlog: construction of a logger, modelled in Dafny

hlog is a thin Go layer over logrus, file-rotatelogs and lfshook. This
model covers the part that hlog.go decides itself: turning an `Option` into
a configured logger.

- **Option resolution** (`newLogger`). The directory step runs first, then
  the absolute-path check. After that come the date-format and
  timestamp-format defaults, the level threshold, the output and the choice
  between the text and the JSON formatter.
- **Sink naming**. In `New`, one rotating writer gets the file pattern
  `<LogPath>-<date format>` and the link `<LogPath>`. In `NewSeparate`, each
  level gets the link `<LogPath>.<level>` and the file pattern
  `<LogPath>.<level>.<date format>`.
- **Routing tables**. The level-to-writer map handed to lfshook sends every
  level to the one writer in `New`, and each level to its own writer in
  `NewSeparate`.
- **Writer order**. `NewSeparate` opens its writers debug, info, warn, error,
  fatal, panic, stops at the first failure and prefixes that failure's error.
- **Package state**. The package variables `logger`, `fileNameDateFormat` and
  `timestampFormat` are overwritten during construction.
- **Dispatch**. The `Logger.Debug`…`Panic` methods each pass their entry on
  at their own level.

The project has three modules:

- `Results` (results.dfy): `Result`, `Outcome` and a nullable `Ref`.
- `Hlog` (hlog.dfy): the values, the functions that specify each step, and
  the lemmas about them.
- `HlogPackage` (package.dfy): class `Package`. Its fields are the three
  package variables, and `GetLogger` reads `logger`. Its methods follow
  `newLogger`, `New`, `newRotatelog` and `NewSeparate` statement by
  statement, and each is proved equal to the function in `Hlog` that
  specifies it.

The steps outside the package are parameters, bundled in `Env`:
`makeDirAll` from util.go and `rotatelogs.New`. Each either succeeds or
returns an error message. A writer is identified by the options it was
opened with (`Sink`). A logrus logger is represented by the fields hlog sets
on it.

Behaviour of the code worth knowing, which the model keeps:

- **Max age and rotation period.** hlog.go passes `MaxAge` and
  `RotationTime` to file-rotatelogs unchanged and never compares them.
  `SharedSink` and `SeparateSink` state only that the values pass through.
- **An unset `LogLevel`.** Its Go zero value is `PanicLevel` (number 0), and
  it becomes the threshold unchanged, so only panic entries pass it.
  `Resolve` states this through `level == option.logLevel`.
- **The `DataKey` constant.** The package declares `DataKey = "data"` but
  never uses it. The `JSONDataKey != ""` guard changes nothing, because
  logrus' own default data key is also empty. `DataKeyIsOptionKey` proves
  that the data key is always exactly `JSONDataKey`.

## Model

| member | source | states |
|---|---|---|
| Hlog.Number | hlog.go:33-41 | The levels are numbered by `iota`, from Panic = 0 up to Debug = 5, so every number is below 6. |
| Hlog.LevelOf | hlog.go:33-41 | Every number below 6 names exactly one level, and `Number` maps that level back to the number. |
| Hlog.NumberRoundTrip | hlog.go:33-41 | Numbering a level and reading the number back gives the same level. |
| Hlog.Name | hlog.go:213-233 | Each level's file suffix in `NewSeparate` is non-empty; the exact suffix of each level is pinned by the `Logger` method rows. |
| Hlog.NamesDiffer | hlog.go:213-233 | The names of two different levels differ in their first letter. |
| Hlog.CreationOrderOpensEachLevelOnce | hlog.go:213-235 | The writer order of `NewSeparate` contains every level exactly once. |
| Hlog.Logger.Debug | hlog.go:255-257 | The entry is passed on at level number 5 ("debug"), with the caller's fields and message unchanged. |
| Hlog.Logger.Info | hlog.go:259-261 | The entry is passed on at level number 4 ("info"), with the fields and message unchanged. |
| Hlog.Logger.Warn | hlog.go:263-265 | The entry is passed on at level number 3 ("warn"), with the fields and message unchanged. |
| Hlog.Logger.Error | hlog.go:267-269 | The entry is passed on at level number 2 ("error"), with the fields and message unchanged. |
| Hlog.Logger.Fatal | hlog.go:271-273 | The entry is passed on at level number 1 ("fatal"), with the fields and message unchanged. |
| Hlog.Logger.Panic | hlog.go:275-277 | The entry is passed on at level number 0 ("panic"), with the fields and message unchanged. |
| Hlog.DateFormatOf | hlog.go:97-101 | The file-name date format is never empty. A non-empty option is used verbatim; an empty one becomes "%Y%m%d". |
| Hlog.TimestampFormatOf | hlog.go:103-107 | The timestamp format is never empty. A non-empty option is used verbatim; an empty one becomes "2006-01-02 15:04:05". |
| Hlog.FormatsIdempotent | hlog.go:97-107 | Passing a resolved format back in as the option resolves to the same format. |
| Hlog.FormatterOf | hlog.go:114-128 | The JSON formatter is chosen if and only if `LogType` is exactly "json"; any other value, including "" and unknown strings, gives the text formatter. Both use the resolved timestamp format. JSON takes `PrettyPrint` from the option. |
| Hlog.DataKeyIsOptionKey | hlog.go:120-122 | For JSON, the data key always equals `JSONDataKey`: the non-empty guard is a no-op against logrus' empty default. |
| Hlog.Resolve | hlog.go:83-131 | `newLogger` succeeds if and only if the directory step succeeds and the path is absolute. A directory error is returned as is. A relative path gets the "LogPath please use absolute path: " message. On success: the output is discarded, caller reporting and the level come from the option unchanged, the formatter is `FormatterOf`, and there are no hooks yet. |
| Hlog.RelativePathRefused | hlog.go:89-95 | A relative `LogPath` is always refused. The directory step runs first, so its error wins over the path error. |
| Hlog.SharedSink | hlog.go:147-152 | The shared writer's link is `LogPath`. Max age and rotation time pass through unchanged, with no check between them. |
| Hlog.SharedPatternParts | hlog.go:148 | The shared file pattern is exactly `LogPath`, a dash, then the date format. |
| Hlog.SeparateSink | hlog.go:181-186 | A per-level writer takes max age and rotation time unchanged. |
| Hlog.SeparateLinkParts | hlog.go:181-184 | A per-level link is exactly `LogPath`, a dot, then the level name. Its file pattern is the link, a dot, then the date format. |
| Hlog.SeparateSinksDiffer | hlog.go:181-184 | Two different levels get different link names and different file patterns. |
| Hlog.SinksAbsolute | hlog.go:147-152 | When `LogPath` is absolute, every pattern and link built from it is absolute, in both modes. |
| Hlog.SharedWriterMap | hlog.go:157-164 | `New`'s map covers all six levels and sends each one to the single writer. |
| Hlog.SeparateWriterMap | hlog.go:237-244 | `NewSeparate`'s map covers all six levels. Each level maps to the writer named after it, and no two levels share a writer. |
| Hlog.Rotatelog | hlog.go:174-193 | `newRotatelog` succeeds if and only if the writer opens, and then returns that level's writer. On failure it returns the writer's error prefixed with "rotatelogs.New error: ". |
| Hlog.CreateInOrder | hlog.go:213-235 | Opening the writers in order succeeds if and only if every listed level's writer opens. |
| Hlog.CreateInOrderStep | hlog.go:213-235 | The first writer either fails and decides the result, or opens and leaves the result to the remaining writers. |
| Hlog.CreateInOrderFailure | hlog.go:213-235 | A failure carries the prefixed error of a level whose writer failed, and every level before it opened. That level is therefore the first failing one. |
| Hlog.CreateInOrderStopsAt | hlog.go:213-235 | Conversely, if the k-th writer is the first to fail, the result is its error, whatever the later writers would do. |
| Hlog.LevelWriters | hlog.go:213-244 | Succeeds if and only if every writer in creation order opens; otherwise it returns the error of that ordered opening. On success the map covers every level and sends each level to the writer named after it. |
| Hlog.SharedLogger | hlog.go:135-172 | `New` returns `newLogger`'s error, or else the writer's unprefixed error. On success the path is absolute, and the logger is `newLogger`'s logger plus one hook: the shared map with the logger's own formatter. |
| Hlog.SeparateLogger | hlog.go:196-253 | `NewSeparate` returns `newLogger`'s error, or else the first writer error. On success the path is absolute, and the logger is `newLogger`'s logger plus one hook: the per-level map with the logger's own formatter. |
| Hlog.SeparateLoggerStopsAt | hlog.go:209-235 | If the k-th writer in creation order is the first that cannot be opened, `NewSeparate` fails with that writer's prefixed error. |
| Hlog.SeparateLoggerSucceeds | hlog.go:209-252 | A resolved option whose six writers all open always yields a logger from `NewSeparate`. |
| Hlog.SeparateFailureIsFirstInOrder | hlog.go:209-235 | When the option resolves, every failure of `NewSeparate` is the prefixed error of the first writer in creation order that could not be opened. |
| Hlog.SharedRoutesEveryLevelToOneFile | hlog.go:157-166 | A logger built by `New` writes every level to the one shared writer and to nothing else. |
| Hlog.SeparateRoutesEachLevelToItsFile | hlog.go:237-246 | A logger built by `NewSeparate` writes level l only to the writer `<LogPath>.<l>`. |
| Hlog.SeparateLevelsNeverShareFiles | hlog.go:237-244 | In separate mode, the writers of two different levels have different links and different file patterns. |
| Hlog.SeparateDispatch | hlog.go:255-277 | In separate mode, each `Logger` method reaches exactly the file named after it. In particular, a warning never reaches `<LogPath>.error`. |
| Hlog.LoggersWriteAbsolutePaths | hlog.go:93-95 | Every file and link that a constructed logger writes to is an absolute path, in both modes. |
| HlogPackage.Package.constructor | hlog.go:21-25 | Before any constructor runs, there is no logger and both formats are empty, which are Go's zero values. |
| HlogPackage.Package.NewLogger | hlog.go:83-131 | The step-by-step `newLogger` returns exactly `Resolve`'s result. On success it overwrites both package formats with the resolved ones. On error it leaves them untouched. |
| HlogPackage.Package.New | hlog.go:135-172 | Returns exactly `SharedLogger`. The package `logger` becomes the returned logger on success and stays as it was on any error. Once the option resolves, the formats stay overwritten even if opening the writer then fails. |
| HlogPackage.Package.NewRotatelog | hlog.go:174-193 | Returns `Rotatelog` for the package's current date format. |
| HlogPackage.Package.NewLevelWriters | hlog.go:213-244 | The six sequential `newRotatelog` calls return exactly `LevelWriters` for the package's current date format. |
| HlogPackage.Package.NewSeparate | hlog.go:196-253 | Returns exactly `SeparateLogger`. It updates `logger` and the formats in the same way as `New`. |

## Left out

- Rotation itself is not modelled: file creation, appends, rotation
  boundaries, the retention sweep and the link maintenance all happen inside
  file-rotatelogs. `rotatelogs.New` is modelled only as a step that either
  succeeds or fails.
- Level-threshold filtering, rendering of text and JSON, caller reporting,
  and the exit or panic after Fatal and Panic all happen inside logrus. The
  model keeps only the configuration hlog hands to logrus and the level of
  each entry.
- lfshook's dispatch is not modelled beyond the map it receives.
  `Logger.Targets` reads which writers a level reaches from the hooks.
- util.go is not part of this model. `makeDirAll` is a parameter that
  succeeds or fails; `isWindow` and `getNowDateTime` are not used by the
  core.
- The package-level `Debug`…`Panic` functions and `StderrFatalf` are not
  modelled. The level functions log through the `logger` the constructors
  set. They panic on a nil pointer if no constructor has succeeded. Their
  fallback to the logrus standard logger needs a logger without a logrus
  logger, which no constructor produces, so it cannot be reached.
- `*Option` is modelled as a value. The nil-pointer panic of `New(nil)` and
  `NewSeparate(nil)` when `newLogger` reads `option.LogPath` is therefore
  not modelled.
- Values in the data fields (`D`) are modelled as strings; their content is
  passed along but never inspected.
- Pointer identity of writers and loggers is not modelled. A writer is
  identified by the options it was opened with, and a `Logger` is a value.
  Two writers with equal options therefore count as one writer.
- Concurrency is not modelled: hlog has no locks of its own.
