/** The values the hlog package builds when it constructs a logger: how an
    `Option` is resolved into a logrus configuration, how the rotating sinks
    are named, and which sink each level is routed to. The rotating files,
    the level filter and the rendering live in logrus, file-rotatelogs and
    lfshook; here they appear only as the configuration handed to them. */
module Hlog {
  import opened Results

  newtype uint32 = x: int | 0 <= x < 0x1_0000_0000
  /** Go's `time.Duration`: a signed 64-bit count of nanoseconds. */
  newtype int64 = x: int | -0x8000_0000_0000_0000 <= x < 0x8000_0000_0000_0000

  const DefaultFileNameDateFormat: string := "%Y%m%d"
  const DefaultTimestampFormat: string := "2006-01-02 15:04:05"
  const Text: string := "text"
  const JSON: string := "json"
  /** Declared by the package as the data key of JSON entries, but never
      read by the constructors: an empty `JSONDataKey` leaves logrus' own
      empty default in place. */
  const DataKey: string := "data"

  const AbsPathError: string := "LogPath please use absolute path: "
  const RotateErrorPrefix: string := "rotatelogs.New error: "

  // ---------------------------------------------------------------- levels

  datatype Level = PanicLevel | FatalLevel | ErrorLevel | WarnLevel | InfoLevel | DebugLevel

  /** The `iota` numbering of the level constants. */
  function Number(l: Level): (n: uint32)
    ensures n < 6
  {
    match l
    case PanicLevel => 0
    case FatalLevel => 1
    case ErrorLevel => 2
    case WarnLevel => 3
    case InfoLevel => 4
    case DebugLevel => 5
  }

  /** The named level with number `n`: the inverse of `Number`. */
  function LevelOf(n: uint32): (l: Level)
    requires n < 6
    ensures Number(l) == n
  {
    if n == 0 then PanicLevel
    else if n == 1 then FatalLevel
    else if n == 2 then ErrorLevel
    else if n == 3 then WarnLevel
    else if n == 4 then InfoLevel
    else DebugLevel
  }

  lemma NumberRoundTrip(l: Level)
    ensures LevelOf(Number(l)) == l
  {
  }

  /** The suffix the separate-file constructor gives each level's files;
      the suffix of each level is pinned by the `Logger` method ensures. */
  function Name(l: Level): (s: string)
    ensures |s| > 0
  {
    match l
    case DebugLevel => "debug"
    case InfoLevel => "info"
    case WarnLevel => "warn"
    case ErrorLevel => "error"
    case FatalLevel => "fatal"
    case PanicLevel => "panic"
  }

  /** No two level names start with the same letter, so no level's file
      name can be mistaken for another's. */
  lemma NamesDiffer(l1: Level, l2: Level)
    requires l1 != l2
    ensures Name(l1)[0] != Name(l2)[0]
  {
  }

  /** The order in which the separate-file constructor opens the writers. */
  const CreationOrder: seq<Level> :=
    [DebugLevel, InfoLevel, WarnLevel, ErrorLevel, FatalLevel, PanicLevel]

  const AllLevels: set<Level> :=
    {PanicLevel, FatalLevel, ErrorLevel, WarnLevel, InfoLevel, DebugLevel}

  lemma CreationOrderOpensEachLevelOnce(l: Level)
    ensures l in CreationOrder && l in AllLevels
    ensures forall i, j :: 0 <= i < j < |CreationOrder| ==> CreationOrder[i] != CreationOrder[j]
  {
  }

  // ------------------------------------------------------ data of the model

  /** Go's `D`: the data fields of one entry. Values are opaque here. */
  type Fields = map<string, string>

  datatype Option = Option(
    logPath: string,
    logType: string,
    fileNameDateFormat: string,
    timestampFormat: string,
    logLevel: uint32,
    maxAge: int64,
    rotationTime: int64,
    reportCaller: bool,
    jsonPrettyPrint: bool,
    jsonDataKey: string)

  /** logrus' two formatters, with the fields the package sets. */
  datatype Formatter =
    | TextFormatter(timestampFormat: string)
    | JsonFormatter(timestampFormat: string, prettyPrint: bool, dataKey: string)

  /** Where logrus itself writes a formatted entry (hooks aside). */
  datatype Output = Stderr | Discard

  /** The options handed to `rotatelogs.New`; a writer is identified by them. */
  datatype Sink = Sink(pattern: string, linkName: string, maxAge: int64, rotationTime: int64)

  /** The lfshook hook: a level-to-writer map and the formatter it renders with. */
  datatype LfsHook = LfsHook(writers: map<Level, Sink>, formatter: Formatter)

  datatype LogrusLogger = LogrusLogger(
    output: Output,
    reportCaller: bool,
    level: uint32,
    formatter: Formatter,
    hooks: seq<LfsHook>)

  /** The fields of `logrus.New()` that the package overwrites or extends. */
  const LogrusNew: LogrusLogger := LogrusLogger(Stderr, false, 4, TextFormatter(""), [])

  /** An entry handed to logrus by one of the `Logger` methods. */
  datatype Entry = Entry(level: Level, data: Fields, message: string)

  /** What `newLogger` decides: the two package-wide formats and the logrus logger. */
  datatype Resolved = Resolved(dateFormat: string, timestampFormat: string, logrus: LogrusLogger)

  /** The steps outside the package: `makeDirAll` (util.go) and `rotatelogs.New`,
      each either succeeding or returning an error. */
  datatype Env = Env(makeDirAll: string -> Outcome, rotatelogsNew: Sink -> Outcome)

  datatype Logger = Logger(logrus: LogrusLogger) {

    /** The writers lfshook sends an entry of level `l` to. */
    function Targets(l: Level): set<Sink> {
      set h | h in logrus.hooks && l in h.writers :: h.writers[l]
    }

    function Debug(dataFields: Fields, message: string): (e: Entry)
      ensures Number(e.level) == 5 && Name(e.level) == "debug"
      ensures e.data == dataFields && e.message == message
    {
      Entry(DebugLevel, dataFields, message)
    }

    function Info(dataFields: Fields, message: string): (e: Entry)
      ensures Number(e.level) == 4 && Name(e.level) == "info"
      ensures e.data == dataFields && e.message == message
    {
      Entry(InfoLevel, dataFields, message)
    }

    function Warn(dataFields: Fields, message: string): (e: Entry)
      ensures Number(e.level) == 3 && Name(e.level) == "warn"
      ensures e.data == dataFields && e.message == message
    {
      Entry(WarnLevel, dataFields, message)
    }

    function Error(dataFields: Fields, message: string): (e: Entry)
      ensures Number(e.level) == 2 && Name(e.level) == "error"
      ensures e.data == dataFields && e.message == message
    {
      Entry(ErrorLevel, dataFields, message)
    }

    function Fatal(dataFields: Fields, message: string): (e: Entry)
      ensures Number(e.level) == 1 && Name(e.level) == "fatal"
      ensures e.data == dataFields && e.message == message
    {
      Entry(FatalLevel, dataFields, message)
    }

    function Panic(dataFields: Fields, message: string): (e: Entry)
      ensures Number(e.level) == 0 && Name(e.level) == "panic"
      ensures e.data == dataFields && e.message == message
    {
      Entry(PanicLevel, dataFields, message)
    }
  }

  // ------------------------------------------------------ option resolution

  /** Go's `path.IsAbs`: the path starts with a slash. */
  predicate IsAbs(p: string) {
    |p| > 0 && p[0] == '/'
  }

  /** Extending an absolute path keeps it absolute. */
  lemma AbsExtends(p: string, s: string)
    requires IsAbs(p)
    ensures IsAbs(p + s)
  {
    assert (p + s)[0] == p[0];
  }

  function DateFormatOf(option: Option): (f: string)
    ensures f != ""
    ensures option.fileNameDateFormat != "" ==> f == option.fileNameDateFormat
    ensures option.fileNameDateFormat == "" ==> f == DefaultFileNameDateFormat
  {
    if option.fileNameDateFormat == "" then DefaultFileNameDateFormat else option.fileNameDateFormat
  }

  function TimestampFormatOf(option: Option): (f: string)
    ensures f != ""
    ensures option.timestampFormat != "" ==> f == option.timestampFormat
    ensures option.timestampFormat == "" ==> f == DefaultTimestampFormat
  {
    if option.timestampFormat == "" then DefaultTimestampFormat else option.timestampFormat
  }

  /** Feeding the resolved formats back as options changes nothing. */
  lemma FormatsIdempotent(option: Option)
    ensures DateFormatOf(option.(fileNameDateFormat := DateFormatOf(option))) == DateFormatOf(option)
    ensures TimestampFormatOf(option.(timestampFormat := TimestampFormatOf(option))) == TimestampFormatOf(option)
  {
  }

  /** The formatter chosen by `LogType`: JSON only for exactly "json". */
  function FormatterOf(option: Option, timestampFormat: string): (f: Formatter)
    ensures f.JsonFormatter? <==> option.logType == JSON
    ensures f.timestampFormat == timestampFormat
    ensures f.JsonFormatter? ==> f.prettyPrint == option.jsonPrettyPrint
  {
    if option.logType == JSON then
      var format := JsonFormatter(timestampFormat, option.jsonPrettyPrint, "");
      if option.jsonDataKey != "" then format.(dataKey := option.jsonDataKey) else format
    else
      TextFormatter(timestampFormat)
  }

  /** The override of the data key is guarded by `JSONDataKey != ""`, but
      logrus' default is empty too, so the data key is always `JSONDataKey`. */
  lemma DataKeyIsOptionKey(option: Option, timestampFormat: string)
    requires option.logType == JSON
    ensures FormatterOf(option, timestampFormat).dataKey == option.jsonDataKey
  {
  }

  /** `newLogger`: directory step, absolute-path check, then the formats,
      the threshold and the formatter. */
  function Resolve(option: Option, env: Env): (r: Result<Resolved>)
    ensures r.Ok? <==> env.makeDirAll(option.logPath).Pass? && IsAbs(option.logPath)
    ensures env.makeDirAll(option.logPath).Fail? ==> r == Err(env.makeDirAll(option.logPath).error)
    ensures env.makeDirAll(option.logPath).Pass? && !IsAbs(option.logPath) ==>
              r == Err(AbsPathError + option.logPath)
    ensures r.Ok? ==>
              && r.value.dateFormat == DateFormatOf(option)
              && r.value.timestampFormat == TimestampFormatOf(option)
              && r.value.logrus.output == Discard
              && r.value.logrus.reportCaller == option.reportCaller
              && r.value.logrus.level == option.logLevel
              && r.value.logrus.formatter == FormatterOf(option, TimestampFormatOf(option))
              && r.value.logrus.hooks == []
  {
    match env.makeDirAll(option.logPath)
    case Fail(e) => Err(e)
    case Pass =>
      if !IsAbs(option.logPath) then Err(AbsPathError + option.logPath)
      else
        var ts := TimestampFormatOf(option);
        Ok(Resolved(DateFormatOf(option), ts,
                    LogrusNew.(output := Discard, reportCaller := option.reportCaller,
                               level := option.logLevel, formatter := FormatterOf(option, ts))))
  }

  /** A relative path is refused only after the directory step succeeded;
      the directory step's own error wins over it. */
  lemma RelativePathRefused(option: Option, env: Env)
    requires !IsAbs(option.logPath)
    ensures Resolve(option, env).Err?
    ensures Resolve(option, env).error ==
              if env.makeDirAll(option.logPath).Fail? then env.makeDirAll(option.logPath).error
              else AbsPathError + option.logPath
  {
  }

  // ------------------------------------------------------------ sink naming

  /** The single writer of `New`: files `<path>-<date>`, link `<path>`. */
  function SharedSink(option: Option, dateFormat: string): (w: Sink)
    ensures w.linkName == option.logPath
    ensures w.maxAge == option.maxAge && w.rotationTime == option.rotationTime
  {
    Sink(option.logPath + "-" + dateFormat, option.logPath, option.maxAge, option.rotationTime)
  }

  /** The shared file pattern splits back into `LogPath`, a dash and the date format. */
  lemma SharedPatternParts(option: Option, dateFormat: string)
    ensures var w := SharedSink(option, dateFormat);
            && |w.pattern| == |option.logPath| + 1 + |dateFormat|
            && w.pattern[..|option.logPath|] == option.logPath
            && w.pattern[|option.logPath|] == '-'
            && w.pattern[|option.logPath| + 1..] == dateFormat
  {
  }

  /** `newRotatelog`'s writer for one level name: link `<path>.<level>`,
      files `<path>.<level>.<date>`. */
  function SeparateSink(option: Option, dateFormat: string, levelStr: string): (w: Sink)
    ensures w.maxAge == option.maxAge && w.rotationTime == option.rotationTime
  {
    var filename := option.logPath + "." + levelStr;
    Sink(filename + "." + dateFormat, filename, option.maxAge, option.rotationTime)
  }

  /** A per-level link name splits back into `LogPath`, a dot and the level name. */
  lemma SeparateLinkParts(option: Option, dateFormat: string, levelStr: string)
    ensures var w := SeparateSink(option, dateFormat, levelStr);
            && |w.linkName| == |option.logPath| + 1 + |levelStr|
            && w.linkName[..|option.logPath|] == option.logPath
            && w.linkName[|option.logPath|] == '.'
            && w.linkName[|option.logPath| + 1..] == levelStr
            && w.pattern == w.linkName + "." + dateFormat
  {
  }

  /** Distinct levels get distinct link names and distinct file patterns. */
  lemma SeparateSinksDiffer(option: Option, dateFormat: string, l1: Level, l2: Level)
    requires l1 != l2
    ensures SeparateSink(option, dateFormat, Name(l1)).linkName != SeparateSink(option, dateFormat, Name(l2)).linkName
    ensures SeparateSink(option, dateFormat, Name(l1)).pattern != SeparateSink(option, dateFormat, Name(l2)).pattern
  {
    var w1 := SeparateSink(option, dateFormat, Name(l1));
    var w2 := SeparateSink(option, dateFormat, Name(l2));
    var k := |option.logPath| + 1;
    NamesDiffer(l1, l2);
    SeparateLinkParts(option, dateFormat, Name(l1));
    SeparateLinkParts(option, dateFormat, Name(l2));
    assert w1.pattern == w1.linkName + "." + dateFormat;
    assert w1.linkName[k] == Name(l1)[0];
    assert w2.linkName[k] == Name(l2)[0];
    assert w1.pattern[k] == w1.linkName[k];
    assert w2.pattern[k] == w2.linkName[k];
  }

  /** Every name built from an absolute `LogPath` is absolute. */
  lemma SinksAbsolute(option: Option, dateFormat: string, levelStr: string)
    requires IsAbs(option.logPath)
    ensures IsAbs(SharedSink(option, dateFormat).pattern) && IsAbs(SharedSink(option, dateFormat).linkName)
    ensures IsAbs(SeparateSink(option, dateFormat, levelStr).pattern)
    ensures IsAbs(SeparateSink(option, dateFormat, levelStr).linkName)
  {
    AbsExtends(option.logPath, "-" + dateFormat);
    assert SharedSink(option, dateFormat).pattern == option.logPath + ("-" + dateFormat);
    AbsExtends(option.logPath, "." + levelStr);
    AbsExtends(option.logPath, "." + levelStr + "." + dateFormat);
    assert SeparateSink(option, dateFormat, levelStr).pattern == option.logPath + ("." + levelStr + "." + dateFormat);
  }

  // ---------------------------------------------------------- routing tables

  /** `New`'s writer map: every level to the one writer. */
  function SharedWriterMap(w: Sink): (m: map<Level, Sink>)
    ensures m.Keys == AllLevels
    ensures forall l :: l in m ==> m[l] == w
  {
    map[DebugLevel := w, InfoLevel := w, WarnLevel := w,
        ErrorLevel := w, FatalLevel := w, PanicLevel := w]
  }

  /** `NewSeparate`'s writer map: each level to the writer named after it. */
  function SeparateWriterMap(option: Option, dateFormat: string): (m: map<Level, Sink>)
    ensures m.Keys == AllLevels
    ensures forall l :: l in m ==> m[l] == SeparateSink(option, dateFormat, Name(l))
    ensures forall l :: l in m ==> m[l].linkName == option.logPath + "." + Name(l)
    ensures forall l1, l2 :: l1 in m && l2 in m && l1 != l2 ==> m[l1] != m[l2]
  {
    var m := map[DebugLevel := SeparateSink(option, dateFormat, "debug"),
                 InfoLevel := SeparateSink(option, dateFormat, "info"),
                 WarnLevel := SeparateSink(option, dateFormat, "warn"),
                 ErrorLevel := SeparateSink(option, dateFormat, "error"),
                 FatalLevel := SeparateSink(option, dateFormat, "fatal"),
                 PanicLevel := SeparateSink(option, dateFormat, "panic")];
    assert forall l :: l in m ==> m[l] == SeparateSink(option, dateFormat, Name(l));
    forall l1, l2 | l1 in m && l2 in m && l1 != l2
      ensures m[l1] != m[l2]
    {
      SeparateSinksDiffer(option, dateFormat, l1, l2);
    }
    m
  }

  // ------------------------------------------------------------ construction

  /** `newRotatelog`: build the level's writer, prefixing a failure. */
  function Rotatelog(option: Option, dateFormat: string, levelStr: string, env: Env): (r: Result<Sink>)
    ensures r.Ok? <==> env.rotatelogsNew(SeparateSink(option, dateFormat, levelStr)).Pass?
    ensures r.Ok? ==> r.value == SeparateSink(option, dateFormat, levelStr)
    ensures r.Err? ==>
              r.error == RotateErrorPrefix + env.rotatelogsNew(SeparateSink(option, dateFormat, levelStr)).error
  {
    var w := SeparateSink(option, dateFormat, levelStr);
    match env.rotatelogsNew(w)
    case Fail(e) => Err(RotateErrorPrefix + e)
    case Pass => Ok(w)
  }

  /** Whether the writer of level `l` can be opened. */
  predicate Opens(option: Option, dateFormat: string, l: Level, env: Env) {
    Rotatelog(option, dateFormat, Name(l), env).Ok?
  }

  /** Open the writers of `levels` in order, stopping at the first failure. */
  function CreateInOrder(option: Option, dateFormat: string, levels: seq<Level>, env: Env): (r: Outcome)
    ensures r.Pass? <==> forall i :: 0 <= i < |levels| ==> Opens(option, dateFormat, levels[i], env)
    decreases |levels|
  {
    if levels == [] then Pass
    else
      match Rotatelog(option, dateFormat, Name(levels[0]), env)
      case Err(e) => Fail(e)
      case Ok(_) =>
        assert forall i :: 1 <= i < |levels| ==> levels[i] == levels[1..][i - 1];
        CreateInOrder(option, dateFormat, levels[1..], env)
  }

  /** The one hook `New` installs: every level to the shared writer,
      rendered with the logger's own formatter. */
  predicate HasSharedHook(option: Option, lg: Logger) {
    lg.logrus.hooks == [LfsHook(SharedWriterMap(SharedSink(option, DateFormatOf(option))), lg.logrus.formatter)]
  }

  /** The one hook `NewSeparate` installs: each level to its own writer,
      rendered with the logger's own formatter. */
  predicate HasSeparateHook(option: Option, lg: Logger) {
    lg.logrus.hooks == [LfsHook(SeparateWriterMap(option, DateFormatOf(option)), lg.logrus.formatter)]
  }

  /** `New`: one writer for all levels. */
  function SharedLogger(option: Option, env: Env): (r: Result<Logger>)
    ensures Resolve(option, env).Err? ==> r == Err(Resolve(option, env).error)
    ensures Resolve(option, env).Ok? ==>
              var w := SharedSink(option, DateFormatOf(option));
              && (env.rotatelogsNew(w).Fail? ==> r == Err(env.rotatelogsNew(w).error))
              && (env.rotatelogsNew(w).Pass? ==> r.Ok?)
    ensures r.Ok? ==>
              var base := Resolve(option, env).value.logrus;
              && IsAbs(option.logPath)
              && r.value.logrus == base.(hooks := r.value.logrus.hooks)
              && HasSharedHook(option, r.value)
  {
    match Resolve(option, env)
    case Err(e) => Err(e)
    case Ok(s) =>
      var w := SharedSink(option, s.dateFormat);
      match env.rotatelogsNew(w)
      case Fail(e) => Err(e)
      case Pass =>
        Ok(Logger(s.logrus.(hooks := s.logrus.hooks + [LfsHook(SharedWriterMap(w), s.logrus.formatter)])))
  }

  /** The writers of `NewSeparate`, opened in `CreationOrder`: the first
      failure is the error, otherwise each level maps to its own writer. */
  function LevelWriters(option: Option, dateFormat: string, env: Env): (r: Result<map<Level, Sink>>)
    ensures r.Ok? <==> CreateInOrder(option, dateFormat, CreationOrder, env).Pass?
    ensures r.Err? ==> r == Err(CreateInOrder(option, dateFormat, CreationOrder, env).error)
    ensures r.Ok? ==> r.value.Keys == AllLevels
    ensures r.Ok? ==> forall l :: l in r.value ==> r.value[l] == SeparateSink(option, dateFormat, Name(l))
  {
    match CreateInOrder(option, dateFormat, CreationOrder, env)
    case Fail(e) => Err(e)
    case Pass => Ok(SeparateWriterMap(option, dateFormat))
  }

  /** `NewSeparate`: one writer per level. */
  function SeparateLogger(option: Option, env: Env): (r: Result<Logger>)
    ensures Resolve(option, env).Err? ==> r == Err(Resolve(option, env).error)
    ensures Resolve(option, env).Ok? ==>
              var ws := LevelWriters(option, DateFormatOf(option), env);
              && (ws.Err? ==> r == Err(ws.error))
              && (ws.Ok? ==> r.Ok?)
    ensures r.Ok? ==>
              var base := Resolve(option, env).value.logrus;
              && IsAbs(option.logPath)
              && r.value.logrus == base.(hooks := r.value.logrus.hooks)
              && HasSeparateHook(option, r.value)
  {
    match Resolve(option, env)
    case Err(e) => Err(e)
    case Ok(s) =>
      match LevelWriters(option, s.dateFormat, env)
      case Err(e) => Err(e)
      case Ok(writers) =>
        Ok(Logger(s.logrus.(hooks := s.logrus.hooks + [LfsHook(writers, s.logrus.formatter)])))
  }

  /** A failed `CreateInOrder` reports, prefixed, the error of the first
      level in order whose writer could not be opened. */
  lemma {:induction false} CreateInOrderFailure(option: Option, dateFormat: string, levels: seq<Level>, env: Env, e: string)
    requires CreateInOrder(option, dateFormat, levels, env) == Fail(e)
    ensures exists i :: 0 <= i < |levels|
              && (forall j :: 0 <= j < i ==> Opens(option, dateFormat, levels[j], env))
              && env.rotatelogsNew(SeparateSink(option, dateFormat, Name(levels[i]))).Fail?
              && e == RotateErrorPrefix + env.rotatelogsNew(SeparateSink(option, dateFormat, Name(levels[i]))).error
    decreases |levels|
  {
    var first := Rotatelog(option, dateFormat, Name(levels[0]), env);
    if first.Err? {
      assert e == first.error;
    } else {
      var rest := levels[1..];
      CreateInOrderFailure(option, dateFormat, rest, env, e);
      var i :| 0 <= i < |rest|
               && (forall j :: 0 <= j < i ==> Opens(option, dateFormat, rest[j], env))
               && env.rotatelogsNew(SeparateSink(option, dateFormat, Name(rest[i]))).Fail?
               && e == RotateErrorPrefix + env.rotatelogsNew(SeparateSink(option, dateFormat, Name(rest[i]))).error;
      assert levels[i + 1] == rest[i];
      assert forall j :: 1 <= j < i + 1 ==> levels[j] == rest[j - 1];
    }
  }

  /** Conversely, the first level in order that fails decides the error. */
  lemma {:induction false} CreateInOrderStopsAt(option: Option, dateFormat: string, levels: seq<Level>, env: Env, k: nat)
    requires k < |levels|
    requires forall j :: 0 <= j < k ==> Opens(option, dateFormat, levels[j], env)
    requires !Opens(option, dateFormat, levels[k], env)
    ensures CreateInOrder(option, dateFormat, levels, env) == Fail(Rotatelog(option, dateFormat, Name(levels[k]), env).error)
    decreases k
  {
    if k > 0 {
      assert Opens(option, dateFormat, levels[0], env);
      assert forall j :: 0 <= j < k - 1 ==> levels[1..][j] == levels[j + 1];
      CreateInOrderStopsAt(option, dateFormat, levels[1..], env, k - 1);
    }
  }

  /** One step of `CreateInOrder`: the first level either fails, deciding
      the outcome, or opens and the rest decide. */
  lemma CreateInOrderStep(option: Option, dateFormat: string, levels: seq<Level>, env: Env)
    requires levels != []
    ensures CreateInOrder(option, dateFormat, levels, env) ==
              if Opens(option, dateFormat, levels[0], env) then CreateInOrder(option, dateFormat, levels[1..], env)
              else Fail(Rotatelog(option, dateFormat, Name(levels[0]), env).error)
  {
  }

  /** `NewSeparate` fails with the prefixed error of the first writer, in
      creation order, that cannot be opened, whatever the later ones would do. */
  lemma SeparateLoggerStopsAt(option: Option, env: Env, k: nat)
    requires Resolve(option, env).Ok? && k < |CreationOrder|
    requires forall j :: 0 <= j < k ==> Opens(option, DateFormatOf(option), CreationOrder[j], env)
    requires !Opens(option, DateFormatOf(option), CreationOrder[k], env)
    ensures SeparateLogger(option, env) ==
              Err(RotateErrorPrefix + env.rotatelogsNew(SeparateSink(option, DateFormatOf(option), Name(CreationOrder[k]))).error)
  {
    CreateInOrderStopsAt(option, DateFormatOf(option), CreationOrder, env, k);
  }

  /** Conversely, a resolved option whose six writers all open yields a
      separate-file logger. */
  lemma SeparateLoggerSucceeds(option: Option, env: Env)
    requires Resolve(option, env).Ok?
    requires forall l :: Opens(option, DateFormatOf(option), l, env)
    ensures SeparateLogger(option, env).Ok?
  {
    assert forall i :: 0 <= i < |CreationOrder| ==> Opens(option, DateFormatOf(option), CreationOrder[i], env);
  }

  /** A writer failure in `NewSeparate` carries the level prefix and names
      the first level, in creation order, whose writer could not be opened. */
  lemma SeparateFailureIsFirstInOrder(option: Option, env: Env, e: string)
    requires Resolve(option, env).Ok?
    requires SeparateLogger(option, env) == Err(e)
    ensures exists i :: 0 <= i < |CreationOrder|
              && (forall j :: 0 <= j < i ==> Opens(option, DateFormatOf(option), CreationOrder[j], env))
              && env.rotatelogsNew(SeparateSink(option, DateFormatOf(option), Name(CreationOrder[i]))).Fail?
              && e == RotateErrorPrefix + env.rotatelogsNew(SeparateSink(option, DateFormatOf(option), Name(CreationOrder[i]))).error
  {
    assert LevelWriters(option, DateFormatOf(option), env) == Err(e);
    CreateInOrderFailure(option, DateFormatOf(option), CreationOrder, env, e);
  }

  // ------------------------------------------------------------------ routing

  /** A logger with one hook sends level `l` to that hook's writer for `l`. */
  lemma TargetsOfOneHook(lg: Logger, h: LfsHook, l: Level)
    requires lg.logrus.hooks == [h] && l in h.writers
    ensures lg.Targets(l) == {h.writers[l]}
  {
    assert h in lg.logrus.hooks;
  }

  /** In `New`, every level is written to the same single writer. */
  lemma SharedRoutesEveryLevelToOneFile(option: Option, lg: Logger, l: Level)
    requires HasSharedHook(option, lg)
    ensures lg.Targets(l) == {SharedSink(option, DateFormatOf(option))}
  {
    assert l in AllLevels;
    TargetsOfOneHook(lg, lg.logrus.hooks[0], l);
  }

  /** In `NewSeparate`, level `l` is written only to the writer named after it. */
  lemma SeparateRoutesEachLevelToItsFile(option: Option, lg: Logger, l: Level)
    requires HasSeparateHook(option, lg)
    ensures lg.Targets(l) == {SeparateSink(option, DateFormatOf(option), Name(l))}
  {
    var h := lg.logrus.hooks[0];
    assert lg.logrus.hooks == [h];
    assert h.writers == SeparateWriterMap(option, DateFormatOf(option));
    assert l in AllLevels;
    TargetsOfOneHook(lg, h, l);
  }

  /** In `NewSeparate`, two levels never share a file: what one level
      writes never reaches another level's file. */
  lemma SeparateLevelsNeverShareFiles(option: Option, lg: Logger, l1: Level, l2: Level, w1: Sink, w2: Sink)
    requires HasSeparateHook(option, lg)
    requires l1 != l2 && w1 in lg.Targets(l1) && w2 in lg.Targets(l2)
    ensures w1.linkName != w2.linkName && w1.pattern != w2.pattern
  {
    SeparateRoutesEachLevelToItsFile(option, lg, l1);
    SeparateRoutesEachLevelToItsFile(option, lg, l2);
    SeparateSinksDiffer(option, DateFormatOf(option), l1, l2);
  }

  /** Each `Logger` method of a separate-file logger reaches exactly the file
      `<path>.<method name>`; in particular a warning is never written to
      the error file. */
  lemma SeparateDispatch(option: Option, lg: Logger, d: Fields, m: string)
    requires HasSeparateHook(option, lg)
    ensures var f := DateFormatOf(option);
            && lg.Targets(lg.Debug(d, m).level) == {SeparateSink(option, f, "debug")}
            && lg.Targets(lg.Info(d, m).level) == {SeparateSink(option, f, "info")}
            && lg.Targets(lg.Warn(d, m).level) == {SeparateSink(option, f, "warn")}
            && lg.Targets(lg.Error(d, m).level) == {SeparateSink(option, f, "error")}
            && lg.Targets(lg.Fatal(d, m).level) == {SeparateSink(option, f, "fatal")}
            && lg.Targets(lg.Panic(d, m).level) == {SeparateSink(option, f, "panic")}
    ensures forall w :: w in lg.Targets(lg.Warn(d, m).level) ==> w.linkName != option.logPath + ".error"
  {
    SeparateRoutesEachLevelToItsFile(option, lg, DebugLevel);
    SeparateRoutesEachLevelToItsFile(option, lg, InfoLevel);
    SeparateRoutesEachLevelToItsFile(option, lg, WarnLevel);
    SeparateRoutesEachLevelToItsFile(option, lg, ErrorLevel);
    SeparateRoutesEachLevelToItsFile(option, lg, FatalLevel);
    SeparateRoutesEachLevelToItsFile(option, lg, PanicLevel);
    SeparateSinksDiffer(option, DateFormatOf(option), WarnLevel, ErrorLevel);
  }

  /** Constructed from an absolute `LogPath`, every file and link a logger
      writes is absolute, in both topologies. */
  lemma LoggersWriteAbsolutePaths(option: Option, lg: Logger, separate: bool, l: Level)
    requires IsAbs(option.logPath)
    requires if separate then HasSeparateHook(option, lg) else HasSharedHook(option, lg)
    ensures forall w :: w in lg.Targets(l) ==> IsAbs(w.pattern) && IsAbs(w.linkName)
  {
    if separate {
      SeparateRoutesEachLevelToItsFile(option, lg, l);
    } else {
      SharedRoutesEveryLevelToOneFile(option, lg, l);
    }
    SinksAbsolute(option, DateFormatOf(option), Name(l));
  }
}
