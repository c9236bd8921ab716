/** The package-level state of hlog and the constructors that overwrite it.
    `Package` holds the three package variables; `NewLogger`, `New`,
    `NewRotatelog` and `NewSeparate` follow the Go constructors step by step
    and are proved equal to the functions of module Hlog that specify them. */
module HlogPackage {
  import opened Results
  import opened Hlog

  class Package {
    /** The last logger a constructor returned; nil until one succeeds. */
    var logger: Ref<Logger>
    /** The date format of rotated file names, set by every `newLogger` that
        gets past its checks. */
    var fileNameDateFormat: string
    /** The timestamp format of entries, set alongside `fileNameDateFormat`. */
    var timestampFormat: string

    /** The package before any constructor has run: Go's zero values. */
    constructor ()
      ensures logger == Nil && fileNameDateFormat == "" && timestampFormat == ""
    {
      logger := Nil;
      fileNameDateFormat := "";
      timestampFormat := "";
    }

    function GetLogger(): Ref<Logger>
      reads this
    {
      logger
    }

    /** `newLogger`: check the directory and the path, then overwrite the two
        format variables and configure a fresh logrus logger. */
    method NewLogger(option: Option, env: Env) returns (r: Result<LogrusLogger>)
      modifies this`fileNameDateFormat, this`timestampFormat
      ensures Resolve(option, env).Ok? ==>
                && r == Ok(Resolve(option, env).value.logrus)
                && fileNameDateFormat == DateFormatOf(option)
                && timestampFormat == TimestampFormatOf(option)
      ensures Resolve(option, env).Err? ==>
                && r == Err(Resolve(option, env).error)
                && fileNameDateFormat == old(fileNameDateFormat)
                && timestampFormat == old(timestampFormat)
    {
      var dir := env.makeDirAll(option.logPath);
      if dir.Fail? {
        return Err(dir.error);
      }
      if !IsAbs(option.logPath) {
        return Err(AbsPathError + option.logPath);
      }

      if option.fileNameDateFormat == "" {
        fileNameDateFormat := DefaultFileNameDateFormat;
      } else {
        fileNameDateFormat := option.fileNameDateFormat;
      }
      if option.timestampFormat == "" {
        timestampFormat := DefaultTimestampFormat;
      } else {
        timestampFormat := option.timestampFormat;
      }

      var logrusLogger := LogrusNew;
      logrusLogger := logrusLogger.(output := Discard);
      logrusLogger := logrusLogger.(reportCaller := option.reportCaller);
      logrusLogger := logrusLogger.(level := option.logLevel);
      if option.logType == JSON {
        var format := JsonFormatter(timestampFormat, option.jsonPrettyPrint, "");
        if option.jsonDataKey != "" {
          format := format.(dataKey := option.jsonDataKey);
        }
        logrusLogger := logrusLogger.(formatter := format);
      } else {
        logrusLogger := logrusLogger.(formatter := TextFormatter(timestampFormat));
      }
      return Ok(logrusLogger);
    }

    /** `New`: all levels to one rotating writer. On success the package
        logger is the returned one; on failure it is untouched, though the
        formats stay overwritten if the writer step was reached. */
    method New(option: Option, env: Env) returns (r: Result<Logger>)
      modifies this
      ensures r == SharedLogger(option, env)
      ensures Resolve(option, env).Ok? ==>
                fileNameDateFormat == DateFormatOf(option) && timestampFormat == TimestampFormatOf(option)
      ensures Resolve(option, env).Err? ==>
                fileNameDateFormat == old(fileNameDateFormat) && timestampFormat == old(timestampFormat)
      ensures logger == if r.Ok? then Ref(r.value) else old(logger)
    {
      var created := NewLogger(option, env);
      if created.Err? {
        return Err(created.error);
      }
      var logrusLogger := created.value;

      var writer := Sink(option.logPath + "-" + fileNameDateFormat, option.logPath,
                         option.maxAge, option.rotationTime);
      var status := env.rotatelogsNew(writer);
      if status.Fail? {
        return Err(status.error);
      }

      var fileHook := LfsHook(map[DebugLevel := writer, InfoLevel := writer, WarnLevel := writer,
                                  ErrorLevel := writer, FatalLevel := writer, PanicLevel := writer],
                              logrusLogger.formatter);
      logrusLogger := logrusLogger.(hooks := logrusLogger.hooks + [fileHook]);

      logger := Ref(Logger(logrusLogger));
      return Ok(Logger(logrusLogger));
    }

    /** `newRotatelog`: the writer of one level, named with the package's
        current date format. */
    method NewRotatelog(option: Option, levelStr: string, env: Env) returns (r: Result<Sink>)
      ensures r == Rotatelog(option, fileNameDateFormat, levelStr, env)
    {
      var filename := option.logPath + "." + levelStr;
      var writer := Sink(filename + "." + fileNameDateFormat, filename, option.maxAge, option.rotationTime);
      var status := env.rotatelogsNew(writer);
      if status.Fail? {
        return Err(RotateErrorPrefix + status.error);
      }
      return Ok(writer);
    }

    /** The writer block of `NewSeparate`: one rotating writer per level,
        opened debug first and panic last, stopping at the first failure. */
    method NewLevelWriters(option: Option, env: Env) returns (r: Result<map<Level, Sink>>)
      ensures r == LevelWriters(option, fileNameDateFormat, env)
    {
      ghost var rest := CreationOrder;

      CreateInOrderStep(option, fileNameDateFormat, rest, env);
      var debugWriter := NewRotatelog(option, "debug", env);
      if debugWriter.Err? {
        return Err(debugWriter.error);
      }
      rest := rest[1..];

      CreateInOrderStep(option, fileNameDateFormat, rest, env);
      var infoWriter := NewRotatelog(option, "info", env);
      if infoWriter.Err? {
        return Err(infoWriter.error);
      }
      rest := rest[1..];

      CreateInOrderStep(option, fileNameDateFormat, rest, env);
      var warnWriter := NewRotatelog(option, "warn", env);
      if warnWriter.Err? {
        return Err(warnWriter.error);
      }
      rest := rest[1..];

      CreateInOrderStep(option, fileNameDateFormat, rest, env);
      var errorWriter := NewRotatelog(option, "error", env);
      if errorWriter.Err? {
        return Err(errorWriter.error);
      }
      rest := rest[1..];

      CreateInOrderStep(option, fileNameDateFormat, rest, env);
      var fatalWriter := NewRotatelog(option, "fatal", env);
      if fatalWriter.Err? {
        return Err(fatalWriter.error);
      }
      rest := rest[1..];

      CreateInOrderStep(option, fileNameDateFormat, rest, env);
      var panicWriter := NewRotatelog(option, "panic", env);
      if panicWriter.Err? {
        return Err(panicWriter.error);
      }
      rest := rest[1..];

      return Ok(map[DebugLevel := debugWriter.value, InfoLevel := infoWriter.value,
                    WarnLevel := warnWriter.value, ErrorLevel := errorWriter.value,
                    FatalLevel := fatalWriter.value, PanicLevel := panicWriter.value]);
    }

    /** `NewSeparate`: one rotating writer per level; on success the package
        logger is the returned one, on failure it is untouched. */
    method NewSeparate(option: Option, env: Env) returns (r: Result<Logger>)
      modifies this
      ensures r == SeparateLogger(option, env)
      ensures Resolve(option, env).Ok? ==>
                fileNameDateFormat == DateFormatOf(option) && timestampFormat == TimestampFormatOf(option)
      ensures Resolve(option, env).Err? ==>
                fileNameDateFormat == old(fileNameDateFormat) && timestampFormat == old(timestampFormat)
      ensures logger == if r.Ok? then Ref(r.value) else old(logger)
    {
      var created := NewLogger(option, env);
      if created.Err? {
        return Err(created.error);
      }
      var logrusLogger := created.value;

      var writers := NewLevelWriters(option, env);
      if writers.Err? {
        return Err(writers.error);
      }

      var fileHook := LfsHook(writers.value, logrusLogger.formatter);
      logrusLogger := logrusLogger.(hooks := logrusLogger.hooks + [fileHook]);

      logger := Ref(Logger(logrusLogger));
      return Ok(Logger(logrusLogger));
    }
  }
}
