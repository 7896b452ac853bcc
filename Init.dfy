/**
 * LogPy.__init__ (LogPy.py:10-42): the two setters, resume, the logtype
 * table and the type checks of the stored format strings, run in the
 * source's order from a given value of the _enabled attribute. As written,
 * __init__ assigns _enabled only at its last line, so the first setter's
 * pause() reads an attribute that does not exist yet.
 */
module Init {
  import opened Wrappers
  import opened FileSystem
  import opened Lifecycle

  /** The keys of _logmethods: the four log types. */
  datatype LogType = Info | Warning | Error | Fatal

  function LogTypeName(t: LogType): string
  {
    match t
    case Info => "info"
    case Warning => "warning"
    case Error => "error"
    case Fatal => "fatal"
  }

  /**
   * `name in self._logmethods.keys()` and `self._logmethods[name]`: exactly
   * the four names are known, and each selects the log type of that name.
   */
  function LookupLogType(name: string): (r: Option<LogType>)
    ensures r.Some? <==> name in {"info", "warning", "error", "fatal"}
    ensures r.Some? ==> LogTypeName(r.value) == name
  {
    if name == "info" then Some(Info)
    else if name == "warning" then Some(Warning)
    else if name == "error" then Some(Error)
    else if name == "fatal" then Some(Fatal)
    else None
  }

  /** Every log type is found under its own name. */
  lemma LookupLogTypeName(t: LogType)
    ensures LookupLogType(LogTypeName(t)) == Some(t)
  {
  }

  /** The stored format strings: _timestamp, _logformat, _prefix, _postfix. */
  datatype Formats = Formats(timestamp: string, logformat: string, prefix: string, postfix: string)

  /**
   * The isinstance assertions on the format arguments, in source order
   * (timestamp, logformat, then prefix and postfix before either is stored).
   */
  function CheckFormats(timestamp: Value, logformat: Value, prefix: Value, postfix: Value): (r: Result<Formats, Exception>)
    ensures r.Success? <==> timestamp.Str? && logformat.Str? && prefix.Str? && postfix.Str?
    ensures r.Success? ==> r.value == Formats(timestamp.s, logformat.s, prefix.s, postfix.s)
    ensures r.Failure? ==> r.error.AssertionError? && r.error.check.IsStr?
    ensures !timestamp.Str? ==> r == Failure(AssertionError(IsStr("timestamp")))
  {
    if !timestamp.Str? then Failure(AssertionError(IsStr("timestamp")))
    else if !logformat.Str? then Failure(AssertionError(IsStr("logformat")))
    else if !prefix.Str? then Failure(AssertionError(IsStr("prefix")))
    else if !postfix.Str? then Failure(AssertionError(IsStr("postfix")))
    else Success(Formats(timestamp.s, logformat.s, prefix.s, postfix.s))
  }

  /** The arguments of LogPy(...). */
  datatype InitArgs = InitArgs(
    filename: Value, directory: Value, defLogtype: Value,
    timestamp: Value, logformat: Value, prefix: Value, postfix: Value)

  /** The defaults of LogPy(). */
  const DefaultArgs := InitArgs(
    Str("main.log"), Str(""), Str("info"),
    Str("%Y-%m-%d | %H:%M:%S.%f"), Str("[{timestamp}] {logtype}: {message}"), Str(""), Str(""))

  /** A fully constructed LogPy object: its lifecycle state, _logdef and the formats. */
  datatype Configured = Configured(state: LoggerState, logdef: LogType, formats: Formats)

  /** What construction yields (or raises), and the file system it leaves. */
  datatype InitOutcome = InitOutcome(result: Result<Configured, Exception>, fs: Fs)

  /**
   * The attributes of the object while __init__ runs. _enabled may not be
   * assigned yet (None), and reading it then raises AttributeError.
   * _directory, _filename and _path start as "" here; each is assigned
   * before anything reads it, so that value is never seen.
   */
  datatype Partial = Partial(enabled: Option<bool>, directory: string, filename: string, path: string)

  /** The object once _enabled exists: its lifecycle state. */
  function Complete(o: Partial): LoggerState
    requires o.enabled.Some?
  {
    LoggerState(o.enabled.value, o.directory, o.filename, o.path)
  }

  /** The attributes of an object whose lifecycle state is s. */
  function Attributes(s: LoggerState): (o: Partial)
    ensures o.enabled.Some? && Complete(o) == s
  {
    Partial(Some(s.enabled), s.directory, s.filename, s.path)
  }

  /** pause() on the object being built: `if self._enabled` raises while _enabled is unassigned. */
  function PauseAttr(o: Partial): (r: Result<Partial, Exception>)
    ensures r.Failure? <==> o.enabled.None?
    ensures r.Failure? ==> r.error == AttributeError("_enabled")
    ensures r.Success? ==> r.value == Attributes(Pause(Complete(o)))
  {
    match o.enabled
    case None => Failure(AttributeError("_enabled"))
    case Some(e) => Success(if e then o.(enabled := Some(false)) else o)
  }

  /** The filename setter on the object being built: pause(), the isinstance assertion, the commit. */
  function SetFilenameAttr(o: Partial, value: Value): (r: Result<Partial, Exception>)
    ensures o.enabled.None? ==> r == Failure(AttributeError("_enabled"))
    ensures r.Success? ==> r.value.enabled == Some(false)
  {
    var paused :- PauseAttr(o);
    if value.Str? then Success(paused.(filename := value.s))
    else Failure(AssertionError(IsStr("filename")))
  }

  /** The directory setter on the object being built. */
  function SetDirectoryAttr(o: Partial, value: Value): (r: Result<Partial, Exception>)
    ensures o.enabled.None? ==> r == Failure(AttributeError("_enabled"))
    ensures r.Success? ==> r.value.enabled == Some(false)
  {
    var paused :- PauseAttr(o);
    if value.Str? then Success(paused.(directory := value.s))
    else Failure(AssertionError(IsStr("directory")))
  }

  /** resume() on the object being built: `if not self._enabled` raises while _enabled is unassigned. */
  function ResumeAttr(o: Partial, fs: Fs): (r: Resumed)
    ensures o.enabled.None? ==> r == Resumed(LoggerState(false, o.directory, o.filename, o.path), fs, Some(AttributeError("_enabled")))
  {
    match o.enabled
    case None => Resumed(LoggerState(false, o.directory, o.filename, o.path), fs, Some(AttributeError("_enabled")))
    case Some(_) => Resume(Complete(o), fs)
  }

  /**
   * Once _enabled exists, the attribute-level pause and setters are the
   * lifecycle's own: same new state, same exception.
   */
  lemma AttributesAgree(s: LoggerState, value: Value, fs: Fs)
    ensures PauseAttr(Attributes(s)) == Success(Attributes(Pause(s)))
    ensures SetFilenameAttr(Attributes(s), value)
            == var r := SetFilename(s, value); if r.raised.None? then Success(Attributes(r.state)) else Failure(r.raised.value)
    ensures SetDirectoryAttr(Attributes(s), value)
            == var r := SetDirectory(s, value); if r.raised.None? then Success(Attributes(r.state)) else Failure(r.raised.value)
    ensures ResumeAttr(Attributes(s), fs) == Resume(s, fs)
  {
  }

  /**
   * The body of __init__ (LogPy.py:23-42) run from a given _enabled attribute:
   * None as written, Some(false) when _enabled is assigned first.
   */
  function RunInit(enabled: Option<bool>, args: InitArgs, fs: Fs): (r: InitOutcome)
    ensures FilesKept(fs, r.fs) && fs.dirs <= r.fs.dirs
    ensures r.result.Success? ==>
              && args.filename.Str? && args.directory.Str? && args.defLogtype.Str?
              && r.result.value.state
                 == LoggerState(true, args.directory.s, args.filename.s, PathOf(args.directory.s, args.filename.s))
              && Provisioned(r.result.value.state, r.fs)
              && LookupLogType(args.defLogtype.s) == Some(r.result.value.logdef)
              && CheckFormats(args.timestamp, args.logformat, args.prefix, args.postfix) == Success(r.result.value.formats)
  {
    var named := SetFilenameAttr(Partial(enabled, "", "", ""), args.filename);
    if named.Failure? then InitOutcome(Failure(named.error), fs)
    else
      var placed := SetDirectoryAttr(named.value, args.directory);
      if placed.Failure? then InitOutcome(Failure(placed.error), fs)
      else
        var resumed := ResumeAttr(placed.value, fs);
        if resumed.raised.Some? then InitOutcome(Failure(resumed.raised.value), resumed.fs)
        else
          var logdef := if args.defLogtype.Str? then LookupLogType(args.defLogtype.s) else None;
          if logdef.None? then InitOutcome(Failure(AssertionError(KnownLogtype)), resumed.fs)
          else
            var formats := CheckFormats(args.timestamp, args.logformat, args.prefix, args.postfix);
            if formats.Failure? then InitOutcome(Failure(formats.error), resumed.fs)
            else
              ResumeProvisions(Complete(placed.value), fs);
              InitOutcome(Success(Configured(resumed.state.(enabled := true), logdef.value, formats.value)), resumed.fs)
  }

  /** __init__ as written: whatever the arguments, it raises AttributeError('_enabled') and touches nothing. */
  function InitAsWritten(args: InitArgs, fs: Fs): (r: InitOutcome)
    ensures r == InitOutcome(Failure(AttributeError("_enabled")), fs)
  {
    RunInit(None, args, fs)
  }

  /**
   * __init__ with `self._enabled = False` as its first statement. It
   * succeeds exactly when both path parts are strings, resume succeeds, the
   * logtype is one of the four names and the formats are strings; then the
   * logger is enabled on '{dir}/{filename}', its directory and file exist,
   * and _logdef is the log type of that name.
   */
  function InitCorrected(args: InitArgs, fs: Fs): (r: InitOutcome)
    ensures r.result.Success? <==>
              && args.filename.Str? && args.directory.Str?
              && Resume(LoggerState(false, args.directory.s, args.filename.s, ""), fs).raised.None?
              && args.defLogtype.Str? && LookupLogType(args.defLogtype.s).Some?
              && CheckFormats(args.timestamp, args.logformat, args.prefix, args.postfix).Success?
    ensures r.result.Success? ==>
              && r.result.value.state.enabled
              && r.result.value.state.path == PathOf(args.directory.s, args.filename.s)
              && Provisioned(r.result.value.state, r.fs)
              && LogTypeName(r.result.value.logdef) == args.defLogtype.s
  {
    RunInit(Some(false), args, fs)
  }

  /**
   * Even with _enabled assigned first, LogPy() with its defaults raises:
   * the default directory '' does not exist and os.makedirs('') fails.
   */
  lemma DefaultsRaise(fs: Fs)
    ensures InitCorrected(DefaultArgs, fs).result == Failure(OSError(MakeDirsFailed("")))
  {
  }
}
