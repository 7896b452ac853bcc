/**
 * The lifecycle of a LogPy object (LogPy.py:44-76) as functions on values:
 * the enabled flag, the committed directory and filename, the derived path,
 * and what pause, resume and the two property setters do to them and to
 * the file system.
 */
module Lifecycle {
  import opened Wrappers
  import opened FileSystem

  /** A Python argument as the setters see it: a str, or a value of another type. */
  datatype Value = Str(s: string) | NonStr

  /** The condition of a failed `assert` in LogPy.py. */
  datatype Check = IsStr(parameter: string) | KnownLogtype

  /** What a LogPy operation raises. */
  datatype Exception =
    | AttributeError(attribute: string)
    | AssertionError(check: Check)
    | OSError(cause: OsFailure)

  /** The attributes _enabled, _directory, _filename and _path. */
  datatype LoggerState = LoggerState(enabled: bool, directory: string, filename: string, path: string)

  /** The state after a setter, and what it raised, if anything. */
  datatype Outcome = Outcome(state: LoggerState, raised: Option<Exception>)

  /** The state and file system after resume, and what it raised, if anything. */
  datatype Resumed = Resumed(state: LoggerState, fs: Fs, raised: Option<Exception>)

  /** The path resume builds, '{dir}/{filename}', with no case for an empty directory. */
  function PathOf(directory: string, filename: string): (p: string)
    ensures |p| == |directory| + 1 + |filename| && p[|directory|] == '/'
    ensures p[..|directory|] == directory && p[|directory| + 1..] == filename
  {
    directory + "/" + filename
  }

  /** The logger's target exists: the path is the one resume builds, its directory and file exist. */
  predicate Provisioned(s: LoggerState, fs: Fs)
  {
    s.path == PathOf(s.directory, s.filename) && s.directory in fs.dirs && s.path in fs.files
  }

  /** An enabled logger always has its target provisioned. */
  predicate Consistent(s: LoggerState, fs: Fs)
  {
    s.enabled ==> Provisioned(s, fs)
  }

  /** pause(): the logger ends disabled, and nothing but the flag changes. */
  function Pause(s: LoggerState): (r: LoggerState)
    ensures r == s.(enabled := false)
  {
    if s.enabled then s.(enabled := false) else s
  }

  /**
   * The directory setter: pause() runs before the isinstance assertion, so
   * the logger ends disabled whether or not the value is accepted; a str is
   * committed, anything else raises and keeps the old directory.
   */
  function SetDirectory(s: LoggerState, value: Value): (r: Outcome)
    ensures !r.state.enabled
    ensures r.state.filename == s.filename && r.state.path == s.path
    ensures r.state.directory == if value.Str? then value.s else s.directory
    ensures r.raised.None? <==> value.Str?
    ensures r.raised.Some? ==> r.raised.value == AssertionError(IsStr("directory"))
  {
    var paused := Pause(s);
    if value.Str? then Outcome(paused.(directory := value.s), None)
    else Outcome(paused, Some(AssertionError(IsStr("directory"))))
  }

  /** The filename setter: as the directory setter, for the filename. */
  function SetFilename(s: LoggerState, value: Value): (r: Outcome)
    ensures !r.state.enabled
    ensures r.state.directory == s.directory && r.state.path == s.path
    ensures r.state.filename == if value.Str? then value.s else s.filename
    ensures r.raised.None? <==> value.Str?
    ensures r.raised.Some? ==> r.raised.value == AssertionError(IsStr("filename"))
  {
    var paused := Pause(s);
    if value.Str? then Outcome(paused.(filename := value.s), None)
    else Outcome(paused, Some(AssertionError(IsStr("filename"))))
  }

  /** The directory part of resume: os.makedirs only when os.path.exists says the directory is missing. */
  function ProvideDirectory(fs: Fs, directory: string): (r: Result<Fs, OsFailure>)
    ensures Exists(fs, directory) ==> r == Success(fs)
    ensures !Exists(fs, directory) ==> r == MakeDirs(fs, directory)
    ensures r.Success? ==> fs.dirs <= r.value.dirs && r.value.files == fs.files
  {
    if Exists(fs, directory) then Success(fs) else MakeDirs(fs, directory)
  }

  /**
   * resume(): a no-op on an enabled logger. Otherwise it provides the
   * directory, assigns the path, touches the file in append mode and sets
   * the flag; whatever raises stops it there, so the path may already be
   * assigned (and the directory created) when the touch fails.
   */
  function Resume(s: LoggerState, fs: Fs): (r: Resumed)
    ensures s.enabled ==> r == Resumed(s, fs, None)
    ensures r.state.directory == s.directory && r.state.filename == s.filename
    ensures r.state.enabled <==> r.raised.None?
    ensures !s.enabled && r.raised.None? ==>
              r.state.path == PathOf(s.directory, s.filename) && r.state.path in r.fs.files
    ensures fs.dirs <= r.fs.dirs && FilesKept(fs, r.fs)
    ensures r.fs.files.Keys <= fs.files.Keys + {r.state.path}
  {
    if s.enabled then Resumed(s, fs, None)
    else
      var provided := ProvideDirectory(fs, s.directory);
      if provided.Failure? then Resumed(s, fs, Some(OSError(provided.error)))
      else
        var targeted := s.(path := PathOf(s.directory, s.filename));
        var touched := OpenAppend(provided.value, targeted.path);
        if touched.Failure? then Resumed(targeted, provided.value, Some(OSError(touched.error)))
        else Resumed(targeted.(enabled := true), touched.value, None)
  }

  /** A non-empty directory encloses the path built from it. */
  lemma DirectoryEnclosesPath(directory: string, filename: string)
    requires directory != ""
    ensures directory in Ancestors(PathOf(directory, filename))
    ensures Ancestors(directory) <= Ancestors(PathOf(directory, filename))
  {
    var p := PathOf(directory, filename);
    assert p[|directory|] == '/' && p[..|directory|] == directory;
    forall a | a in Ancestors(directory)
      ensures a in Ancestors(p)
    {
      var i :| 0 < i < |directory| && directory[i] == '/' && a == directory[..i];
      assert p[i] == '/' && p[..i] == a;
    }
  }

  /**
   * The path is built literally: PathOf('', f) is '/' + f. Resume never
   * gets that far with '', because os.makedirs('') raises first.
   */
  lemma EmptyDirectoryPathIsRooted(filename: string)
    ensures PathOf("", filename) == "/" + filename
  {
  }

  /** With a filename free of '/', the path lies inside the directory and what encloses it, and nothing else. */
  lemma PathAncestors(directory: string, filename: string)
    requires '/' !in filename
    ensures Ancestors(PathOf(directory, filename)) <= Ancestors(directory) + {directory}
  {
    var p := PathOf(directory, filename);
    forall a | a in Ancestors(p)
      ensures a in Ancestors(directory) + {directory}
    {
      var i :| 0 < i < |p| && p[i] == '/' && a == p[..i];
      if i < |directory| {
        assert directory[i] == '/' && directory[..i] == a;
      }
    }
  }

  /**
   * resume of a disabled logger succeeds when its directory exists as a
   * directory (and the path is not one), or is missing but can be created,
   * and the filename is non-empty without '/'. A missing directory is then
   * created, and the logger ends provisioned.
   */
  lemma ResumeSucceeds(s: LoggerState, fs: Fs)
    requires WellFormed(fs) && !s.enabled
    requires s.filename != "" && '/' !in s.filename
    requires || (s.directory in fs.dirs && PathOf(s.directory, s.filename) !in fs.dirs)
             || (!Exists(fs, s.directory) && MakeDirs(fs, s.directory).Success?)
    ensures Resume(s, fs).raised.None?
    ensures Provisioned(Resume(s, fs).state, Resume(s, fs).fs)
    ensures !Exists(fs, s.directory) ==> s.directory in Resume(s, fs).fs.dirs - fs.dirs
  {
    var p := PathOf(s.directory, s.filename);
    var provided := ProvideDirectory(fs, s.directory);
    assert s.directory != "";
    DirectoryEnclosesPath(s.directory, s.filename);
    PathAncestors(s.directory, s.filename);
    assert FileLike(p) by {
      assert p[|p| - 1] == s.filename[|s.filename| - 1];
    }
    if !Exists(fs, s.directory) {
      assert p !in fs.dirs;
      assert p != s.directory && p !in Ancestors(s.directory) by {
        forall a | a in Ancestors(s.directory)
          ensures |a| < |s.directory|
        {
          var i :| 0 < i < |s.directory| && s.directory[i] == '/' && a == s.directory[..i];
        }
      }
    }
    assert OpenAppend(provided.value, p).Success?;
    ResumeProvisions(s, fs);
  }

  /** pause() twice is pause() once. */
  lemma PauseIdempotent(s: LoggerState)
    ensures Pause(Pause(s)) == Pause(s)
  {
  }

  /**
   * A successful resume of a disabled logger leaves it enabled with the
   * path '{dir}/{filename}', the directory existing as a directory and the
   * file existing.
   */
  lemma ResumeProvisions(s: LoggerState, fs: Fs)
    requires !s.enabled
    requires Resume(s, fs).raised.None?
    ensures Resume(s, fs).state == s.(enabled := true, path := PathOf(s.directory, s.filename))
    ensures Provisioned(Resume(s, fs).state, Resume(s, fs).fs)
  {
  }

  /**
   * resume creates the directory only when it did not exist, and then only
   * that directory and those enclosing it.
   */
  lemma ResumeCreatesOnlyMissingDirectory(s: LoggerState, fs: Fs)
    requires !s.enabled
    ensures Exists(fs, s.directory) ==> Resume(s, fs).fs.dirs == fs.dirs
    ensures !Exists(fs, s.directory) && Resume(s, fs).raised.None? ==>
              s.directory in Resume(s, fs).fs.dirs - fs.dirs
    ensures Resume(s, fs).fs.dirs - fs.dirs <= Ancestors(s.directory) + {s.directory}
  {
  }

  /** os.path.exists is always true of '/', '.' and '..', so resume never calls os.makedirs on them. */
  lemma ResumeNeverCreatesRootOrDotDirectory(s: LoggerState, fs: Fs)
    requires WellFormed(fs)
    requires s.directory == "/" || s.directory == "." || s.directory == ".."
    ensures Exists(fs, s.directory)
    ensures Resume(s, fs).fs.dirs == fs.dirs
  {
  }

  /**
   * resume never removes or truncates a file: after a successful resume
   * the files are the old ones, plus the target created empty when it was
   * missing.
   */
  lemma ResumeTouchesWithoutTruncating(s: LoggerState, fs: Fs)
    requires !s.enabled
    requires Resume(s, fs).raised.None?
    ensures var r := Resume(s, fs);
            r.fs.files == if r.state.path in fs.files then fs.files else fs.files[r.state.path := ""]
  {
  }

  /** With the default empty directory, resume of a disabled logger always raises: os.makedirs('') fails. */
  lemma ResumeEmptyDirectoryRaises(s: LoggerState, fs: Fs)
    requires !s.enabled && s.directory == ""
    ensures Resume(s, fs) == Resumed(s, fs, Some(OSError(MakeDirsFailed(""))))
  {
  }

  /** resume keeps the file system well formed. */
  lemma ResumeKeepsWellFormed(s: LoggerState, fs: Fs)
    requires WellFormed(fs)
    ensures WellFormed(Resume(s, fs).fs)
  {
    if !s.enabled {
      var provided := ProvideDirectory(fs, s.directory);
      if provided.Success? {
        if !Exists(fs, s.directory) {
          MakeDirsKeepsWellFormed(fs, s.directory);
        }
        var path := PathOf(s.directory, s.filename);
        if OpenAppend(provided.value, path).Success? {
          OpenAppendKeepsWellFormed(provided.value, path);
        }
      }
    }
  }

  /** resume keeps an enabled logger provisioned. */
  lemma ResumeKeepsConsistent(s: LoggerState, fs: Fs)
    requires Consistent(s, fs)
    ensures Consistent(Resume(s, fs).state, Resume(s, fs).fs)
  {
  }

  /**
   * Pausing a provisioned logger and resuming it gives back the same
   * logger and the same file system: the directory exists, so nothing is
   * created, and the file exists, so touching it changes nothing.
   */
  lemma PauseResumeRoundTrip(s: LoggerState, fs: Fs)
    requires WellFormed(fs)
    requires s.enabled && Provisioned(s, fs)
    ensures Resume(Pause(s), fs) == Resumed(s, fs, None)
  {
  }

  /** A client call on the logger. */
  datatype Call =
    | CallPause
    | CallSetDirectory(value: Value)
    | CallSetFilename(value: Value)
    | CallResume

  /** The logger's state together with the file system. */
  datatype World = World(logger: LoggerState, fs: Fs)

  /** The world after one call, whether or not the call raised. */
  function Step(w: World, c: Call): World
  {
    match c
    case CallPause => World(Pause(w.logger), w.fs)
    case CallSetDirectory(v) => World(SetDirectory(w.logger, v).state, w.fs)
    case CallSetFilename(v) => World(SetFilename(w.logger, v).state, w.fs)
    case CallResume => var r := Resume(w.logger, w.fs); World(r.state, r.fs)
  }

  /** The world after a sequence of calls. */
  function Run(w: World, calls: seq<Call>): World
    decreases |calls|
  {
    if calls == [] then w else Run(Step(w, calls[0]), calls[1..])
  }

  predicate Invariant(w: World)
  {
    WellFormed(w.fs) && Consistent(w.logger, w.fs)
  }

  lemma StepKeepsInvariant(w: World, c: Call)
    requires Invariant(w)
    ensures Invariant(Step(w, c))
  {
    if c.CallResume? {
      ResumeKeepsWellFormed(w.logger, w.fs);
      ResumeKeepsConsistent(w.logger, w.fs);
    }
  }

  /**
   * No sequence of calls breaks the file system's shape or leaves the
   * logger enabled without its directory and file.
   */
  lemma {:induction false} RunKeepsInvariant(w: World, calls: seq<Call>)
    requires Invariant(w)
    ensures Invariant(Run(w, calls))
    decreases |calls|
  {
    if calls != [] {
      StepKeepsInvariant(w, calls[0]);
      RunKeepsInvariant(Step(w, calls[0]), calls[1..]);
    }
  }

  /** No sequence of calls removes a directory or removes or changes an existing file. */
  lemma {:induction false} RunKeepsFiles(w: World, calls: seq<Call>)
    ensures w.fs.dirs <= Run(w, calls).fs.dirs
    ensures FilesKept(w.fs, Run(w, calls).fs)
    decreases |calls|
  {
    if calls != [] {
      RunKeepsFiles(Step(w, calls[0]), calls[1..]);
    }
  }

  /** A disabled logger stays disabled, and the file system unchanged, until a call to resume. */
  lemma {:induction false} PausedUntilResume(w: World, calls: seq<Call>)
    requires !w.logger.enabled
    requires forall i :: 0 <= i < |calls| ==> !calls[i].CallResume?
    ensures !Run(w, calls).logger.enabled && Run(w, calls).fs == w.fs
    decreases |calls|
  {
    if calls != [] {
      PausedUntilResume(Step(w, calls[0]), calls[1..]);
    }
  }
}
