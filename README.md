# LogPy lifecycle, modelled in Dafny

LogPy (`LogPy.py`) is one Python class, a file logger. The only behaviour it actually
implements is its lifecycle. A flag `_enabled` says whether the logger is running.
`_directory` and `_filename` hold the committed target. `_path` is the file that
`resume` provisions, built as `'{dir}/{filename}'`.

- `pause` clears the flag.
- The `directory` and `filename` property setters call `pause` first. Only then do they
  check that the value is a `str` and commit it.
- `resume`, on a disabled logger, creates the directory with `os.makedirs` when
  `os.path.exists` says it is missing. It then assigns the path, touches the file with
  `open(path, 'a').close()` and sets the flag.
- `__init__` is written to run the two setters and `resume` (as written, the first setter
  raises; see Findings). It then checks the default log type against
  the four names `info`, `warning`, `error` and `fatal`, type-checks the four format
  strings, and assigns `_enabled = True` at its very end.

The model has five modules:

- `Wrappers`: `Option` and `Result`.
- `FileSystem`: the host file system as a value `Fs`, holding a set of directory paths and a
  map from file path to contents. It defines `Exists` (`os.path.exists`; false for `''`),
  `MakeDirs` (`os.makedirs`, which also creates the directories a path lies inside, found by
  `Ancestors`) and `OpenAppend` (touching a file in append mode). `WellFormed` is the shape
  every real file system has, with `/`, `.` and `..` among its directories. `Disk` is the mutable
  object holding the file system that `resume` updates.
- `Lifecycle`: the four attributes as a `LoggerState` value, and the operations as functions
  on it (`Pause`, `SetDirectory`, `SetFilename`, `Resume`, with `PathOf` literally
  `directory + "/" + filename`). It also holds the lemmas about them, including lemmas over
  any sequence of calls (`Run`).
- `Init`: the log-type table, the format checks, and `__init__` itself as `RunInit`. `RunInit`
  runs the constructor's steps in source order, starting from a given value of the
  `_enabled` attribute, where `None` means "not assigned yet". Every read of `_enabled`
  goes through `PauseAttr` or `ResumeAttr`, which raise AttributeError while it is
  unassigned. `AttributesAgree` proves that, once it is assigned, these are the
  lifecycle's own operations.
- `Logger`: the class `LogPy`. Its fields are the source's attributes. Its methods update
  them step by step, and each method's `ensures` ties the new state to the matching
  `Lifecycle` function, so the lemmas proved there hold of the object.

The getters of the `directory` and `filename` properties (LogPy.py:57-59, 68-70) return the
fields; in the class they are the fields `directory` and `filename`, read directly.

What the code does not do:

- The four level methods `info`, `warning`, `error` and `fatal` are empty, so nothing is
  ever written to the log file.
- There is no conflict prompt, no line rendering, no timestamp formatting and no open file
  handle.
- The setters pause before they check the value's type, so a rejected value still leaves
  the logger paused.
- Construction never reaches `resume` (see Findings).
- `PathOf('', 'main.log')` would be `'/main.log'`, but resume never builds that path:
  with the default directory `''`, `os.makedirs('')` raises first.

## Model

| member | source | states |
|---|---|---|
| `FileSystem.Exists` | LogPy.py:50 | `os.path.exists`: never true of the empty path, true of every other existing directory or file; on a well-formed file system, true exactly of the existing directories and files |
| `FileSystem.MakeDirs` | LogPy.py:52 | succeeds exactly when the path is non-empty, does not exist yet and no enclosing path is a regular file. On success the directory and every directory enclosing it exist, nothing else is created, no directory is lost and the files are unchanged. |
| `FileSystem.OpenAppend` | LogPy.py:54 | succeeds exactly when the path can name a file, is not a directory and every enclosing path is an existing directory. On success the file exists and the directories are unchanged. Every existing file keeps its contents, a missing file is created empty and only that key is added. |
| `FileSystem.MakeDirsKeepsWellFormed` | LogPy.py:52 | `os.makedirs` keeps the file system well formed: directories and files stay disjoint and everything lies inside existing directories. |
| `FileSystem.OpenAppendKeepsWellFormed` | LogPy.py:54 | touching a file keeps the file system well formed |
| `FileSystem.OpenAppendExisting` | LogPy.py:54 | in a well-formed file system, touching an existing file succeeds and changes nothing |
| `Lifecycle.PathOf` | LogPy.py:53 | the path is the directory, then one `/`, then the filename, each recoverable from it |
| `Lifecycle.EmptyDirectoryPathIsRooted` | LogPy.py:53 | the path is built literally: `PathOf('', f)` is `'/' + f`; resume never gets there, because `os.makedirs('')` raises first |
| `Lifecycle.Pause` | LogPy.py:44-46 | the result is the input with the flag cleared: disabled, and nothing else differs |
| `Lifecycle.PauseIdempotent` | LogPy.py:44-46 | a second pause changes nothing |
| `Lifecycle.SetDirectory` | LogPy.py:61-65 | afterwards the logger is disabled and the filename and path are unchanged. A str becomes the directory without raising. Any other value raises the assertion and keeps the old directory. |
| `Lifecycle.SetFilename` | LogPy.py:72-76 | afterwards the logger is disabled and the directory and path are unchanged. A str becomes the filename without raising. Any other value raises the assertion and keeps the old filename. |
| `Lifecycle.ProvideDirectory` | LogPy.py:50-52 | an existing directory leaves the file system as it is; a missing one is exactly `os.makedirs` of it; on success no directory is lost and no file changes |
| `Lifecycle.Resume` | LogPy.py:48-55 | on an enabled logger: no change and no exception. Otherwise the logger ends enabled exactly when nothing raised, on the path `dir + "/" + filename`, and that file exists. Directory and filename are kept. No directory is lost, no file is removed or changed, and at most the target file is added. |
| `Lifecycle.ResumeProvisions` | LogPy.py:48-55 | a successful resume of a disabled logger enables it on `dir + "/" + filename`, with the directory existing as a directory and the file existing |
| `Lifecycle.ResumeSucceeds` | LogPy.py:48-55 | on a well-formed file system, a disabled logger with a non-empty filename free of `/` resumes without raising in two cases: its directory exists and the path is not a directory, or its directory is missing and can be created. The missing directory is then created and the logger ends provisioned. |
| `Lifecycle.ResumeCreatesOnlyMissingDirectory` | LogPy.py:50-52 | an existing directory means no directory is created. A missing one is created on success. Nothing outside it and its enclosing directories is created. |
| `Lifecycle.ResumeNeverCreatesRootOrDotDirectory` | LogPy.py:50-52 | `os.path.exists` is true of `/`, `.` and `..` on every well-formed file system, so resume leaves the directories as they were |
| `Lifecycle.ResumeTouchesWithoutTruncating` | LogPy.py:53-54 | after a successful resume the files are the old ones, plus the target created empty if it was missing |
| `Lifecycle.ResumeEmptyDirectoryRaises` | LogPy.py:50-52 | with directory `''` a disabled logger's resume raises the `os.makedirs` failure and changes nothing |
| `Lifecycle.ResumeKeepsWellFormed` | LogPy.py:48-55 | resume keeps the file system well formed |
| `Lifecycle.ResumeKeepsConsistent` | LogPy.py:48-55 | if an enabled logger always has its directory and file, that still holds after resume |
| `Lifecycle.PauseResumeRoundTrip` | LogPy.py:44-55 | pausing a provisioned logger and resuming it gives back the same logger and the same file system |
| `Lifecycle.StepKeepsInvariant` | LogPy.py:44-76 | every call keeps the file system well formed and an enabled logger provisioned |
| `Lifecycle.RunKeepsInvariant` | LogPy.py:44-76 | no sequence of calls breaks the file system's shape or leaves the logger enabled without its directory and file |
| `Lifecycle.RunKeepsFiles` | LogPy.py:44-76 | no sequence of calls removes a directory, or removes or changes an existing file |
| `Lifecycle.PausedUntilResume` | LogPy.py:44-76 | a disabled logger stays disabled, and the file system unchanged, through any calls that are not resume |
| `Init.LookupLogType` | LogPy.py:27-29 | a name is accepted exactly when it is one of `info`, `warning`, `error`, `fatal`, and it selects the log type of that name |
| `Init.LookupLogTypeName` | LogPy.py:27-29 | every log type is found under its own name |
| `Init.CheckFormats` | LogPy.py:31-40 | succeeds exactly when all four format arguments are str, and then stores them unchanged. Otherwise it raises an isinstance assertion, first for the timestamp. |
| `Init.PauseAttr` | LogPy.py:44-46 | `pause()` on the object being built: raises AttributeError on `_enabled` exactly when that attribute is unassigned, and is otherwise the lifecycle's pause |
| `Init.SetFilenameAttr` | LogPy.py:72-76 | the filename setter on the object being built raises AttributeError on `_enabled` while that attribute is unassigned, because its pause runs first; on success `_enabled` is False |
| `Init.SetDirectoryAttr` | LogPy.py:61-65 | the directory setter on the object being built raises AttributeError on `_enabled` while that attribute is unassigned; on success `_enabled` is False |
| `Init.ResumeAttr` | LogPy.py:48-49 | `resume()` on the object being built raises AttributeError on `_enabled` while that attribute is unassigned, without touching the file system |
| `Init.AttributesAgree` | LogPy.py:44-76 | once `_enabled` exists, the attribute-level pause, setters and resume give the same state and exception as the lifecycle's own |
| `Init.RunInit` | LogPy.py:10-42 | runs lines 23-42 in order through the attribute-level setters and resume. No file or directory is lost. On success the arguments were strings and the logger is enabled on `dir + "/" + filename`, which is provisioned. `_logdef` has the given name and the formats are the arguments. |
| `Init.InitAsWritten` | LogPy.py:23-25 | for every argument list, construction as written raises AttributeError on `_enabled` in the first setter's pause, before `resume`, and leaves the file system untouched |
| `Init.InitCorrected` | LogPy.py:10-42 | with `_enabled` assigned first, construction succeeds exactly when: the path arguments are str, resume succeeds, the log type is one of the four, and the formats are str. The result is enabled and provisioned on `dir + "/" + filename`, with `_logdef` named by the argument. |
| `Init.DefaultsRaise` | LogPy.py:10-11 | even corrected, `LogPy()` with its defaults raises the `os.makedirs('')` failure |
| `Logger.LogPy.constructor` | LogPy.py:10-42 | from a state that is provisioned on the disk if it is enabled, the object holds that lifecycle state, `_logdef` and the formats, and an enabled object has its directory and file |
| `Logger.LogPy.Pause` | LogPy.py:44-46 | the new state is `Lifecycle.Pause` of the old: disabled, with directory, filename, path and the other attributes unchanged |
| `Logger.LogPy.SetDirectory` | LogPy.py:61-65 | the new state and the exception are `Lifecycle.SetDirectory` of the old state and the value |
| `Logger.LogPy.SetFilename` | LogPy.py:72-76 | the new state and the exception are `Lifecycle.SetFilename` of the old state and the value |
| `Logger.LogPy.Resume` | LogPy.py:48-55 | the new state, the disk and the exception are `Lifecycle.Resume` of the old state and disk. An enabled logger and the disk are untouched. A successful resume leaves the logger provisioned. Well-formedness and consistency are kept, and no file is removed or changed. |

## Findings

| source | as written | input that shows it | evidently intended | confidence | as-written member | corrected member |
|---|---|---|---|---|---|---|
| LogPy.py:23 | `__init__` runs the filename setter, whose `pause()` reads `self._enabled` (line 45) before line 42 assigns it, so construction raises AttributeError | any arguments, for example `LogPy()` | `_enabled` assigned `False` before the setters run, so that `resume` provisions the file and the logger ends enabled | high, by reading; not executed | `Init.InitAsWritten` | `Init.InitCorrected` |

The class `Logger.LogPy` is built from a `Configured` value, the kind of value `InitCorrected`
yields. Its operations are modelled on such an existing object, because the source's
constructor never completes.

## Left out

- Real OS calls, the clock, concurrency: `os.path.exists`, `os.makedirs` and `open` are
  functions on the abstract file system; nothing else touches it.
- `FileSystem.MakeDirs`: raises only for the empty path, for an existing path, and when an
  enclosing path is a regular file. Permission errors, read-only media and other OS
  failures are not modelled.
- `FileSystem.OpenAppend`: raises only for a path that cannot name a file, a directory, or
  a path whose enclosing paths are not all existing directories. Permission and other OS
  failures are not modelled.
- Paths are compared as strings, with no normalisation of `.`, `..`, repeated separators or
  trailing separators in directories. The paths `/`, `.` and `..` are directories of every
  well-formed file system, so resume never creates them. Other spellings of an existing
  directory, such as `./logs` or `logs/` for `logs`, are ordinary names that the model may
  create as new directories.
- The `print` warning at LogPy.py:51: console output only.
- `info`, `warning`, `error`, `fatal` (LogPy.py:82-92): empty bodies, so nothing is written
  to the log file. `_logmethods` maps names to these bound methods; the model identifies
  each method by its `LogType`.
- `_timestamp`, `_logformat`, `_prefix`, `_postfix` are stored and never used. No rendering,
  timestamp formatting, conflict prompt, retry or rename exists in the code, so none is
  modelled.
- `__init__` is modelled on values (`Init.RunInit`) rather than as a Dafny constructor. A
  Dafny object cannot have unassigned fields, and an unassigned `_enabled` is the point of
  the finding above.
- Assertions are taken as enabled. Under `python -O` the `isinstance` and log-type asserts
  (LogPy.py:28, 31, 34, 37, 38, 64, 75) are removed, so the setters would commit any value,
  an unknown log type would raise KeyError at LogPy.py:29, and non-`str` formats would be
  stored. The model covers only the default interpreter mode.
- Python values other than `str` are one value `NonStr`. An unhashable log-type argument,
  which would raise TypeError at the dictionary lookup, is treated as an unknown name.
