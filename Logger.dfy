/**
 * The LogPy class (LogPy.py:5-76) as a Dafny class whose methods update its
 * fields step by step, as the source's methods do, and the Disk object for
 * the file system. Each method's new state is the one the matching function
 * of Lifecycle gives, so the lemmas proved there hold of the object.
 */
module Logger {
  import opened Wrappers
  import opened FileSystem
  import opened Lifecycle
  import opened Init

  class LogPy {
    var enabled: bool
    var directory: string
    var filename: string
    var path: string
    var logdef: LogType
    var timestamp: string
    var logformat: string
    var prefix: string
    var postfix: string

    function State(): LoggerState
      reads this
    {
      LoggerState(enabled, directory, filename, path)
    }

    /** The configuration attributes that neither pause, resume nor the two setters touch. */
    function Settings(): (LogType, Formats)
      reads this
    {
      (logdef, Formats(timestamp, logformat, prefix, postfix))
    }

    /**
     * Builds the object that a successful construction describes, such as
     * the one InitCorrected yields on the disk's file system; __init__
     * itself cannot finish. An enabled state must come with its directory
     * and file on the disk, as every successful construction does.
     */
    constructor (c: Configured, disk: Disk)
      requires Consistent(c.state, disk.fs)
      ensures State() == c.state && Settings() == (c.logdef, c.formats)
      ensures Consistent(State(), disk.fs)
    {
      enabled := c.state.enabled;
      directory := c.state.directory;
      filename := c.state.filename;
      path := c.state.path;
      logdef := c.logdef;
      timestamp := c.formats.timestamp;
      logformat := c.formats.logformat;
      prefix := c.formats.prefix;
      postfix := c.formats.postfix;
    }

    /** pause() */
    method Pause()
      modifies this
      ensures State() == Lifecycle.Pause(old(State()))
      ensures !enabled && directory == old(directory) && filename == old(filename) && path == old(path)
      ensures Settings() == old(Settings())
    {
      if enabled {
        enabled := false;
      }
    }

    /** The directory property setter. */
    method SetDirectory(value: Value) returns (raised: Option<Exception>)
      modifies this
      ensures Outcome(State(), raised) == Lifecycle.SetDirectory(old(State()), value)
      ensures !enabled && filename == old(filename) && path == old(path)
      ensures directory == if value.Str? then value.s else old(directory)
      ensures Settings() == old(Settings())
    {
      Pause();
      if !value.Str? {
        return Some(AssertionError(IsStr("directory")));
      }
      directory := value.s;
      raised := None;
    }

    /** The filename property setter. */
    method SetFilename(value: Value) returns (raised: Option<Exception>)
      modifies this
      ensures Outcome(State(), raised) == Lifecycle.SetFilename(old(State()), value)
      ensures !enabled && directory == old(directory) && path == old(path)
      ensures filename == if value.Str? then value.s else old(filename)
      ensures Settings() == old(Settings())
    {
      Pause();
      if !value.Str? {
        return Some(AssertionError(IsStr("filename")));
      }
      filename := value.s;
      raised := None;
    }

    /**
     * resume(): provisions the target of a disabled logger through the
     * disk; an enabled logger keeps its state and the disk is untouched.
     */
    method Resume(disk: Disk) returns (raised: Option<Exception>)
      modifies this, disk
      ensures Resumed(State(), disk.fs, raised) == Lifecycle.Resume(old(State()), old(disk.fs))
      ensures old(enabled) ==> State() == old(State()) && disk.fs == old(disk.fs) && raised.None?
      ensures !old(enabled) && raised.None? ==> enabled && Provisioned(State(), disk.fs)
      ensures WellFormed(old(disk.fs)) ==> WellFormed(disk.fs)
      ensures Consistent(old(State()), old(disk.fs)) ==> Consistent(State(), disk.fs)
      ensures FilesKept(old(disk.fs), disk.fs)
      ensures Settings() == old(Settings())
    {
      ghost var s0, fs0 := State(), disk.fs;
      if WellFormed(fs0) {
        ResumeKeepsWellFormed(s0, fs0);
      }
      if Consistent(s0, fs0) {
        ResumeKeepsConsistent(s0, fs0);
      }
      if !s0.enabled && Lifecycle.Resume(s0, fs0).raised.None? {
        ResumeProvisions(s0, fs0);
      }
      if !enabled {
        if !Exists(disk.fs, directory) {
          var made := MakeDirs(disk.fs, directory);
          if made.Failure? {
            return Some(OSError(made.error));
          }
          disk.fs := made.value;
        }
        path := PathOf(directory, filename);
        var touched := OpenAppend(disk.fs, path);
        if touched.Failure? {
          return Some(OSError(touched.error));
        }
        disk.fs := touched.value;
        enabled := true;
      }
      raised := None;
    }
  }
}
