/**
 * The part of the host file system that the logger touches, as a value:
 * the paths that name existing directories and the existing regular files
 * with their contents. The three os calls the logger makes
 * (os.path.exists, os.makedirs and open(path, 'a').close()) are functions
 * on that value. Paths are compared as plain strings: there is no
 * normalisation of "." or ".." or repeated separators. The root "/", the
 * working directory "." and its parent ".." are directories of every
 * well-formed file system, so os.path.exists is true of all three.
 */
module FileSystem {
  import opened Wrappers

  datatype Fs = Fs(dirs: set<string>, files: map<string, string>)

  /** What an os call raises, named by the call and its argument. */
  datatype OsFailure = MakeDirsFailed(dir: string) | OpenFailed(path: string)

  /**
   * The directories that p lies inside: every non-empty prefix of p that
   * ends just before a '/' ("a" and "a/b" for "a/b/c"; "/var" for
   * "/var/log").
   */
  function Ancestors(p: string): set<string>
  {
    set i | 0 < i < |p| && p[i] == '/' :: p[..i]
  }

  /** A path that can name a regular file: not empty, no trailing '/'. */
  predicate FileLike(p: string)
  {
    p != "" && p[|p| - 1] != '/'
  }

  /** os.path.exists(p): false for the empty path, true for any existing directory or file. */
  predicate Exists(fs: Fs, p: string)
    ensures Exists(fs, p) ==> p != ""
    ensures p != "" && p in fs.dirs + fs.files.Keys ==> Exists(fs, p)
    ensures WellFormed(fs) ==> (Exists(fs, p) <==> p in fs.dirs + fs.files.Keys)
  {
    p != "" && (p in fs.dirs || p in fs.files)
  }

  /** Every file that existed before still exists, with the same contents. */
  predicate FilesKept(before: Fs, after: Fs)
  {
    forall p :: p in before.files ==> p in after.files && after.files[p] == before.files[p]
  }

  /**
   * The shape every real file system has: the root, the working directory
   * and its parent exist, nothing is both a directory and a file, the empty path
   * is neither, and whatever exists lies inside existing directories only.
   */
  predicate WellFormed(fs: Fs)
  {
    && "/" in fs.dirs && "." in fs.dirs && ".." in fs.dirs
    && fs.dirs !! fs.files.Keys
    && "" !in fs.dirs
    && (forall d :: d in fs.dirs ==> Ancestors(d) <= fs.dirs)
    && (forall f :: f in fs.files ==> FileLike(f) && Ancestors(f) <= fs.dirs)
  }

  /**
   * os.makedirs(d) (exist_ok left False): creates d and every directory it
   * lies inside. It raises for the empty path, for a path that already
   * exists, and when one of the enclosing paths is a regular file.
   */
  function MakeDirs(fs: Fs, d: string): (r: Result<Fs, OsFailure>)
    ensures r.Success? <==> d != "" && d !in fs.dirs && d !in fs.files && Ancestors(d) !! fs.files.Keys
    ensures r.Failure? ==> r.error == MakeDirsFailed(d)
    ensures r.Success? ==> d in r.value.dirs && Ancestors(d) <= r.value.dirs
    ensures r.Success? ==> fs.dirs <= r.value.dirs && r.value.dirs - fs.dirs <= Ancestors(d) + {d}
    ensures r.Success? ==> r.value.files == fs.files
  {
    if d == "" || d in fs.dirs || d in fs.files || Ancestors(d) * fs.files.Keys != {} then
      Failure(MakeDirsFailed(d))
    else
      Success(Fs(fs.dirs + Ancestors(d) + {d}, fs.files))
  }

  /**
   * open(p, 'a') followed by close(): an existing file is left exactly as
   * it is and a missing one is created empty. It raises when p cannot name
   * a file, is a directory, or lies inside a path that is not an existing
   * directory.
   */
  function OpenAppend(fs: Fs, p: string): (r: Result<Fs, OsFailure>)
    ensures r.Success? <==> FileLike(p) && p !in fs.dirs && Ancestors(p) <= fs.dirs
    ensures r.Failure? ==> r.error == OpenFailed(p)
    ensures r.Success? ==> p in r.value.files && r.value.dirs == fs.dirs
    ensures r.Success? ==> r.value.files.Keys == fs.files.Keys + {p} && FilesKept(fs, r.value)
    ensures r.Success? && p !in fs.files ==> r.value.files[p] == ""
  {
    if !FileLike(p) || p in fs.dirs || !(Ancestors(p) <= fs.dirs) then
      Failure(OpenFailed(p))
    else if p in fs.files then
      Success(fs)
    else
      Success(fs.(files := fs.files[p := ""]))
  }

  /** The directories enclosing an enclosing directory enclose the path too. */
  lemma AncestorsTransitive(p: string, a: string)
    requires a in Ancestors(p)
    ensures Ancestors(a) <= Ancestors(p)
  {
    var i :| 0 < i < |p| && p[i] == '/' && a == p[..i];
    forall b | b in Ancestors(a)
      ensures b in Ancestors(p)
    {
      var j :| 0 < j < |a| && a[j] == '/' && b == a[..j];
      assert p[j] == '/' && p[..j] == b;
    }
  }

  /** os.makedirs never breaks the shape of a file system. */
  lemma MakeDirsKeepsWellFormed(fs: Fs, d: string)
    requires WellFormed(fs)
    requires MakeDirs(fs, d).Success?
    ensures WellFormed(MakeDirs(fs, d).value)
  {
    var after := MakeDirs(fs, d).value;
    forall x | x in after.dirs
      ensures Ancestors(x) <= after.dirs
    {
      if x in Ancestors(d) {
        AncestorsTransitive(d, x);
      }
    }
    forall x | x in Ancestors(d)
      ensures x != ""
    {
      var i :| 0 < i < |d| && d[i] == '/' && x == d[..i];
    }
  }

  /** Touching a file never breaks the shape of a file system. */
  lemma OpenAppendKeepsWellFormed(fs: Fs, p: string)
    requires WellFormed(fs)
    requires OpenAppend(fs, p).Success?
    ensures WellFormed(OpenAppend(fs, p).value)
  {
  }

  /** Touching a file that already exists succeeds and changes nothing. */
  lemma OpenAppendExisting(fs: Fs, p: string)
    requires WellFormed(fs)
    requires p in fs.files
    ensures OpenAppend(fs, p) == Success(fs)
  {
  }

  /**
   * The host file system as one mutable object: the logger's resume
   * updates it in place, as the os calls update the real one.
   */
  class Disk {
    var fs: Fs

    constructor (initial: Fs)
      ensures fs == initial
    {
      fs := initial;
    }
  }
}
