/**
 * A Unix instance of the path operations: `new File(parent, child)` on
 * already-normalised path strings, as `java.io.UnixFileSystem.resolve` joins
 * them, with the separator `/` and a fixed working directory for
 * `getAbsolutePath`.  It makes the archive-base override rule concrete.
 */
module UnixPaths {
  import opened Wrappers
  import opened Assembly
  import opened FileSetsTask

  predicate IsAbsolute(path: string)
  {
    |path| > 0 && path[0] == '/'
  }

  /** Joins a child path to a parent; an absolute child is still appended under a parent other than the root. */
  function Resolve(parent: string, child: string): string
  {
    if child == "" then parent
    else if child[0] == '/' then (if parent == "/" then child else parent + child)
    else if parent == "/" then parent + child
    else parent + "/" + child
  }

  /** `new File(parent, child)`: an empty parent stands for the root. */
  function Join(parent: string, child: string): string
  {
    Resolve(if parent == "" then "/" else parent, child)
  }

  /** `getAbsolutePath` with working directory `cwd`. */
  function AbsolutePath(cwd: string, path: string): string
  {
    if IsAbsolute(path) then path else Join(cwd, path)
  }

  function Paths(cwd: string): PathOps
  {
    PathOps("/", IsAbsolute, Join, path => AbsolutePath(cwd, path))
  }

  /** Joining under a parent keeps the parent as a prefix of the result. */
  lemma JoinExtendsParent(parent: string, child: string)
    requires parent != ""
    ensures |parent| <= |Join(parent, child)|
    ensures Join(parent, child)[..|parent|] == parent
  {
    var r := Join(parent, child);
    if child != "" && !(child[0] == '/' && parent == "/") {
      assert r == parent + r[|parent|..];
    }
  }

  /**
   * With an archive base directory other than the root, every resolved
   * source directory lies under the base, so the root guard can only fire
   * when the base itself is the root.
   */
  lemma ArchiveBaseContainsResolution(fileSet: FileSet, basedir: string, base: string, cwd: string)
    requires base != "" && base != "/"
    ensures var dir := GetFileSetDirectory(fileSet, basedir, Some(base), Paths(cwd));
            && |base| <= |dir|
            && dir[..|base|] == base
            && dir != "/"
  {
    var source := SourceDirectory(fileSet, basedir, Paths(cwd));
    JoinExtendsParent(base, source);
  }

  /** The archive base wins over an absolute declared directory: `/stage` with `/etc/foo` resolves to `/stage/etc/foo`. */
  lemma ArchiveBaseOverrideExample(fileSet: FileSet, cwd: string)
    requires fileSet.directory == Some("/etc/foo")
    ensures GetFileSetDirectory(fileSet, "/project", Some("/stage"), Paths(cwd)) == "/stage/etc/foo"
    ensures GetFileSetDirectory(fileSet, "/project", None, Paths(cwd)) == "/etc/foo"
  {
    assert !IsBlank("/etc/foo") by {
      assert "/etc/foo"[0] == '/';
    }
    ArchiveBaseOverridesAbsolute(fileSet, "/project", "/stage", Paths(cwd));
  }

  /** Without an archive base, a relative declared directory is placed under the project's base directory. */
  lemma RelativeUnderBasedirExample(fileSet: FileSet, cwd: string)
    requires fileSet.directory == Some("src/main/config")
    ensures GetFileSetDirectory(fileSet, "/project", None, Paths(cwd)) == "/project/src/main/config"
  {
    assert !IsBlank("src/main/config") by {
      assert "src/main/config"[0] == 's';
    }
  }

  /** A blank declared directory stands for the project's base directory, made absolute. */
  lemma BlankDirectoryExample(fileSet: FileSet, cwd: string)
    requires fileSet.directory == Some("  ")
    ensures GetFileSetDirectory(fileSet, "/project", None, Paths(cwd)) == "/project"
  {
    assert IsBlank("  ");
  }
}
