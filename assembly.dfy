/**
 * The assembly plugin's side of the staging boundary: file-set declarations,
 * the configuration source, the two error kinds, the filesystem seen as an
 * oracle, and the foreign utilities the tasks call (interpolation, mode and
 * owner conversion, content transforms, path operations) as function values.
 */
module Assembly {
  import opened Wrappers
  import opened Plexus

  /** The two exceptions the tasks raise: `ArchiveCreationException` and `AssemblyFormattingException`. */
  datatype AssemblyError =
    | ArchiveCreation(message: string)
    | AssemblyFormatting(message: string)

  /** An owner declaration of a file set, before conversion to an archiver `Owner`. */
  datatype OwnerInfo = OwnerInfo(user: string, group: string)

  /** A project; only its base directory matters here. */
  datatype MavenProject = MavenProject(basedir: string)

  /** A file-set declaration of an assembly descriptor; `None` plays an absent (`null`) element. */
  datatype FileSet = FileSet(
    directory: Option<string>,
    outputDirectory: Option<string>,
    includes: Option<seq<string>>,
    excludes: Option<seq<string>>,
    useDefaultExcludes: bool,
    directoryMode: Option<string>,
    fileMode: Option<string>,
    directoryOwner: Option<OwnerInfo>,
    fileOwner: Option<OwnerInfo>,
    filtered: bool,
    lineEnding: Option<string>)

  /** The configuration source: the optional archive base directory, the final name and the project. */
  datatype ConfigSource = ConfigSource(
    archiveBaseDirectory: Option<string>,
    finalName: string,
    project: MavenProject)

  /** The filesystem as an oracle: the paths that exist, and those of them that are directories. */
  datatype FileSystem = FileSystem(existing: set<string>, directories: set<string>)
  {
    predicate Exists(path: string) { path in existing }
    predicate IsDirectory(path: string) { path in directories }
  }

  /**
   * `java.io.File` as far as the tasks use it: the name separator, whether a
   * path is absolute, `new File(parent, child)` as `join`, and
   * `getAbsolutePath`.
   */
  datatype PathOps = PathOps(
    separator: string,
    isAbsolute: string -> bool,
    join: (string, string) -> string,
    absolutePath: string -> string)

  /**
   * The foreign utilities.  A fallible one yields `Failure(message)` where the
   * Java code would throw an `AssemblyFormattingException` with that message.
   */
  datatype Collaborators = Collaborators(
    /** `AssemblyFormatUtils.fixRelativeRefs`. */
    fixRelativeRefs: string -> string,
    /** `AssemblyFormatUtils.getOutputDirectory` with the final name, the configuration and the module and artifact project interpolators. */
    getOutputDirectory: (Option<string>, string, ConfigSource, Option<MavenProject>, MavenProject) -> Result<string, string>,
    /** `TypeConversionUtils.modeToInt`: -1 for an absent or unusable mode. */
    modeToInt: Option<string> -> int,
    /** `TypeConversionUtils.ownerInfoToOwner`: `None` for an absent owner. */
    ownerInfoToOwner: Option<OwnerInfo> -> Option<Owner>,
    /** `ReaderFormatter.getFileSetTransformers` for the filtered flag and line ending. */
    fileSetTransformers: (ConfigSource, bool, Option<string>) -> Result<Option<Transformer>, string>,
    paths: PathOps)
}
