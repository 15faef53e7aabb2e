/**
 * `AddFileSetsTask`: drives a batch of file-set declarations.  It checks the
 * archive base directory once, then, declaration by declaration and stopping
 * at the first error, resolves the destination prefix and the source
 * directory, skips directories that do not exist, refuses the filesystem root
 * and hands the rest to an `AddDirectoryTask`.
 */
module FileSetsTask {
  import opened Wrappers
  import opened Plexus
  import opened Assembly
  import opened DirectoryTask

  // ---------------------------------------------------------------------------
  // Blank directories: Java's `String.trim`
  // ---------------------------------------------------------------------------

  /** `trim` drops leading characters up to and including the space character. */
  function TrimStart(s: string): string
  {
    if |s| > 0 && s[0] <= ' ' then TrimStart(s[1..]) else s
  }

  /** `trim` drops trailing characters up to and including the space character. */
  function TrimEnd(s: string): string
  {
    if |s| > 0 && s[|s| - 1] <= ' ' then TrimEnd(s[..|s| - 1]) else s
  }

  /** `String.trim`. */
  function Trim(s: string): string
  {
    TrimEnd(TrimStart(s))
  }

  /** Every character is at most U+0020: the space character or a character below it. */
  predicate IsBlank(s: string)
  {
    forall i :: 0 <= i < |s| ==> s[i] <= ' '
  }

  lemma {:induction false} TrimStartBlank(s: string)
    ensures TrimStart(s) == [] <==> IsBlank(s)
    ensures TrimStart(s) != [] ==> TrimStart(s)[0] > ' '
  {
    if |s| > 0 && s[0] <= ' ' {
      TrimStartBlank(s[1..]);
      assert forall i :: 0 < i < |s| ==> s[i] == s[1..][i - 1];
    }
  }

  lemma {:induction false} TrimEndBlank(s: string)
    ensures TrimEnd(s) == [] <==> IsBlank(s)
  {
    if |s| > 0 && s[|s| - 1] <= ' ' {
      TrimEndBlank(s[..|s| - 1]);
      assert forall i :: 0 <= i < |s| - 1 ==> s[i] == s[..|s| - 1][i];
    }
  }

  /** `s.trim().length() < 1` holds exactly for the blank strings. */
  lemma TrimEmptyIffBlank(s: string)
    ensures |Trim(s)| < 1 <==> IsBlank(s)
  {
    TrimStartBlank(s);
    TrimEndBlank(TrimStart(s));
    if !IsBlank(s) {
      assert !IsBlank(TrimStart(s)) by {
        assert TrimStart(s)[0] > ' ';
      }
    }
  }

  // ---------------------------------------------------------------------------
  // Resolving the source directory and the destination prefix
  // ---------------------------------------------------------------------------

  /** The declared directory, or the base directory's absolute path when it is absent or blank. */
  function SourceDirectory(fileSet: FileSet, basedir: string, paths: PathOps): (source: string)
    ensures source == if fileSet.directory.None? || IsBlank(fileSet.directory.value)
                      then paths.absolutePath(basedir) else fileSet.directory.value
  {
    if fileSet.directory.None? then paths.absolutePath(basedir)
    else
      TrimEmptyIffBlank(fileSet.directory.value);
      if |Trim(fileSet.directory.value)| < 1 then paths.absolutePath(basedir) else fileSet.directory.value
  }

  /**
   * `getFileSetDirectory`: without an archive base directory an absolute
   * source is kept and a relative one is joined to the base directory; with
   * one, the source is always joined to it, even when absolute.
   */
  function GetFileSetDirectory(fileSet: FileSet, basedir: string, archiveBaseDir: Option<string>, paths: PathOps)
    : (dir: string)
    ensures var source := if fileSet.directory.None? || IsBlank(fileSet.directory.value)
                          then paths.absolutePath(basedir) else fileSet.directory.value;
            && (archiveBaseDir.None? && paths.isAbsolute(source) ==> dir == source)
            && (archiveBaseDir.None? && !paths.isAbsolute(source) ==> dir == paths.join(basedir, source))
            && (archiveBaseDir.Some? ==> dir == paths.join(archiveBaseDir.value, source))
  {
    var source := SourceDirectory(fileSet, basedir, paths);
    if archiveBaseDir.None? then
      if paths.isAbsolute(source) then source else paths.join(basedir, source)
    else
      paths.join(archiveBaseDir.value, source)
  }

  /** With an archive base directory, a declared absolute directory is still joined under the base. */
  lemma ArchiveBaseOverridesAbsolute(fileSet: FileSet, basedir: string, base: string, paths: PathOps)
    requires fileSet.directory.Some? && !IsBlank(fileSet.directory.value)
    requires paths.isAbsolute(fileSet.directory.value)
    ensures GetFileSetDirectory(fileSet, basedir, Some(base), paths) == paths.join(base, fileSet.directory.value)
    ensures GetFileSetDirectory(fileSet, basedir, None, paths) == fileSet.directory.value
  {
  }

  /** The destination template: the declared output directory, or else the declared directory. */
  function DestinationTemplate(fileSet: FileSet): Option<string>
  {
    if fileSet.outputDirectory.Some? then fileSet.outputDirectory else fileSet.directory
  }

  /** The project `addFileSet` works with: the cached one, or else the configuration's. */
  function EffectiveProject(cached: Option<MavenProject>, config: ConfigSource): MavenProject
  {
    if cached.Some? then cached.value else config.project
  }

  // ---------------------------------------------------------------------------
  // What one declaration, and a batch of them, does
  // ---------------------------------------------------------------------------

  /** Everything `addFileSet` consults besides the declaration. */
  datatype Context = Context(
    config: ConfigSource,
    env: Collaborators,
    fs: FileSystem,
    project: MavenProject,
    moduleProject: Option<MavenProject>,
    archiveBaseDir: Option<string>)

  /** The error for a source directory that is the filesystem root. */
  function RootError(separator: string): AssemblyError
  {
    AssemblyFormatting("Your assembly descriptor specifies a directory of " + separator
                       + ", which is your *entire* file system.\nThese are not the files you are looking for")
  }

  /** The configuration of the directory task built for a declaration: converted modes and owners, and the rest copied. */
  function TaskConfig(fileSet: FileSet, dir: string, transformer: Option<Transformer>, dest: string,
                      env: Collaborators): DirectoryTaskConfig
  {
    DirectoryTaskConfig(
      dir, transformer, fileSet.includes, fileSet.excludes, Some(dest), fileSet.useDefaultExcludes,
      env.modeToInt(fileSet.directoryMode), env.modeToInt(fileSet.fileMode),
      env.ownerInfoToOwner(fileSet.directoryOwner), env.ownerInfoToOwner(fileSet.fileOwner))
  }

  /**
   * What `addFileSet` decides before executing a task: an interpolation
   * error, a skip (`None`) when the resolved directory does not exist, a
   * content-transform error, the root-directory error, or the task to run.
   */
  function PlanFileSet(fileSet: FileSet, ctx: Context): Result<Option<DirectoryTaskConfig>, AssemblyError>
  {
    match ctx.env.getOutputDirectory(DestinationTemplate(fileSet), ctx.config.finalName, ctx.config,
                                     ctx.moduleProject, ctx.project)
    case Failure(message) => Failure(AssemblyFormatting(message))
    case Success(dest) =>
      var dir := GetFileSetDirectory(fileSet, ctx.project.basedir, ctx.archiveBaseDir, ctx.env.paths);
      if !ctx.fs.Exists(dir) then Success(None)
      else
        match ctx.env.fileSetTransformers(ctx.config, fileSet.filtered, fileSet.lineEnding)
        case Failure(message) => Failure(AssemblyFormatting(message))
        case Success(transformer) =>
          if dir == ctx.env.paths.separator then Failure(RootError(ctx.env.paths.separator))
          else Success(Some(TaskConfig(fileSet, dir, transformer, dest, ctx.env)))
  }

  /** What `addFileSet` does for one declaration: the plan, then the directory task if there is one. */
  function StageFileSet(fileSet: FileSet, ctx: Context, rejects: FileSetDescriptor -> Option<string>)
    : Result<Option<FileSetDescriptor>, AssemblyError>
  {
    match PlanFileSet(fileSet, ctx)
    case Failure(e) => Failure(e)
    case Success(None) => Success(None)
    case Success(Some(cfg)) => StageDirectory(cfg, ctx.fs, ctx.env.fixRelativeRefs, rejects)
  }

  /** The archiver calls `addFileSet` makes: none unless a directory task runs. */
  function StageCalls(fileSet: FileSet, ctx: Context, saved: Overrides): seq<ArchiverCall>
  {
    match PlanFileSet(fileSet, ctx)
    case Success(Some(cfg)) => ExecuteCalls(cfg, saved, ctx.fs, ctx.env.fixRelativeRefs)
    case _ => []
  }


  /** What one declaration yields: a descriptor left in the archiver, a skip, or an error. */
  type Staged = Result<Option<FileSetDescriptor>, AssemblyError>

  /** The descriptors a batch left in the archiver and how it ended. */
  datatype BatchResult = BatchResult(submitted: seq<FileSetDescriptor>, outcome: Outcome<AssemblyError>)

  /** Folds per-declaration results in order; the first error ends the batch. */
  function Collect(results: seq<Staged>): BatchResult
  {
    if results == [] then BatchResult([], Pass)
    else
      match results[0]
      case Failure(e) => BatchResult([], Fail(e))
      case Success(d) =>
        var rest := Collect(results[1..]);
        BatchResult(OptionToSeq(d) + rest.submitted, rest.outcome)
  }

  /** The result of each declaration, taken on its own. */
  function Stages(fileSets: seq<FileSet>, ctx: Context, rejects: FileSetDescriptor -> Option<string>): seq<Staged>
  {
    seq(|fileSets|, i requires 0 <= i < |fileSets| => StageFileSet(fileSets[i], ctx, rejects))
  }

  /** A declaration whose resolved directory does not exist is skipped: no error, no descriptor, no archiver call. */
  lemma MissingDirectorySkipped(fileSet: FileSet, ctx: Context, rejects: FileSetDescriptor -> Option<string>, saved: Overrides)
    requires ctx.env.getOutputDirectory(DestinationTemplate(fileSet), ctx.config.finalName, ctx.config,
                                        ctx.moduleProject, ctx.project).Success?
    requires !ctx.fs.Exists(GetFileSetDirectory(fileSet, ctx.project.basedir, ctx.archiveBaseDir, ctx.env.paths))
    ensures StageFileSet(fileSet, ctx, rejects) == Success(None)
    ensures StageCalls(fileSet, ctx, saved) == []
  {
  }

  /** A declaration resolving to the filesystem root fails with the formatting error, and no archiver call is made. */
  lemma RootDirectoryRejected(fileSet: FileSet, ctx: Context, rejects: FileSetDescriptor -> Option<string>, saved: Overrides)
    requires ctx.env.getOutputDirectory(DestinationTemplate(fileSet), ctx.config.finalName, ctx.config,
                                        ctx.moduleProject, ctx.project).Success?
    requires ctx.fs.Exists(ctx.env.paths.separator)
    requires GetFileSetDirectory(fileSet, ctx.project.basedir, ctx.archiveBaseDir, ctx.env.paths) == ctx.env.paths.separator
    requires ctx.env.fileSetTransformers(ctx.config, fileSet.filtered, fileSet.lineEnding).Success?
    ensures StageFileSet(fileSet, ctx, rejects) == Failure(RootError(ctx.env.paths.separator))
    ensures StageCalls(fileSet, ctx, saved) == []
  {
  }

  /** The declarations of a batch, in order, up to the first error. */
  function RunFileSets(fileSets: seq<FileSet>, ctx: Context, rejects: FileSetDescriptor -> Option<string>): BatchResult
  {
    Collect(Stages(fileSets, ctx, rejects))
  }

  /** The error for an archive base directory that is missing or not a directory. */
  function BaseDirectoryError(archiveBaseDir: Option<string>, fs: FileSystem, paths: PathOps): Option<AssemblyError>
  {
    if archiveBaseDir.None? then None
    else if !fs.Exists(archiveBaseDir.value) then
      Some(ArchiveCreation("The archive base directory '" + paths.absolutePath(archiveBaseDir.value) + "' does not exist"))
    else if !fs.IsDirectory(archiveBaseDir.value) then
      Some(ArchiveCreation("The archive base directory '" + paths.absolutePath(archiveBaseDir.value)
                           + "' exists, but it is not a directory"))
    else None
  }

  /** `execute`: the base-directory check, then the declarations. */
  function RunBatch(fileSets: seq<FileSet>, config: ConfigSource, env: Collaborators, fs: FileSystem,
                    project: MavenProject, moduleProject: Option<MavenProject>,
                    rejects: FileSetDescriptor -> Option<string>): BatchResult
  {
    match BaseDirectoryError(config.archiveBaseDirectory, fs, env.paths)
    case Some(e) => BatchResult([], Fail(e))
    case None => RunFileSets(fileSets, Context(config, env, fs, project, moduleProject, config.archiveBaseDirectory), rejects)
  }

  /** Folding `a` then `b` is folding `a + b`, except that nothing of `b` counts once `a` has failed. */
  lemma {:induction false} CollectAppend(a: seq<Staged>, b: seq<Staged>)
    ensures var first, rest := Collect(a), Collect(b);
            Collect(a + b)
              == if first.outcome.Fail? then first else BatchResult(first.submitted + rest.submitted, rest.outcome)
  {
    if a == [] {
      assert a + b == b;
    } else {
      assert (a + b)[0] == a[0] && (a + b)[1..] == a[1..] + b;
      CollectAppend(a[1..], b);
      match a[0]
      case Failure(e) =>
      case Success(d) =>
        var x, y, z := OptionToSeq(d), Collect(a[1..]).submitted, Collect(b).submitted;
        assert x + (y + z) == (x + y) + z;
    }
  }

  /** One more declaration: once the earlier ones have passed, its result decides the outcome and adds its descriptor. */
  lemma RunFileSetsExtend(fileSets: seq<FileSet>, i: nat, ctx: Context, rejects: FileSetDescriptor -> Option<string>)
    requires i < |fileSets|
    ensures var before, r := RunFileSets(fileSets[..i], ctx, rejects), StageFileSet(fileSets[i], ctx, rejects);
            RunFileSets(fileSets[..i + 1], ctx, rejects)
              == if before.outcome.Fail? then before
                 else BatchResult(before.submitted + SubmittedBy(r), OutcomeOf(r))
  {
    var r := StageFileSet(fileSets[i], ctx, rejects);
    assert Stages(fileSets[..i + 1], ctx, rejects) == Stages(fileSets[..i], ctx, rejects) + [r];
    CollectAppend(Stages(fileSets[..i], ctx, rejects), [r]);
    assert [r][1..] == [];
  }

  /**
   * A declaration that fails aborts the batch: when the declarations before
   * position `k` pass and the one at `k` fails, the batch reports that error
   * and holds only what the earlier ones submitted.
   */
  lemma FirstFailureAbortsBatch(fileSets: seq<FileSet>, k: nat, ctx: Context, rejects: FileSetDescriptor -> Option<string>)
    requires k < |fileSets|
    requires RunFileSets(fileSets[..k], ctx, rejects).outcome == Pass
    requires StageFileSet(fileSets[k], ctx, rejects).Failure?
    ensures RunFileSets(fileSets, ctx, rejects)
         == BatchResult(RunFileSets(fileSets[..k], ctx, rejects).submitted, Fail(StageFileSet(fileSets[k], ctx, rejects).error))
  {
    var all, before := Stages(fileSets, ctx, rejects), Stages(fileSets[..k], ctx, rejects);
    var after := all[k..];
    assert all == before + after;
    CollectAppend(before, after);
    assert after[0] == StageFileSet(fileSets[k], ctx, rejects);
  }

  /** The archiver calls of each declaration, taken on its own, from override slots `saved`. */
  function CallsPerDeclaration(fileSets: seq<FileSet>, ctx: Context, saved: Overrides): seq<seq<ArchiverCall>>
  {
    seq(|fileSets|, i requires 0 <= i < |fileSets| => StageCalls(fileSets[i], ctx, saved))
  }

  /** Concatenates per-declaration calls in order, up to and including those of the first declaration that fails. */
  function CollectCalls(results: seq<Staged>, calls: seq<seq<ArchiverCall>>): seq<ArchiverCall>
    requires |results| == |calls|
  {
    if results == [] then []
    else calls[0] + (if results[0].Failure? then [] else CollectCalls(results[1..], calls[1..]))
  }

  /** The archiver calls of a batch: each declaration's calls in order, none after the first error. */
  function BatchCalls(fileSets: seq<FileSet>, ctx: Context, rejects: FileSetDescriptor -> Option<string>,
                      saved: Overrides): seq<ArchiverCall>
  {
    CollectCalls(Stages(fileSets, ctx, rejects), CallsPerDeclaration(fileSets, ctx, saved))
  }

  /** The archiver calls of `execute`: none when the archive base directory is bad, else those of the batch. */
  function RunBatchCalls(fileSets: seq<FileSet>, config: ConfigSource, env: Collaborators, fs: FileSystem,
                         project: MavenProject, moduleProject: Option<MavenProject>,
                         rejects: FileSetDescriptor -> Option<string>, saved: Overrides): seq<ArchiverCall>
  {
    if BaseDirectoryError(config.archiveBaseDirectory, fs, env.paths).Some? then []
    else BatchCalls(fileSets, Context(config, env, fs, project, moduleProject, config.archiveBaseDirectory), rejects, saved)
  }

  /** Calls of `a` then `b` are the calls of `a + b`, except that `b` makes none once `a` has failed. */
  lemma {:induction false} CollectCallsAppend(a: seq<Staged>, ca: seq<seq<ArchiverCall>>,
                                              b: seq<Staged>, cb: seq<seq<ArchiverCall>>)
    requires |a| == |ca| && |b| == |cb|
    ensures CollectCalls(a + b, ca + cb)
         == CollectCalls(a, ca) + (if Collect(a).outcome.Fail? then [] else CollectCalls(b, cb))
  {
    if a == [] {
      assert a + b == b && ca + cb == cb;
    } else {
      var ab, cab := a + b, ca + cb;
      assert ab[0] == a[0] && ab[1..] == a[1..] + b;
      assert cab[0] == ca[0] && cab[1..] == ca[1..] + cb;
      if a[0].Failure? {
        assert CollectCalls(ab, cab) == ca[0] + [];
      } else {
        CollectCallsAppend(a[1..], ca[1..], b, cb);
        var y := CollectCalls(a[1..], ca[1..]);
        var z := if Collect(a[1..]).outcome.Fail? then [] else CollectCalls(b, cb);
        assert CollectCalls(ab, cab) == ca[0] + (y + z);
        AppendTwo(ca[0], y, z);
      }
    }
  }

  /** One more result: once the earlier ones have passed, its calls follow theirs. */
  lemma CollectCallsExtend(results: seq<Staged>, calls: seq<seq<ArchiverCall>>, i: nat)
    requires |results| == |calls| && i < |results|
    ensures CollectCalls(results[..i + 1], calls[..i + 1])
         == CollectCalls(results[..i], calls[..i]) + (if Collect(results[..i]).outcome.Fail? then [] else calls[i])
  {
    assert results[..i + 1] == results[..i] + [results[i]];
    assert calls[..i + 1] == calls[..i] + [calls[i]];
    CollectCallsAppend(results[..i], calls[..i], [results[i]], [calls[i]]);
    assert [results[i]][1..] == [] && [calls[i]][1..] == [];
  }

  /** After the first failing result, no further calls are collected. */
  lemma CollectCallsStop(results: seq<Staged>, calls: seq<seq<ArchiverCall>>, k: nat)
    requires |results| == |calls| && k < |results|
    requires Collect(results[..k]).outcome == Pass && results[k].Failure?
    ensures CollectCalls(results, calls) == CollectCalls(results[..k + 1], calls[..k + 1])
  {
    assert results == results[..k] + results[k..] && calls == calls[..k] + calls[k..];
    CollectCallsAppend(results[..k], calls[..k], results[k..], calls[k..]);
    assert results[k..][0] == results[k] && calls[k..][0] == calls[k];
    CollectCallsExtend(results, calls, k);
  }

  /** The results of a prefix of the declarations are a prefix of the results. */
  lemma StagesPrefix(fileSets: seq<FileSet>, n: nat, ctx: Context, rejects: FileSetDescriptor -> Option<string>)
    requires n <= |fileSets|
    ensures Stages(fileSets[..n], ctx, rejects) == Stages(fileSets, ctx, rejects)[..n]
  {
  }

  /** The calls of a prefix of the declarations are a prefix of the calls. */
  lemma CallsPerDeclarationPrefix(fileSets: seq<FileSet>, n: nat, ctx: Context, saved: Overrides)
    requires n <= |fileSets|
    ensures CallsPerDeclaration(fileSets[..n], ctx, saved) == CallsPerDeclaration(fileSets, ctx, saved)[..n]
  {
  }

  /** One more declaration: once the earlier ones have passed, its calls follow theirs. */
  lemma BatchCallsExtend(fileSets: seq<FileSet>, i: nat, ctx: Context, rejects: FileSetDescriptor -> Option<string>,
                         saved: Overrides)
    requires i < |fileSets|
    ensures BatchCalls(fileSets[..i + 1], ctx, rejects, saved)
         == BatchCalls(fileSets[..i], ctx, rejects, saved)
            + (if RunFileSets(fileSets[..i], ctx, rejects).outcome.Fail? then [] else StageCalls(fileSets[i], ctx, saved))
  {
    var rs, cs := Stages(fileSets, ctx, rejects), CallsPerDeclaration(fileSets, ctx, saved);
    StagesPrefix(fileSets, i, ctx, rejects);
    StagesPrefix(fileSets, i + 1, ctx, rejects);
    CallsPerDeclarationPrefix(fileSets, i, ctx, saved);
    CallsPerDeclarationPrefix(fileSets, i + 1, ctx, saved);
    CollectCallsExtend(rs, cs, i);
  }

  /**
   * A declaration that fails ends the archiver's work: when the declarations
   * before position `k` pass and the one at `k` fails, no declaration after
   * `k` makes a call.
   */
  lemma FirstFailureStopsCalls(fileSets: seq<FileSet>, k: nat, ctx: Context, rejects: FileSetDescriptor -> Option<string>,
                               saved: Overrides)
    requires k < |fileSets|
    requires RunFileSets(fileSets[..k], ctx, rejects).outcome == Pass
    requires StageFileSet(fileSets[k], ctx, rejects).Failure?
    ensures BatchCalls(fileSets, ctx, rejects, saved) == BatchCalls(fileSets[..k + 1], ctx, rejects, saved)
  {
    var rs, cs := Stages(fileSets, ctx, rejects), CallsPerDeclaration(fileSets, ctx, saved);
    StagesPrefix(fileSets, k, ctx, rejects);
    StagesPrefix(fileSets, k + 1, ctx, rejects);
    CallsPerDeclarationPrefix(fileSets, k + 1, ctx, saved);
    CollectCallsStop(rs, cs, k);
  }

  /** Each declaration's calls leave the override slots as it found them. */
  lemma StageCallsRestoreOverrides(fileSet: FileSet, ctx: Context, saved: Overrides)
    ensures Replay(saved, StageCalls(fileSet, ctx, saved)) == saved
  {
    match PlanFileSet(fileSet, ctx)
    case Success(Some(cfg)) => ExecuteRestoresOverrides(cfg, saved, ctx.fs, ctx.env.fixRelativeRefs);
    case _ =>
  }

  /** Folding calls that each restore the slots restores them. */
  lemma {:induction false} CollectCallsRestore(results: seq<Staged>, calls: seq<seq<ArchiverCall>>, o: Overrides)
    requires |results| == |calls|
    requires forall i :: 0 <= i < |calls| ==> Replay(o, calls[i]) == o
    ensures Replay(o, CollectCalls(results, calls)) == o
  {
    if results != [] {
      var rest := if results[0].Failure? then [] else CollectCalls(results[1..], calls[1..]);
      if results[0].Success? {
        CollectCallsRestore(results[1..], calls[1..], o);
      }
      ReplayConcat(o, calls[0], rest);
    }
  }

  /** A whole batch leaves the archiver's override slots as it found them. */
  lemma BatchRestoresOverrides(fileSets: seq<FileSet>, ctx: Context, rejects: FileSetDescriptor -> Option<string>,
                               saved: Overrides)
    ensures Replay(saved, BatchCalls(fileSets, ctx, rejects, saved)) == saved
  {
    var cs := CallsPerDeclaration(fileSets, ctx, saved);
    forall i | 0 <= i < |cs|
      ensures Replay(saved, cs[i]) == saved
    {
      StageCallsRestoreOverrides(fileSets[i], ctx, saved);
    }
    CollectCallsRestore(Stages(fileSets, ctx, rejects), cs, saved);
  }

  /** A batch without declarations passes, submits nothing and makes no archiver call. */
  lemma EmptyBatch(ctx: Context, rejects: FileSetDescriptor -> Option<string>, saved: Overrides)
    ensures RunFileSets([], ctx, rejects) == BatchResult([], Pass)
    ensures BatchCalls([], ctx, rejects, saved) == []
  {
    assert Stages([], ctx, rejects) == [];
  }

  /** Every descriptor a fold submits is one of the results it folded. */
  lemma {:induction false} CollectSubmitsResults(results: seq<Staged>)
    ensures forall d | d in Collect(results).submitted :: exists i :: 0 <= i < |results| && results[i] == Success(Some(d))
  {
    if results != [] {
      CollectSubmitsResults(results[1..]);
      forall d | d in Collect(results).submitted
        ensures exists i :: 0 <= i < |results| && results[i] == Success(Some(d))
      {
        if results[0] != Success(Some(d)) {
          var j :| 0 <= j < |results[1..]| && results[1..][j] == Success(Some(d));
          assert results[j + 1] == Success(Some(d));
        }
      }
    }
  }

  /** What a staged declaration hands to the archiver is safe: an existing directory that is not the root, and a prefix that is neither `"."` nor `".."`. */
  predicate SafeSubmission(d: FileSetDescriptor, ctx: Context)
  {
    && ctx.fs.Exists(d.directory)
    && d.directory != ctx.env.paths.separator
    && d.prefix != Some(".")
    && d.prefix != Some("..")
  }

  /** A declaration's descriptor is safe and names the directory `getFileSetDirectory` resolved. */
  lemma StagedFileSetIsSafe(fileSet: FileSet, ctx: Context, rejects: FileSetDescriptor -> Option<string>)
    requires StageFileSet(fileSet, ctx, rejects).Success? && StageFileSet(fileSet, ctx, rejects).value.Some?
    ensures SafeSubmission(StageFileSet(fileSet, ctx, rejects).value.value, ctx)
    ensures StageFileSet(fileSet, ctx, rejects).value.value.directory
         == GetFileSetDirectory(fileSet, ctx.project.basedir, ctx.archiveBaseDir, ctx.env.paths)
  {
  }

  /** Every descriptor a batch submits came from one of its declarations and is safe. */
  lemma SubmittedFileSetsAreSafe(fileSets: seq<FileSet>, ctx: Context, rejects: FileSetDescriptor -> Option<string>)
    ensures forall d | d in RunFileSets(fileSets, ctx, rejects).submitted :: SafeSubmission(d, ctx)
  {
    var stages := Stages(fileSets, ctx, rejects);
    CollectSubmitsResults(stages);
    forall d | d in RunFileSets(fileSets, ctx, rejects).submitted
      ensures SafeSubmission(d, ctx)
    {
      var i :| 0 <= i < |stages| && stages[i] == Success(Some(d));
      StagedFileSetIsSafe(fileSets[i], ctx, rejects);
    }
  }

  /**
   * Configures a fresh directory task from a declaration: the mode and owner
   * setters are called only for a converted mode other than -1 and an owner
   * that is present; the remaining settings are copied unconditionally.
   */
  method ConfigureTask(task: AddDirectoryTask, fileSet: FileSet, dest: string, env: Collaborators)
    requires task.Config() == InitialConfig(task.directory, task.transformer)
    modifies task
    ensures task.Config() == TaskConfig(fileSet, task.directory, task.transformer, dest, env)
  {
    var dirMode := env.modeToInt(fileSet.directoryMode);
    if dirMode != -1 {
      task.SetDirectoryMode(dirMode);
    }
    var fileMode := env.modeToInt(fileSet.fileMode);
    if fileMode != -1 {
      task.SetFileMode(fileMode);
    }
    var directoryOwner := env.ownerInfoToOwner(fileSet.directoryOwner);
    if directoryOwner.Some? {
      task.SetDirectoryOwner(directoryOwner);
    }
    var fileOwner := env.ownerInfoToOwner(fileSet.fileOwner);
    if fileOwner.Some? {
      task.SetFileOwner(fileOwner);
    }

    task.SetUseDefaultExcludes(fileSet.useDefaultExcludes);
    task.SetExcludes(fileSet.excludes);
    task.SetIncludes(fileSet.includes);
    task.SetOutputDirectory(Some(dest));
  }

  /** Builds, configures and executes the directory task for a planned declaration. */
  method RunDirectoryTask(fileSet: FileSet, dir: string, transformer: Option<Transformer>, dest: string,
                          env: Collaborators, archiver: Archiver, fs: FileSystem) returns (outcome: Outcome<AssemblyError>)
    requires archiver.Valid()
    modifies archiver
    ensures archiver.Valid() && archiver.Slots() == old(archiver.Slots())
    ensures var cfg := TaskConfig(fileSet, dir, transformer, dest, env);
            var r := StageDirectory(cfg, fs, env.fixRelativeRefs, archiver.rejects);
            && outcome == OutcomeOf(r)
            && archiver.fileSets == old(archiver.fileSets) + SubmittedBy(r)
            && archiver.calls == old(archiver.calls) + ExecuteCalls(cfg, old(archiver.Slots()), fs, env.fixRelativeRefs)
  {
    var task := new AddDirectoryTask(dir, transformer);
    ConfigureTask(task, fileSet, dest, env);
    outcome := task.Execute(archiver, fs, env.fixRelativeRefs);
  }

  // ---------------------------------------------------------------------------
  // The task
  // ---------------------------------------------------------------------------

  class AddFileSetsTask {
    const fileSets: seq<FileSet>
    var project: Option<MavenProject>
    var moduleProject: Option<MavenProject>

    constructor (fileSets: seq<FileSet>)
      ensures this.fileSets == fileSets && project.None? && moduleProject.None?
    {
      this.fileSets := fileSets;
      project, moduleProject := None, None;
    }

    method SetProject(project: Option<MavenProject>)
      modifies this`project
      ensures this.project == project
    {
      this.project := project;
    }

    method SetModuleProject(moduleProject: Option<MavenProject>)
      modifies this`moduleProject
      ensures this.moduleProject == moduleProject
    {
      this.moduleProject := moduleProject;
    }

    /**
     * `execute(archiver, configSource)`: the outcome, the accepted descriptors
     * and the archiver calls are those of `RunBatch` and `RunBatchCalls`, so
     * no declaration after a failing one touches the archiver; a bad archive
     * base directory fails before any call on the archiver; the override
     * slots end as they began.
     */
    method Execute(archiver: Archiver, config: ConfigSource, env: Collaborators, fs: FileSystem)
      returns (outcome: Outcome<AssemblyError>)
      requires archiver.Valid()
      modifies this`project, archiver
      ensures archiver.Valid() && archiver.Slots() == old(archiver.Slots())
      ensures var run := RunBatch(fileSets, config, env, fs, EffectiveProject(old(project), config), moduleProject, archiver.rejects);
              && outcome == run.outcome
              && archiver.fileSets == old(archiver.fileSets) + run.submitted
      ensures archiver.calls == old(archiver.calls)
                + RunBatchCalls(fileSets, config, env, fs, EffectiveProject(old(project), config), moduleProject,
                                archiver.rejects, old(archiver.Slots()))
      ensures BaseDirectoryError(config.archiveBaseDirectory, fs, env.paths).Some? ==>
                archiver.calls == old(archiver.calls) && project == old(project)
      ensures BaseDirectoryError(config.archiveBaseDirectory, fs, env.paths).None? && fileSets != [] ==>
                project == Some(EffectiveProject(old(project), config))
      ensures fileSets == [] ==> project == old(project)
    {
      var archiveBaseDir := config.archiveBaseDirectory;
      if archiveBaseDir.Some? {
        if !fs.Exists(archiveBaseDir.value) {
          return Fail(ArchiveCreation("The archive base directory '" + env.paths.absolutePath(archiveBaseDir.value)
                                      + "' does not exist"));
        } else if !fs.IsDirectory(archiveBaseDir.value) {
          return Fail(ArchiveCreation("The archive base directory '" + env.paths.absolutePath(archiveBaseDir.value)
                                      + "' exists, but it is not a directory"));
        }
      }
      assert BaseDirectoryError(config.archiveBaseDirectory, fs, env.paths).None?;
      outcome := AddAll(archiver, config, env, fs);
    }

    /** The loop of `execute`: every declaration in order, up to the first error, with the calls of `BatchCalls`. */
    method AddAll(archiver: Archiver, config: ConfigSource, env: Collaborators, fs: FileSystem)
      returns (outcome: Outcome<AssemblyError>)
      requires archiver.Valid()
      modifies this`project, archiver
      ensures archiver.Valid() && archiver.Slots() == old(archiver.Slots())
      ensures var ctx := Context(config, env, fs, EffectiveProject(old(project), config), moduleProject, config.archiveBaseDirectory);
              var run := RunFileSets(fileSets, ctx, archiver.rejects);
              && outcome == run.outcome
              && archiver.fileSets == old(archiver.fileSets) + run.submitted
              && archiver.calls == old(archiver.calls) + BatchCalls(fileSets, ctx, archiver.rejects, old(archiver.Slots()))
      ensures fileSets != [] ==> project == Some(EffectiveProject(old(project), config))
      ensures fileSets == [] ==> project == old(project)
    {
      ghost var ctx := Context(config, env, fs, EffectiveProject(project, config), moduleProject, config.archiveBaseDirectory);
      assert fileSets[..0] == [];
      EmptyBatch(ctx, archiver.rejects, archiver.Slots());
      var i := 0;
      while i < |fileSets|
        invariant 0 <= i <= |fileSets|
        invariant archiver.Valid() && archiver.Slots() == old(archiver.Slots())
        invariant RunFileSets(fileSets[..i], ctx, archiver.rejects).outcome == Pass
        invariant archiver.fileSets == old(archiver.fileSets) + RunFileSets(fileSets[..i], ctx, archiver.rejects).submitted
        invariant archiver.calls == old(archiver.calls) + BatchCalls(fileSets[..i], ctx, archiver.rejects, old(archiver.Slots()))
        invariant project == if i == 0 then old(project) else Some(ctx.project)
        invariant EffectiveProject(project, config) == ctx.project
      {
        var r := AddNext(i, archiver, config, env, fs, ctx, old(archiver.fileSets), old(archiver.calls));
        if r.Fail? {
          return r;
        }
        i := i + 1;
      }
      assert fileSets[..i] == fileSets;
      outcome := Pass;
    }

    /** One turn of the loop of `execute`: the declaration at `i`, after the earlier ones have passed. */
    method AddNext(i: nat, archiver: Archiver, config: ConfigSource, env: Collaborators, fs: FileSystem,
                   ghost ctx: Context, ghost base: seq<FileSetDescriptor>, ghost baseCalls: seq<ArchiverCall>)
      returns (outcome: Outcome<AssemblyError>)
      requires i < |fileSets| && archiver.Valid()
      requires ctx == Context(config, env, fs, EffectiveProject(project, config), moduleProject, config.archiveBaseDirectory)
      requires RunFileSets(fileSets[..i], ctx, archiver.rejects).outcome == Pass
      requires archiver.fileSets == base + RunFileSets(fileSets[..i], ctx, archiver.rejects).submitted
      requires archiver.calls == baseCalls + BatchCalls(fileSets[..i], ctx, archiver.rejects, archiver.Slots())
      modifies this`project, archiver
      ensures archiver.Valid() && archiver.Slots() == old(archiver.Slots())
      ensures project == Some(ctx.project)
      ensures outcome == RunFileSets(fileSets[..i + 1], ctx, archiver.rejects).outcome
      ensures archiver.fileSets == base + RunFileSets(fileSets[..i + 1], ctx, archiver.rejects).submitted
      ensures outcome.Fail? ==> RunFileSets(fileSets, ctx, archiver.rejects) == RunFileSets(fileSets[..i + 1], ctx, archiver.rejects)
      ensures archiver.calls == old(archiver.calls) + StageCalls(fileSets[i], ctx, old(archiver.Slots()))
      ensures archiver.calls == baseCalls + BatchCalls(fileSets[..i + 1], ctx, archiver.rejects, archiver.Slots())
      ensures outcome.Fail? ==> BatchCalls(fileSets, ctx, archiver.rejects, archiver.Slots())
                                == BatchCalls(fileSets[..i + 1], ctx, archiver.rejects, archiver.Slots())
    {
      ghost var saved, before := archiver.Slots(), BatchCalls(fileSets[..i], ctx, archiver.rejects, archiver.Slots());
      ghost var submitted := RunFileSets(fileSets[..i], ctx, archiver.rejects).submitted;
      outcome := AddFileSet(fileSets[i], archiver, config, env, fs, config.archiveBaseDirectory);
      RunFileSetsExtend(fileSets, i, ctx, archiver.rejects);
      AppendTwo(base, submitted, SubmittedBy(StageFileSet(fileSets[i], ctx, archiver.rejects)));
      BatchCallsExtend(fileSets, i, ctx, archiver.rejects, saved);
      ghost var staged := StageCalls(fileSets[i], ctx, saved);
      assert archiver.calls == (baseCalls + before) + staged;
      AppendTwo(baseCalls, before, staged);
      if outcome.Fail? {
        FirstFailureAbortsBatch(fileSets, i, ctx, archiver.rejects);
        FirstFailureStopsCalls(fileSets, i, ctx, archiver.rejects, archiver.Slots());
      }
    }

    /**
     * `addFileSet`: caches the project, then does what `StageFileSet` says;
     * the archiver sees calls only when a directory task runs, and then
     * exactly that task's calls.
     */
    method AddFileSet(fileSet: FileSet, archiver: Archiver, config: ConfigSource, env: Collaborators, fs: FileSystem,
                      archiveBaseDir: Option<string>) returns (outcome: Outcome<AssemblyError>)
      requires archiver.Valid()
      modifies this`project, archiver
      ensures archiver.Valid() && archiver.Slots() == old(archiver.Slots())
      ensures project == Some(EffectiveProject(old(project), config))
      ensures var ctx := Context(config, env, fs, EffectiveProject(old(project), config), moduleProject, archiveBaseDir);
              var r := StageFileSet(fileSet, ctx, archiver.rejects);
              && outcome == OutcomeOf(r)
              && archiver.fileSets == old(archiver.fileSets) + SubmittedBy(r)
              && archiver.calls == old(archiver.calls) + StageCalls(fileSet, ctx, old(archiver.Slots()))
    {
      if project.None? {
        project := Some(config.project);
      }
      outcome := StageDeclaration(fileSet, Context(config, env, fs, project.value, moduleProject, archiveBaseDir), archiver);
    }
  }

  /** The body of `addFileSet` once the project is known. */
  method StageDeclaration(fileSet: FileSet, ctx: Context, archiver: Archiver) returns (outcome: Outcome<AssemblyError>)
    requires archiver.Valid()
    modifies archiver
    ensures archiver.Valid() && archiver.Slots() == old(archiver.Slots())
    ensures var r := StageFileSet(fileSet, ctx, archiver.rejects);
            && outcome == OutcomeOf(r)
            && archiver.fileSets == old(archiver.fileSets) + SubmittedBy(r)
            && archiver.calls == old(archiver.calls) + StageCalls(fileSet, ctx, old(archiver.Slots()))
  {
    var destDirectory := fileSet.outputDirectory;
    if destDirectory.None? {
      destDirectory := fileSet.directory;
    }
    var interpolated := ctx.env.getOutputDirectory(destDirectory, ctx.config.finalName, ctx.config, ctx.moduleProject, ctx.project);
    if interpolated.Failure? {
      assert PlanFileSet(fileSet, ctx) == Failure(AssemblyFormatting(interpolated.error));
      return Fail(AssemblyFormatting(interpolated.error));
    }

    var fileSetDir := GetFileSetDirectory(fileSet, ctx.project.basedir, ctx.archiveBaseDir, ctx.env.paths);
    if !ctx.fs.Exists(fileSetDir) {
      assert PlanFileSet(fileSet, ctx) == Success(None);
      return Pass;
    }
    outcome := StageExistingDirectory(fileSet, ctx, interpolated.value, fileSetDir, archiver);
  }

  /** The rest of `addFileSet` once the destination is interpolated and the source directory is known to exist. */
  method StageExistingDirectory(fileSet: FileSet, ctx: Context, dest: string, fileSetDir: string, archiver: Archiver)
    returns (outcome: Outcome<AssemblyError>)
    requires archiver.Valid()
    requires ctx.env.getOutputDirectory(DestinationTemplate(fileSet), ctx.config.finalName, ctx.config,
                                        ctx.moduleProject, ctx.project) == Success(dest)
    requires fileSetDir == GetFileSetDirectory(fileSet, ctx.project.basedir, ctx.archiveBaseDir, ctx.env.paths)
    requires ctx.fs.Exists(fileSetDir)
    modifies archiver
    ensures archiver.Valid() && archiver.Slots() == old(archiver.Slots())
    ensures var r := StageFileSet(fileSet, ctx, archiver.rejects);
            && outcome == OutcomeOf(r)
            && archiver.fileSets == old(archiver.fileSets) + SubmittedBy(r)
            && archiver.calls == old(archiver.calls) + StageCalls(fileSet, ctx, old(archiver.Slots()))
  {
    var transformers := ctx.env.fileSetTransformers(ctx.config, fileSet.filtered, fileSet.lineEnding);
    if transformers.Failure? {
      assert PlanFileSet(fileSet, ctx) == Failure(AssemblyFormatting(transformers.error));
      return Fail(AssemblyFormatting(transformers.error));
    }
    outcome := StageTransformedDirectory(fileSet, ctx, dest, fileSetDir, transformers.value, archiver);
  }

  /** The root-directory guard of `addFileSet`, then the directory task. */
  method StageTransformedDirectory(fileSet: FileSet, ctx: Context, dest: string, fileSetDir: string,
                                   transformer: Option<Transformer>, archiver: Archiver)
    returns (outcome: Outcome<AssemblyError>)
    requires archiver.Valid()
    requires ctx.env.getOutputDirectory(DestinationTemplate(fileSet), ctx.config.finalName, ctx.config,
                                        ctx.moduleProject, ctx.project) == Success(dest)
    requires fileSetDir == GetFileSetDirectory(fileSet, ctx.project.basedir, ctx.archiveBaseDir, ctx.env.paths)
    requires ctx.fs.Exists(fileSetDir)
    requires ctx.env.fileSetTransformers(ctx.config, fileSet.filtered, fileSet.lineEnding) == Success(transformer)
    modifies archiver
    ensures archiver.Valid() && archiver.Slots() == old(archiver.Slots())
    ensures var r := StageFileSet(fileSet, ctx, archiver.rejects);
            && outcome == OutcomeOf(r)
            && archiver.fileSets == old(archiver.fileSets) + SubmittedBy(r)
            && archiver.calls == old(archiver.calls) + StageCalls(fileSet, ctx, old(archiver.Slots()))
  {
    if fileSetDir == ctx.env.paths.separator {
      assert PlanFileSet(fileSet, ctx) == Failure(RootError(ctx.env.paths.separator));
      return Fail(RootError(ctx.env.paths.separator));
    }
    assert PlanFileSet(fileSet, ctx) == Success(Some(TaskConfig(fileSet, fileSetDir, transformer, dest, ctx.env)));
    outcome := RunDirectoryTask(fileSet, fileSetDir, transformer, dest, ctx.env, archiver, ctx.fs);
  }
}
