/**
 * `AddDirectoryTask`: stages one source directory into the archiver.  It
 * normalises the destination prefix, installs the configured mode and owner
 * overrides on the archiver, submits a file-set descriptor when the directory
 * exists, and always restores exactly the overrides it changed.
 */
module DirectoryTask {
  import opened Wrappers
  import opened Plexus
  import opened Assembly

  /** The fields of an `AddDirectoryTask`, as one value. */
  datatype DirectoryTaskConfig = DirectoryTaskConfig(
    directory: string,
    transformer: Option<Transformer>,
    includes: Option<seq<string>>,
    excludes: Option<seq<string>>,
    outputDirectory: Option<string>,
    useDefaultExcludes: bool,
    directoryMode: int,
    fileMode: int,
    directoryOwner: Option<Owner>,
    fileOwner: Option<Owner>)

  /** A new task: no patterns, no prefix, default excludes on, no mode (-1) and no owner overrides. */
  function InitialConfig(directory: string, transformer: Option<Transformer>): DirectoryTaskConfig
  {
    DirectoryTaskConfig(directory, transformer, None, None, None, true, -1, -1, None, None)
  }

  // ---------------------------------------------------------------------------
  // Pattern normalisation
  // ---------------------------------------------------------------------------

  predicate IsSeparator(c: char)
  {
    c == '/' || c == '\\'
  }

  /** Drops one leading `/` or `\`, if there is one, and nothing else. */
  function StripLeadingSeparator(value: string): (r: string)
    ensures |value| - 1 <= |r| <= |value|
    ensures r == value[|value| - |r|..]
    ensures |r| < |value| <==> |value| > 0 && IsSeparator(value[0])
  {
    if |value| > 0 && IsSeparator(value[0]) then value[1..] else value
  }

  /** `normalize`: resolve relative references with the foreign utility, then strip one leading separator. */
  function Normalize(fixRelativeRefs: string -> string, pattern: string): (r: string)
    ensures |fixRelativeRefs(pattern)| - 1 <= |r| <= |fixRelativeRefs(pattern)|
    ensures |r| < |fixRelativeRefs(pattern)| <==> |fixRelativeRefs(pattern)| > 0 && IsSeparator(fixRelativeRefs(pattern)[0])
    ensures |r| < |fixRelativeRefs(pattern)| ==> r == fixRelativeRefs(pattern)[1..]
    ensures |r| == |fixRelativeRefs(pattern)| ==> r == fixRelativeRefs(pattern)
  {
    StripLeadingSeparator(fixRelativeRefs(pattern))
  }

  /** Every pattern normalised, in order. */
  function NormalizeAll(fixRelativeRefs: string -> string, patterns: seq<string>): seq<string>
  {
    seq(|patterns|, k requires 0 <= k < |patterns| => Normalize(fixRelativeRefs, patterns[k]))
  }

  /** Fills a new array with the normalised patterns, as the loops of `execute` fill `includesArray` and `excludesArray`. */
  method NormalizePatterns(patterns: seq<string>, fixRelativeRefs: string -> string) returns (normalized: array<string>)
    ensures normalized.Length == |patterns|
    ensures forall k :: 0 <= k < |patterns| ==> normalized[k] == Normalize(fixRelativeRefs, patterns[k])
  {
    normalized := new string[|patterns|];
    var i := 0;
    while i < |patterns|
      invariant 0 <= i <= |patterns|
      invariant forall k :: 0 <= k < i ==> normalized[k] == Normalize(fixRelativeRefs, patterns[k])
    {
      normalized[i] := Normalize(fixRelativeRefs, patterns[i]);
      i := i + 1;
    }
  }

  // ---------------------------------------------------------------------------
  // What one execution submits and reports
  // ---------------------------------------------------------------------------

  /** The prefix a task submits: `"."` is rewritten to `""`, anything else is kept. */
  function ArchivePrefix(outputDirectory: Option<string>): Option<string>
  {
    if outputDirectory == Some(".") then Some("") else outputDirectory
  }

  /** The submitted includes: absent when none are configured, otherwise every one normalised. */
  function IncludePatterns(cfg: DirectoryTaskConfig, fixRelativeRefs: string -> string): Option<seq<string>>
  {
    if cfg.includes.Some? && |cfg.includes.value| > 0 then Some(NormalizeAll(fixRelativeRefs, cfg.includes.value)) else None
  }

  /** The submitted excludes: never absent, empty when none are configured. */
  function ExcludePatterns(cfg: DirectoryTaskConfig, fixRelativeRefs: string -> string): seq<string>
  {
    if cfg.excludes.Some? && |cfg.excludes.value| > 0 then NormalizeAll(fixRelativeRefs, cfg.excludes.value) else []
  }

  /** The descriptor a task submits for its directory. */
  function Descriptor(cfg: DirectoryTaskConfig, fixRelativeRefs: string -> string): FileSetDescriptor
  {
    FileSetDescriptor(
      cfg.directory,
      ArchivePrefix(cfg.outputDirectory),
      IncludePatterns(cfg, fixRelativeRefs),
      ExcludePatterns(cfg, fixRelativeRefs),
      cfg.useDefaultExcludes,
      cfg.transformer)
  }

  /** The error for a prefix of `".."`. */
  function OutsideRootError(directory: string): AssemblyError
  {
    ArchiveCreation("Cannot add source directory: " + directory + " to archive-path: " + ".."
                    + ". All paths must be within the archive root directory.")
  }

  /** The error wrapping an archiver's rejection message. */
  function AddDirectoryError(message: string): AssemblyError
  {
    ArchiveCreation("Error adding directory to archive: " + message)
  }

  /**
   * What executing a task with configuration `cfg` does: fail on a prefix of
   * `".."`, skip a directory that does not exist, or submit its descriptor,
   * which the archiver accepts (the descriptor is the result) or rejects.
   */
  function StageDirectory(cfg: DirectoryTaskConfig, fs: FileSystem, fixRelativeRefs: string -> string,
                          rejects: FileSetDescriptor -> Option<string>): (r: Result<Option<FileSetDescriptor>, AssemblyError>)
    ensures r.Failure? ==> r.error.ArchiveCreation?
    ensures r.Success? && r.value.None? <==> cfg.outputDirectory != Some("..") && !fs.Exists(cfg.directory)
    ensures r.Success? && r.value.Some? ==>
              && r.value.value == Descriptor(cfg, fixRelativeRefs)
              && fs.Exists(r.value.value.directory)
              && r.value.value.prefix != Some(".")
              && r.value.value.prefix != Some("..")
              && rejects(r.value.value).None?
  {
    if cfg.outputDirectory == Some("..") then
      Failure(OutsideRootError(cfg.directory))
    else if !fs.Exists(cfg.directory) then
      Success(None)
    else
      var d := Descriptor(cfg, fixRelativeRefs);
      match rejects(d)
      case Some(message) => Failure(AddDirectoryError(message))
      case None => Success(Some(d))
  }

  /** The outcome a staging result reports to the caller. */
  function OutcomeOf<T>(r: Result<T, AssemblyError>): Outcome<AssemblyError>
  {
    if r.Failure? then Fail(r.error) else Pass
  }

  /** The descriptors a staging result leaves in the archiver. */
  function SubmittedBy(r: Result<Option<FileSetDescriptor>, AssemblyError>): seq<FileSetDescriptor>
  {
    if r.Success? then OptionToSeq(r.value) else []
  }

  // ---------------------------------------------------------------------------
  // The calls one execution makes on the archiver
  // ---------------------------------------------------------------------------

  /** Reading the four old override values. */
  function SaveCalls(): seq<ArchiverCall>
  {
    [GetOverrideDirectoryMode, GetOverrideFileMode, GetOverrideDirectoryOwner, GetOverrideFileOwner]
  }

  /** Writing each configured override (mode other than -1, owner present). */
  function ApplyCalls(cfg: DirectoryTaskConfig): seq<ArchiverCall>
  {
    (if cfg.directoryMode != -1 then [SetDirectoryMode(cfg.directoryMode)] else [])
    + (if cfg.fileMode != -1 then [SetFileMode(cfg.fileMode)] else [])
    + (if cfg.directoryOwner.Some? then [SetDirectoryOwner(cfg.directoryOwner)] else [])
    + (if cfg.fileOwner.Some? then [SetFileOwner(cfg.fileOwner)] else [])
  }

  /** Submitting the descriptor, when the directory exists. */
  function SubmitCalls(cfg: DirectoryTaskConfig, fs: FileSystem, fixRelativeRefs: string -> string): seq<ArchiverCall>
  {
    if fs.Exists(cfg.directory) then [AddFileSet(Descriptor(cfg, fixRelativeRefs))] else []
  }

  /** Writing back the saved value of each override that was applied (owners first, as the `finally` block does). */
  function RestoreCalls(cfg: DirectoryTaskConfig, saved: Overrides): seq<ArchiverCall>
  {
    (if cfg.fileOwner.Some? then [SetFileOwner(saved.fileOwner)] else [])
    + (if cfg.directoryOwner.Some? then [SetDirectoryOwner(saved.directoryOwner)] else [])
    + (if cfg.directoryMode != -1 then [SetDirectoryMode(saved.directoryMode)] else [])
    + (if cfg.fileMode != -1 then [SetFileMode(saved.fileMode)] else [])
  }

  /** Every call of one execution, in order, given the slots found on entry. */
  function ExecuteCalls(cfg: DirectoryTaskConfig, saved: Overrides, fs: FileSystem,
                        fixRelativeRefs: string -> string): seq<ArchiverCall>
  {
    if cfg.outputDirectory == Some("..") then []
    else SaveCalls() + ApplyCalls(cfg) + SubmitCalls(cfg, fs, fixRelativeRefs) + RestoreCalls(cfg, saved)
  }

  /** The override slots while the descriptor is submitted: configured values where set, the old ones elsewhere. */
  function Configured(cfg: DirectoryTaskConfig, o: Overrides): Overrides
  {
    Overrides(
      if cfg.directoryMode != -1 then cfg.directoryMode else o.directoryMode,
      if cfg.fileMode != -1 then cfg.fileMode else o.fileMode,
      if cfg.directoryOwner.Some? then cfg.directoryOwner else o.directoryOwner,
      if cfg.fileOwner.Some? then cfg.fileOwner else o.fileOwner)
  }

  lemma ReplaySingle(o: Overrides, c: ArchiverCall)
    ensures Replay(o, [c]) == Effect(o, c)
  {
    assert [c][..0] == [];
  }

  lemma ReplayOptional(o: Overrides, b: bool, c: ArchiverCall)
    ensures Replay(o, if b then [c] else []) == if b then Effect(o, c) else o
  {
    if b { ReplaySingle(o, c); }
  }

  /** Replaying one more optional call. */
  lemma ReplaySnocOptional(o: Overrides, s: seq<ArchiverCall>, b: bool, c: ArchiverCall)
    ensures Replay(o, s + (if b then [c] else [])) == if b then Effect(Replay(o, s), c) else Replay(o, s)
  {
    if b {
      assert (s + [c])[..|s + [c]| - 1] == s;
    } else {
      assert s + [] == s;
    }
  }

  /** Applying the configured overrides yields `Configured`. */
  lemma ReplayApplyCalls(cfg: DirectoryTaskConfig, o: Overrides)
    ensures Replay(o, ApplyCalls(cfg)) == Configured(cfg, o)
  {
    var a := if cfg.directoryMode != -1 then [SetDirectoryMode(cfg.directoryMode)] else [];
    var b := if cfg.fileMode != -1 then [SetFileMode(cfg.fileMode)] else [];
    var c := if cfg.directoryOwner.Some? then [SetDirectoryOwner(cfg.directoryOwner)] else [];
    var d := if cfg.fileOwner.Some? then [SetFileOwner(cfg.fileOwner)] else [];
    var target := Configured(cfg, o);
    ReplayOptional(o, cfg.directoryMode != -1, SetDirectoryMode(cfg.directoryMode));
    assert Replay(o, a) == o.(directoryMode := target.directoryMode);
    ReplaySnocOptional(o, a, cfg.fileMode != -1, SetFileMode(cfg.fileMode));
    assert Replay(o, a + b) == o.(directoryMode := target.directoryMode, fileMode := target.fileMode);
    ReplaySnocOptional(o, a + b, cfg.directoryOwner.Some?, SetDirectoryOwner(cfg.directoryOwner));
    assert Replay(o, a + b + c) == target.(fileOwner := o.fileOwner);
    ReplaySnocOptional(o, a + b + c, cfg.fileOwner.Some?, SetFileOwner(cfg.fileOwner));
  }

  /** Writing back the saved values undoes `Configured`. */
  lemma ReplayRestoreCalls(cfg: DirectoryTaskConfig, o: Overrides)
    ensures Replay(Configured(cfg, o), RestoreCalls(cfg, o)) == o
  {
    var start := Configured(cfg, o);
    var a := if cfg.fileOwner.Some? then [SetFileOwner(o.fileOwner)] else [];
    var b := if cfg.directoryOwner.Some? then [SetDirectoryOwner(o.directoryOwner)] else [];
    var c := if cfg.directoryMode != -1 then [SetDirectoryMode(o.directoryMode)] else [];
    var d := if cfg.fileMode != -1 then [SetFileMode(o.fileMode)] else [];
    ReplayOptional(start, cfg.fileOwner.Some?, SetFileOwner(o.fileOwner));
    assert Replay(start, a) == start.(fileOwner := o.fileOwner);
    ReplaySnocOptional(start, a, cfg.directoryOwner.Some?, SetDirectoryOwner(o.directoryOwner));
    assert Replay(start, a + b) == start.(fileOwner := o.fileOwner, directoryOwner := o.directoryOwner);
    ReplaySnocOptional(start, a + b, cfg.directoryMode != -1, SetDirectoryMode(o.directoryMode));
    assert Replay(start, a + b + c) == o.(fileMode := start.fileMode);
    ReplaySnocOptional(start, a + b + c, cfg.fileMode != -1, SetFileMode(o.fileMode));
  }

  /** Save/restore round trip: whatever the outcome, one execution leaves the four slots as it found them. */
  lemma ExecuteRestoresOverrides(cfg: DirectoryTaskConfig, o: Overrides, fs: FileSystem, fixRelativeRefs: string -> string)
    ensures Replay(o, ExecuteCalls(cfg, o, fs, fixRelativeRefs)) == o
  {
    if cfg.outputDirectory != Some("..") {
      var save, apply := SaveCalls(), ApplyCalls(cfg);
      var submit, restore := SubmitCalls(cfg, fs, fixRelativeRefs), RestoreCalls(cfg, o);
      ReplayConcat(o, save + apply + submit, restore);
      ReplayConcat(o, save + apply, submit);
      ReplayConcat(o, save, apply);
      ReplayWithoutSetters(o, save);
      ReplayApplyCalls(cfg, o);
      ReplayWithoutSetters(Configured(cfg, o), submit);
      ReplayRestoreCalls(cfg, o);
    }
  }

  /** When the descriptor is submitted, the archiver holds the configured overrides and the old values of the others. */
  lemma SubmissionSeesConfiguredOverrides(cfg: DirectoryTaskConfig, o: Overrides, fs: FileSystem, fixRelativeRefs: string -> string)
    requires cfg.outputDirectory != Some("..") && fs.Exists(cfg.directory)
    ensures var calls := ExecuteCalls(cfg, o, fs, fixRelativeRefs);
            var k := 4 + |ApplyCalls(cfg)|;
            && k < |calls|
            && calls[k] == AddFileSet(Descriptor(cfg, fixRelativeRefs))
            && Replay(o, calls[..k]) == Configured(cfg, o)
  {
    var calls := ExecuteCalls(cfg, o, fs, fixRelativeRefs);
    var save, apply := SaveCalls(), ApplyCalls(cfg);
    var k := 4 + |apply|;
    assert calls == (save + apply) + ([AddFileSet(Descriptor(cfg, fixRelativeRefs))] + RestoreCalls(cfg, o));
    assert calls[..k] == save + apply;
    ReplayConcat(o, save, apply);
    ReplayWithoutSetters(o, save);
    ReplayApplyCalls(cfg, o);
  }

  /** A slot the task leaves unset (mode -1, owner absent) is never written during an execution. */
  lemma UnconfiguredSlotsUntouched(cfg: DirectoryTaskConfig, o: Overrides, fs: FileSystem, fixRelativeRefs: string -> string)
    ensures forall c | c in ExecuteCalls(cfg, o, fs, fixRelativeRefs) ::
              && (c.SetDirectoryMode? ==> cfg.directoryMode != -1)
              && (c.SetFileMode? ==> cfg.fileMode != -1)
              && (c.SetDirectoryOwner? ==> cfg.directoryOwner.Some?)
              && (c.SetFileOwner? ==> cfg.fileOwner.Some?)
  {
  }

  /** Rewriting a prefix of `"."` to `""` changes neither what is staged nor the calls made. */
  lemma PrefixRewriteInvisible(cfg: DirectoryTaskConfig, o: Overrides, fs: FileSystem, fixRelativeRefs: string -> string,
                               rejects: FileSetDescriptor -> Option<string>)
    requires cfg.outputDirectory != Some("..")
    ensures var rewritten := cfg.(outputDirectory := ArchivePrefix(cfg.outputDirectory));
            && StageDirectory(rewritten, fs, fixRelativeRefs, rejects) == StageDirectory(cfg, fs, fixRelativeRefs, rejects)
            && ExecuteCalls(rewritten, o, fs, fixRelativeRefs) == ExecuteCalls(cfg, o, fs, fixRelativeRefs)
  {
    var rewritten := cfg.(outputDirectory := ArchivePrefix(cfg.outputDirectory));
    assert Descriptor(rewritten, fixRelativeRefs) == Descriptor(cfg, fixRelativeRefs);
  }

  // ---------------------------------------------------------------------------
  // The task
  // ---------------------------------------------------------------------------

  class AddDirectoryTask {
    const directory: string
    const transformer: Option<Transformer>
    var includes: Option<seq<string>>
    var excludes: Option<seq<string>>
    var outputDirectory: Option<string>
    var useDefaultExcludes: bool
    var directoryMode: int
    var fileMode: int
    var directoryOwner: Option<Owner>
    var fileOwner: Option<Owner>

    /** The task's fields as one value. */
    function Config(): DirectoryTaskConfig
      reads this
    {
      DirectoryTaskConfig(directory, transformer, includes, excludes, outputDirectory, useDefaultExcludes,
                          directoryMode, fileMode, directoryOwner, fileOwner)
    }

    constructor (directory: string, transformer: Option<Transformer>)
      ensures Config() == InitialConfig(directory, transformer)
    {
      this.directory := directory;
      this.transformer := transformer;
      includes, excludes, outputDirectory := None, None, None;
      useDefaultExcludes := true;
      directoryMode, fileMode := -1, -1;
      directoryOwner, fileOwner := None, None;
    }

    constructor WithoutTransformer(directory: string)
      ensures Config() == InitialConfig(directory, None)
    {
      this.directory := directory;
      this.transformer := None;
      includes, excludes, outputDirectory := None, None, None;
      useDefaultExcludes := true;
      directoryMode, fileMode := -1, -1;
      directoryOwner, fileOwner := None, None;
    }

    method SetExcludes(excludes: Option<seq<string>>)
      modifies this`excludes
      ensures Config() == old(Config()).(excludes := excludes)
    {
      this.excludes := excludes;
    }

    method SetIncludes(includes: Option<seq<string>>)
      modifies this`includes
      ensures Config() == old(Config()).(includes := includes)
    {
      this.includes := includes;
    }

    method SetOutputDirectory(outputDirectory: Option<string>)
      modifies this`outputDirectory
      ensures Config() == old(Config()).(outputDirectory := outputDirectory)
    {
      this.outputDirectory := outputDirectory;
    }

    method SetDirectoryMode(directoryMode: int)
      modifies this`directoryMode
      ensures Config() == old(Config()).(directoryMode := directoryMode)
    {
      this.directoryMode := directoryMode;
    }

    method SetFileMode(fileMode: int)
      modifies this`fileMode
      ensures Config() == old(Config()).(fileMode := fileMode)
    {
      this.fileMode := fileMode;
    }

    method SetDirectoryOwner(directoryOwner: Option<Owner>)
      modifies this`directoryOwner
      ensures Config() == old(Config()).(directoryOwner := directoryOwner)
    {
      this.directoryOwner := directoryOwner;
    }

    method SetFileOwner(fileOwner: Option<Owner>)
      modifies this`fileOwner
      ensures Config() == old(Config()).(fileOwner := fileOwner)
    {
      this.fileOwner := fileOwner;
    }

    method SetUseDefaultExcludes(useDefaultExcludes: bool)
      modifies this`useDefaultExcludes
      ensures Config() == old(Config()).(useDefaultExcludes := useDefaultExcludes)
    {
      this.useDefaultExcludes := useDefaultExcludes;
    }

    /**
     * `execute(archiver)`.  The outcome and the accepted descriptors are those
     * of `StageDirectory`; the calls made are `ExecuteCalls`; the override
     * slots end as they began; a prefix of `"."` is rewritten to `""` in the
     * task itself.
     */
    method Execute(archiver: Archiver, fs: FileSystem, fixRelativeRefs: string -> string) returns (outcome: Outcome<AssemblyError>)
      requires archiver.Valid()
      modifies this`outputDirectory, archiver
      ensures archiver.Valid()
      ensures Config() == old(Config()).(outputDirectory := ArchivePrefix(old(outputDirectory)))
      ensures var r := StageDirectory(old(Config()), fs, fixRelativeRefs, archiver.rejects);
              && outcome == OutcomeOf(r)
              && archiver.fileSets == old(archiver.fileSets) + SubmittedBy(r)
      ensures archiver.Slots() == old(archiver.Slots())
      ensures archiver.calls == old(archiver.calls) + ExecuteCalls(old(Config()), old(archiver.Slots()), fs, fixRelativeRefs)
    {
      ghost var cfg := Config();
      if outputDirectory == Some(".") {
        outputDirectory := Some("");
      } else if outputDirectory == Some("..") {
        return Fail(OutsideRootError(directory));
      }
      PrefixRewriteInvisible(cfg, archiver.Slots(), fs, fixRelativeRefs, archiver.rejects);
      outcome := ExecuteWithinRoot(archiver, fs, fixRelativeRefs);
    }

    /** The part of `execute` after the prefix check: save, apply, submit if the directory exists, restore. */
    method ExecuteWithinRoot(archiver: Archiver, fs: FileSystem, fixRelativeRefs: string -> string) returns (outcome: Outcome<AssemblyError>)
      requires archiver.Valid() && outputDirectory != Some(".") && outputDirectory != Some("..")
      modifies archiver
      ensures archiver.Valid()
      ensures var r := StageDirectory(Config(), fs, fixRelativeRefs, archiver.rejects);
              && outcome == OutcomeOf(r)
              && archiver.fileSets == old(archiver.fileSets) + SubmittedBy(r)
      ensures archiver.Slots() == old(archiver.Slots())
      ensures archiver.calls == old(archiver.calls) + ExecuteCalls(Config(), old(archiver.Slots()), fs, fixRelativeRefs)
    {
      ghost var cfg, saved := Config(), archiver.Slots();
      var oldDirMode := archiver.GetOverrideDirectoryMode();
      var oldFileMode := archiver.GetOverrideFileMode();
      var oldDirOwner := archiver.GetOverrideDirectoryOwner();
      var oldFileOwner := archiver.GetOverrideFileOwner();
      ghost var afterSave := archiver.calls;
      assert afterSave == old(archiver.calls) + SaveCalls();

      var dirModeSet, fileModeSet, dirOwnerSet, fileOwnerSet := ApplyOverrides(archiver);

      outcome := SubmitIfExists(archiver, fs, fixRelativeRefs);

      // the `finally` block
      RestoreOverrides(archiver, Overrides(oldDirMode, oldFileMode, oldDirOwner, oldFileOwner),
                       dirModeSet, fileModeSet, dirOwnerSet, fileOwnerSet);

      AppendFour(old(archiver.calls), SaveCalls(), ApplyCalls(cfg), SubmitCalls(cfg, fs, fixRelativeRefs), RestoreCalls(cfg, saved));
    }

    /** Installs each configured override and reports which ones it set (the `try` block's first half). */
    method ApplyOverrides(archiver: Archiver) returns (dirModeSet: bool, fileModeSet: bool, dirOwnerSet: bool, fileOwnerSet: bool)
      requires archiver.Valid()
      modifies archiver
      ensures archiver.Valid() && archiver.fileSets == old(archiver.fileSets)
      ensures dirModeSet == (directoryMode != -1) && fileModeSet == (fileMode != -1)
      ensures dirOwnerSet == directoryOwner.Some? && fileOwnerSet == fileOwner.Some?
      ensures archiver.Slots() == Configured(Config(), old(archiver.Slots()))
      ensures archiver.calls == old(archiver.calls) + ApplyCalls(Config())
    {
      fileModeSet, dirModeSet := false, false;
      fileOwnerSet, dirOwnerSet := false, false;
      ghost var cfg, start, slots := Config(), archiver.calls, archiver.Slots();
      ghost var a := if directoryMode != -1 then [ArchiverCall.SetDirectoryMode(directoryMode)] else [];
      ghost var b := if fileMode != -1 then [ArchiverCall.SetFileMode(fileMode)] else [];
      ghost var c := if directoryOwner.Some? then [ArchiverCall.SetDirectoryOwner(directoryOwner)] else [];
      ghost var d := if fileOwner.Some? then [ArchiverCall.SetFileOwner(fileOwner)] else [];
      if directoryMode != -1 {
        archiver.SetDirectoryMode(directoryMode);
        dirModeSet := true;
      }
      assert archiver.calls == start + a;
      if fileMode != -1 {
        archiver.SetFileMode(fileMode);
        fileModeSet := true;
      }
      assert archiver.calls == start + a + b;
      if directoryOwner.Some? {
        archiver.SetDirectoryOwner(directoryOwner);
        dirOwnerSet := true;
      }
      assert archiver.calls == start + a + b + c;
      if fileOwner.Some? {
        archiver.SetFileOwner(fileOwner);
        fileOwnerSet := true;
      }
      assert archiver.calls == start + a + b + c + d;
      assert ApplyCalls(cfg) == a + b + c + d;
      AppendFour(start, a, b, c, d);
    }

    /** Builds and submits the descriptor when the directory exists; a rejection becomes an `ArchiveCreation` error. */
    method SubmitIfExists(archiver: Archiver, fs: FileSystem, fixRelativeRefs: string -> string) returns (outcome: Outcome<AssemblyError>)
      requires archiver.Valid() && outputDirectory != Some(".") && outputDirectory != Some("..")
      modifies archiver
      ensures archiver.Valid() && archiver.Slots() == old(archiver.Slots())
      ensures var r := StageDirectory(Config(), fs, fixRelativeRefs, archiver.rejects);
              && outcome == OutcomeOf(r)
              && archiver.fileSets == old(archiver.fileSets) + SubmittedBy(r)
      ensures archiver.calls == old(archiver.calls) + SubmitCalls(Config(), fs, fixRelativeRefs)
    {
      outcome := Pass;
      if fs.Exists(directory) {
        var fileSet := BuildFileSet(fixRelativeRefs);
        var error := archiver.AddFileSet(fileSet);
        if error.Some? {
          outcome := Fail(AddDirectoryError(error.value));
        }
      }
    }

    /**
     * The descriptor `execute` builds once the prefix is normalised: includes
     * absent when none are configured, otherwise normalised in order; excludes
     * normalised in order, empty when none are configured.
     */
    method BuildFileSet(fixRelativeRefs: string -> string) returns (fileSet: FileSetDescriptor)
      requires outputDirectory != Some(".")
      ensures fileSet == Descriptor(Config(), fixRelativeRefs)
      ensures fileSet.includes.None? <==> includes.None? || includes.value == []
      ensures fileSet.includes.Some? ==>
                && |fileSet.includes.value| == |includes.value|
                && forall k :: 0 <= k < |includes.value| ==> fileSet.includes.value[k] == Normalize(fixRelativeRefs, includes.value[k])
      ensures excludes.None? || excludes.value == [] ==> fileSet.excludes == []
      ensures excludes.Some? ==>
                && |fileSet.excludes| == |excludes.value|
                && forall k :: 0 <= k < |excludes.value| ==> fileSet.excludes[k] == Normalize(fixRelativeRefs, excludes.value[k])
    {
      var directoryExcludes := if excludes.Some? && |excludes.value| > 0 then excludes.value else [];
      var includesArray: Option<seq<string>> := None;
      if includes.Some? && |includes.value| > 0 {
        var normalized := NormalizePatterns(includes.value, fixRelativeRefs);
        includesArray := Some(normalized[..]);
        assert normalized[..] == NormalizeAll(fixRelativeRefs, includes.value);
      }
      var excludesArray := NormalizePatterns(directoryExcludes, fixRelativeRefs);
      assert excludesArray[..] == NormalizeAll(fixRelativeRefs, directoryExcludes);
      fileSet := FileSetDescriptor(directory, outputDirectory, includesArray, excludesArray[..],
                                   useDefaultExcludes, transformer);
    }

    /** Writes back the saved value of every override that was set (the `finally` block). */
    method RestoreOverrides(archiver: Archiver, saved: Overrides,
                            dirModeSet: bool, fileModeSet: bool, dirOwnerSet: bool, fileOwnerSet: bool)
      requires archiver.Valid()
      requires dirModeSet == (directoryMode != -1) && fileModeSet == (fileMode != -1)
      requires dirOwnerSet == directoryOwner.Some? && fileOwnerSet == fileOwner.Some?
      modifies archiver
      ensures archiver.Valid() && archiver.fileSets == old(archiver.fileSets)
      ensures archiver.Slots() == Overrides(
                if dirModeSet then saved.directoryMode else old(archiver.overrideDirectoryMode),
                if fileModeSet then saved.fileMode else old(archiver.overrideFileMode),
                if dirOwnerSet then saved.directoryOwner else old(archiver.overrideDirectoryOwner),
                if fileOwnerSet then saved.fileOwner else old(archiver.overrideFileOwner))
      ensures archiver.calls == old(archiver.calls) + RestoreCalls(Config(), saved)
    {
      ghost var start := archiver.calls;
      ghost var a := if fileOwnerSet then [ArchiverCall.SetFileOwner(saved.fileOwner)] else [];
      ghost var b := if dirOwnerSet then [ArchiverCall.SetDirectoryOwner(saved.directoryOwner)] else [];
      ghost var c := if dirModeSet then [ArchiverCall.SetDirectoryMode(saved.directoryMode)] else [];
      ghost var d := if fileModeSet then [ArchiverCall.SetFileMode(saved.fileMode)] else [];
      if fileOwnerSet {
        archiver.SetFileOwner(saved.fileOwner);
      }
      assert archiver.calls == start + a;
      if dirOwnerSet {
        archiver.SetDirectoryOwner(saved.directoryOwner);
      }
      assert archiver.calls == start + a + b;
      if dirModeSet {
        archiver.SetDirectoryMode(saved.directoryMode);
      }
      assert archiver.calls == start + a + b + c;
      if fileModeSet {
        archiver.SetFileMode(saved.fileMode);
      }
      assert archiver.calls == start + a + b + c + d;
      assert RestoreCalls(Config(), saved) == a + b + c + d;
      AppendFour(start, a, b, c, d);
    }
  }
}
