# File-set staging of the Maven assembly plugin, in Dafny

This project models how the assembly plugin stages file sets into an archive.

**`AddDirectoryTask`** stages one source directory:
- It normalises the destination prefix: `"."` becomes `""`, and `".."` is refused.
- It reads the archiver's four override slots: directory mode, file mode, directory owner and file owner.
- It overwrites only the slots it was configured with. `-1` and `null` mean "not configured".
- If the directory exists, it submits a file-set descriptor. Each include and exclude pattern goes through `fixRelativeRefs`, and then one leading `/` or `\` is stripped when there is one.
- On every exit path it writes back exactly the slots it changed.

**`AddFileSetsTask`** drives a batch of file-set declarations:
- It checks the optional archive base directory once, before any declaration.
- It then handles the declarations in order and stops at the first error.
- For each declaration it interpolates the destination prefix and resolves the source directory.
- It skips a directory that does not exist and refuses the filesystem root.
- It copies the converted modes and owners into a directory task, but only the ones that are set.

Layout:
- `wrappers.dfy`: `Option`, `Result` and `Outcome`.
- `plexus.dfy`: the archiver. It has four override slots, a list of accepted descriptors, a submission that may be rejected, and a ghost log of every call made on it. `Replay` gives the slots a call log leaves behind.
- `assembly.dfy`: declarations, the configuration source, the two exception kinds, the filesystem as an oracle, and the foreign utilities as function values.
- `add_directory_task.dfy`: `AddDirectoryTask` as a class. Pure functions state what one execution submits (`StageDirectory`) and which archiver calls it makes (`ExecuteCalls`); `Execute` is proved against both.
- `add_file_sets_task.dfy`: `AddFileSetsTask` as a class. `getFileSetDirectory` and the batch semantics are pure functions (`PlanFileSet`, `StageFileSet`, `RunFileSets`, `RunBatch`, and `BatchCalls` and `RunBatchCalls` for the archiver calls), and the class's methods are proved against them.
- `unix_paths.dfy`: a Unix instance of the path operations. With it, the archive-base override rule is stated on concrete paths.

## Model

| member | source | states |
|---|---|---|
| DirectoryTask.StripLeadingSeparator | src/main/java/org/apache/maven/plugins/assembly/archive/task/AddDirectoryTask.java:207-210 | the result is a suffix of the input, at most one character shorter, and shorter exactly when the input starts with `/` or `\` |
| DirectoryTask.Normalize | src/main/java/org/apache/maven/plugins/assembly/archive/task/AddDirectoryTask.java:203-212 | `normalize`: the result is the pattern after `fixRelativeRefs`, with its first character dropped exactly when that character is `/` or `\`, and otherwise unchanged |
| DirectoryTask.NormalizePatterns | src/main/java/org/apache/maven/plugins/assembly/archive/task/AddDirectoryTask.java:142-158 | the array the loop fills has one entry per pattern, in order, each one `normalize`d |
| DirectoryTask.StageDirectory | src/main/java/org/apache/maven/plugins/assembly/archive/task/AddDirectoryTask.java:75-176 | errors are always `ArchiveCreation`; the task skips exactly when the prefix is not `".."` and the directory does not exist; a submitted descriptor is the task's own, for an existing directory, with a prefix that is neither `"."` nor `".."`, and accepted by the archiver |
| DirectoryTask.ReplayApplyCalls | src/main/java/org/apache/maven/plugins/assembly/archive/task/AddDirectoryTask.java:100-122 | the conditional setters leave configured values in configured slots and the old values everywhere else |
| DirectoryTask.ReplayRestoreCalls | src/main/java/org/apache/maven/plugins/assembly/archive/task/AddDirectoryTask.java:179-200 | the `finally` block's write-backs undo exactly what the setters did |
| DirectoryTask.ExecuteRestoresOverrides | src/main/java/org/apache/maven/plugins/assembly/archive/task/AddDirectoryTask.java:86-200 | whatever the outcome (prefix error, skip, rejection, success), one execution leaves all four slots as it found them |
| DirectoryTask.SubmissionSeesConfiguredOverrides | src/main/java/org/apache/maven/plugins/assembly/archive/task/AddDirectoryTask.java:100-171 | the descriptor is submitted right after the configured setters, while the slots hold the configured values (and the old ones where nothing is configured) |
| DirectoryTask.UnconfiguredSlotsUntouched | src/main/java/org/apache/maven/plugins/assembly/archive/task/AddDirectoryTask.java:100-122 | no call of an execution writes a slot whose mode is -1 or whose owner is absent |
| DirectoryTask.PrefixRewriteInvisible | src/main/java/org/apache/maven/plugins/assembly/archive/task/AddDirectoryTask.java:75-78 | rewriting `"."` to `""` changes neither the staging result nor the calls made |
| DirectoryTask.AddDirectoryTask.constructor | src/main/java/org/apache/maven/plugins/assembly/archive/task/AddDirectoryTask.java:44-65 | a new task has no patterns and no prefix, default excludes on, both modes -1 and no owners |
| DirectoryTask.AddDirectoryTask.WithoutTransformer | src/main/java/org/apache/maven/plugins/assembly/archive/task/AddDirectoryTask.java:67-70 | the same defaults, with no transformer |
| DirectoryTask.AddDirectoryTask.SetExcludes | src/main/java/org/apache/maven/plugins/assembly/archive/task/AddDirectoryTask.java:214-217 | only the excludes change |
| DirectoryTask.AddDirectoryTask.SetIncludes | src/main/java/org/apache/maven/plugins/assembly/archive/task/AddDirectoryTask.java:219-222 | only the includes change |
| DirectoryTask.AddDirectoryTask.SetOutputDirectory | src/main/java/org/apache/maven/plugins/assembly/archive/task/AddDirectoryTask.java:224-227 | only the output directory changes |
| DirectoryTask.AddDirectoryTask.SetDirectoryMode | src/main/java/org/apache/maven/plugins/assembly/archive/task/AddDirectoryTask.java:229-232 | only the directory mode changes |
| DirectoryTask.AddDirectoryTask.SetFileMode | src/main/java/org/apache/maven/plugins/assembly/archive/task/AddDirectoryTask.java:234-237 | only the file mode changes |
| DirectoryTask.AddDirectoryTask.SetDirectoryOwner | src/main/java/org/apache/maven/plugins/assembly/archive/task/AddDirectoryTask.java:239-242 | only the directory owner changes |
| DirectoryTask.AddDirectoryTask.SetFileOwner | src/main/java/org/apache/maven/plugins/assembly/archive/task/AddDirectoryTask.java:244-247 | only the file owner changes |
| DirectoryTask.AddDirectoryTask.SetUseDefaultExcludes | src/main/java/org/apache/maven/plugins/assembly/archive/task/AddDirectoryTask.java:249-252 | only the default-excludes flag changes |
| DirectoryTask.AddDirectoryTask.Execute | src/main/java/org/apache/maven/plugins/assembly/archive/task/AddDirectoryTask.java:72-201 | outcome and accepted descriptors follow `StageDirectory`; the calls made are `ExecuteCalls`, which is empty for `".."` (no getter or setter before the error); the slots end as they began; `"."` is rewritten to `""` in the task |
| DirectoryTask.AddDirectoryTask.ExecuteWithinRoot | src/main/java/org/apache/maven/plugins/assembly/archive/task/AddDirectoryTask.java:86-200 | save, apply, submit and restore together make exactly `ExecuteCalls`, and the slots end as they began |
| DirectoryTask.AddDirectoryTask.ApplyOverrides | src/main/java/org/apache/maven/plugins/assembly/archive/task/AddDirectoryTask.java:92-122 | each `…Set` flag is true exactly when its slot is configured, and afterwards the slots are `Configured` |
| DirectoryTask.AddDirectoryTask.SubmitIfExists | src/main/java/org/apache/maven/plugins/assembly/archive/task/AddDirectoryTask.java:125-176 | nothing is submitted for a missing directory; otherwise the descriptor is submitted once and a rejection becomes "Error adding directory to archive: " plus the message |
| DirectoryTask.AddDirectoryTask.BuildFileSet | src/main/java/org/apache/maven/plugins/assembly/archive/task/AddDirectoryTask.java:127-169 | includes are absent exactly when none are configured, otherwise normalised entry by entry in order; excludes are never absent, empty when none are configured, otherwise normalised entry by entry in order |
| DirectoryTask.AddDirectoryTask.RestoreOverrides | src/main/java/org/apache/maven/plugins/assembly/archive/task/AddDirectoryTask.java:179-200 | exactly the slots whose flag is set get their saved value back, in the order owners then modes |
| Plexus.Archiver.AddFileSet | src/main/java/org/apache/maven/plugins/assembly/archive/task/AddDirectoryTask.java:171 | a submission may be rejected with a message; only an accepted descriptor is kept; the slots do not change |
| FileSetsTask.TrimEmptyIffBlank | src/main/java/org/apache/maven/plugins/assembly/archive/task/AddFileSetsTask.java:191 | `trim().length() < 1` holds exactly when every character is at most U+0020 (the space character or a character below it) |
| FileSetsTask.SourceDirectory | src/main/java/org/apache/maven/plugins/assembly/archive/task/AddFileSetsTask.java:189-194 | the source is the basedir's absolute path exactly when the declared directory is absent or blank, and otherwise the declared directory itself |
| FileSetsTask.GetFileSetDirectory | src/main/java/org/apache/maven/plugins/assembly/archive/task/AddFileSetsTask.java:186-213 | `getFileSetDirectory`: an absent or blank directory stands for the basedir's absolute path; with no archive base an absolute source is kept and a relative one is joined to the basedir; with an archive base the source is always joined to the base |
| FileSetsTask.ArchiveBaseOverridesAbsolute | src/main/java/org/apache/maven/plugins/assembly/archive/task/AddFileSetsTask.java:198-210 | the same absolute declared directory is kept without an archive base and joined under the base with one |
| FileSetsTask.MissingDirectorySkipped | src/main/java/org/apache/maven/plugins/assembly/archive/task/AddFileSetsTask.java:134-136 | a directory that does not exist is skipped, with no error, no descriptor and no archiver call |
| FileSetsTask.RootDirectoryRejected | src/main/java/org/apache/maven/plugins/assembly/archive/task/AddFileSetsTask.java:145-150 | a directory equal to the separator fails with the "entire file system" formatting error and makes no archiver call |
| FileSetsTask.EmptyBatch | src/main/java/org/apache/maven/plugins/assembly/archive/task/AddFileSetsTask.java:89-92 | with no declarations the loop passes, submits nothing and makes no archiver call |
| FileSetsTask.CollectAppend | src/main/java/org/apache/maven/plugins/assembly/archive/task/AddFileSetsTask.java:89-92 | handling two runs of declarations one after the other is handling their concatenation; after a failure nothing more counts |
| FileSetsTask.RunFileSetsExtend | src/main/java/org/apache/maven/plugins/assembly/archive/task/AddFileSetsTask.java:89-92 | once the earlier declarations have passed, the next one's result decides the outcome and adds its descriptor at the end |
| FileSetsTask.FirstFailureAbortsBatch | src/main/java/org/apache/maven/plugins/assembly/archive/task/AddFileSetsTask.java:89-92 | the first failing declaration ends the batch with its error, holding only what earlier declarations submitted |
| FileSetsTask.StagedFileSetIsSafe | src/main/java/org/apache/maven/plugins/assembly/archive/task/AddFileSetsTask.java:134-182 | a declaration's descriptor names the directory `getFileSetDirectory` resolved, which exists and is not the root, and has a prefix that is neither `"."` nor `".."` |
| FileSetsTask.SubmittedFileSetsAreSafe | src/main/java/org/apache/maven/plugins/assembly/archive/task/AddFileSetsTask.java:89-92 | every descriptor a batch submits is safe in that sense |
| FileSetsTask.CollectCallsAppend | src/main/java/org/apache/maven/plugins/assembly/archive/task/AddFileSetsTask.java:89-92 | the calls of two runs of declarations one after the other are the calls of their concatenation; after a failure the second run makes none |
| FileSetsTask.CollectCallsExtend | src/main/java/org/apache/maven/plugins/assembly/archive/task/AddFileSetsTask.java:89-92 | once the earlier results have passed, the next declaration's calls follow theirs |
| FileSetsTask.CollectCallsStop | src/main/java/org/apache/maven/plugins/assembly/archive/task/AddFileSetsTask.java:89-92 | after the first failing result no further calls are collected |
| FileSetsTask.BatchCallsExtend | src/main/java/org/apache/maven/plugins/assembly/archive/task/AddFileSetsTask.java:89-92 | once the earlier declarations have passed, the next declaration's `StageCalls` are appended to the batch's calls |
| FileSetsTask.FirstFailureStopsCalls | src/main/java/org/apache/maven/plugins/assembly/archive/task/AddFileSetsTask.java:89-92 | when declaration `k` is the first to fail, the batch's calls are those of the declarations up to and including `k` |
| FileSetsTask.StageCallsRestoreOverrides | src/main/java/org/apache/maven/plugins/assembly/archive/task/AddFileSetsTask.java:151-182 | one declaration's calls leave the override slots as it found them |
| FileSetsTask.CollectCallsRestore | src/main/java/org/apache/maven/plugins/assembly/archive/task/AddFileSetsTask.java:89-92 | concatenating, up to the first failure, call runs that each restore the slots restores them |
| FileSetsTask.BatchRestoresOverrides | src/main/java/org/apache/maven/plugins/assembly/archive/task/AddFileSetsTask.java:89-92 | a whole batch of declarations leaves the archiver's override slots as it found them |
| FileSetsTask.ConfigureTask | src/main/java/org/apache/maven/plugins/assembly/archive/task/AddFileSetsTask.java:153-180 | the task ends with `TaskConfig`: the converted modes and owners, and the declaration's default-excludes flag, excludes, includes and interpolated prefix |
| FileSetsTask.RunDirectoryTask | src/main/java/org/apache/maven/plugins/assembly/archive/task/AddFileSetsTask.java:151-182 | building, configuring and executing the task stages `TaskConfig` and makes exactly its `ExecuteCalls` |
| FileSetsTask.StageDeclaration | src/main/java/org/apache/maven/plugins/assembly/archive/task/AddFileSetsTask.java:107-136 | the outcome, the accepted descriptors and the calls made follow `StageFileSet` and `StageCalls`, so an interpolation failure or a missing directory touches nothing |
| FileSetsTask.StageExistingDirectory | src/main/java/org/apache/maven/plugins/assembly/archive/task/AddFileSetsTask.java:136-144 | for an existing directory, a transformer failure is a formatting error with no archiver call, and otherwise the result is the same as in `StageDeclaration` |
| FileSetsTask.StageTransformedDirectory | src/main/java/org/apache/maven/plugins/assembly/archive/task/AddFileSetsTask.java:145-182 | the root guard comes before any archiver call; otherwise the directory task runs |
| FileSetsTask.AddFileSetsTask.constructor | src/main/java/org/apache/maven/plugins/assembly/archive/task/AddFileSetsTask.java:55-58 | a new task holds the declarations and no cached project |
| FileSetsTask.AddFileSetsTask.SetProject | src/main/java/org/apache/maven/plugins/assembly/archive/task/AddFileSetsTask.java:228-231 | only the project changes |
| FileSetsTask.AddFileSetsTask.SetModuleProject | src/main/java/org/apache/maven/plugins/assembly/archive/task/AddFileSetsTask.java:233-236 | only the module project changes |
| FileSetsTask.AddFileSetsTask.Execute | src/main/java/org/apache/maven/plugins/assembly/archive/task/AddFileSetsTask.java:65-93 | outcome and accepted descriptors are those of `RunBatch`, and the archiver calls are those of `RunBatchCalls`; a missing or non-directory archive base fails before any archiver call, and the project field is left as it was; with no declarations the project field is also left as it was; the slots end as they began |
| FileSetsTask.AddFileSetsTask.AddAll | src/main/java/org/apache/maven/plugins/assembly/archive/task/AddFileSetsTask.java:89-92 | the loop handles the declarations in order and stops at the first error: its outcome and descriptors are those of `RunFileSets`, and its archiver calls are exactly `BatchCalls`, so no later declaration makes a call |
| FileSetsTask.AddFileSetsTask.AddNext | src/main/java/org/apache/maven/plugins/assembly/archive/task/AddFileSetsTask.java:89-92 | one turn of the loop extends the batch by one declaration: its result, its descriptor and its `StageCalls`; a failing declaration makes the batch result and the batch's calls final |
| FileSetsTask.AddFileSetsTask.AddFileSet | src/main/java/org/apache/maven/plugins/assembly/archive/task/AddFileSetsTask.java:95-184 | the project is cached from the configuration on first use and kept afterwards; the outcome, the accepted descriptors and the calls follow `StageFileSet` and `StageCalls` |
| UnixPaths.JoinExtendsParent | src/main/java/org/apache/maven/plugins/assembly/archive/task/AddFileSetsTask.java:209 | on Unix, `new File(parent, child)` keeps the parent as a prefix of the result |
| UnixPaths.ArchiveBaseContainsResolution | src/main/java/org/apache/maven/plugins/assembly/archive/task/AddFileSetsTask.java:207-210 | with an archive base other than the root, every resolved directory lies under the base, so the root guard can fire only when the base is the root |
| UnixPaths.ArchiveBaseOverrideExample | src/main/java/org/apache/maven/plugins/assembly/archive/task/AddFileSetsTask.java:198-210 | the base `/stage` with the declared `/etc/foo` resolves to `/stage/etc/foo`; without a base it stays `/etc/foo` |
| UnixPaths.RelativeUnderBasedirExample | src/main/java/org/apache/maven/plugins/assembly/archive/task/AddFileSetsTask.java:198-206 | a relative `src/main/config` resolves under the basedir `/project` |
| UnixPaths.BlankDirectoryExample | src/main/java/org/apache/maven/plugins/assembly/archive/task/AddFileSetsTask.java:189-194 | a blank declared directory resolves to the basedir `/project` |

## Left out

- Logging: `checkLogger`, `setLogger`, the `ConsoleLogger` fallback, the debug messages and `warnForPlatformSpecifics`. These are diagnostics only. With debug logging on, `addFileSet` also reads the two mode slots; those getters change nothing and are not in the call log.
- The foreign utilities are function values with no body:
  - `AssemblyFormatUtils.fixRelativeRefs`;
  - `AssemblyFormatUtils.getOutputDirectory` and its module and artifact interpolators;
  - `TypeConversionUtils.modeToInt` and `ownerInfoToOwner`;
  - `ReaderFormatter.getFileSetTransformers`.
  `getOutputDirectory` and `getFileSetTransformers` may fail with a formatting message. The model says nothing about what any of them computes.
- `ReaderFormatter.getFileSetTransformers` is modelled as a foreign function that may fail: it can throw `AssemblyFormattingException`, which `addFileSet` lets propagate before the root guard (AddFileSetsTask.java:138-145). Its body is not part of this model.
- `java.io.File`: a file is its path string, so the normalisation `new File(...)` performs (duplicate and trailing separators) is not modelled. `join`, `isAbsolute` and `getAbsolutePath` are parameters. `unix_paths.dfy` gives one concrete instance for already-normalised paths.
- The filesystem is a fixed set of existing paths and a set of directories. It does not change during a run, and I/O errors are not modelled.
- Archiver internals: `DefaultFileSet`, archive writing, and whatever the real archiver does to mode values on write. The slots hold exactly what was last set. Submission failure is an oracle from descriptor to optional message.
- A `null` project from the configuration source (a `NullPointerException` at line 107), a `null` declaration list and `null` list elements are not modelled. The project is always present in `ConfigSource`.
- The varargs constructor `AddFileSetsTask(FileSet...)` is the list constructor here.
- Modes are unbounded integers. The code only compares them with -1 and passes them on, so width does not matter.
- `AddArtifactTask` is not part of this model.
