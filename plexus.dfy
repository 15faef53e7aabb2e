/**
 * The archive-writing collaborator, as seen by the staging tasks: four
 * archiver-wide override slots (directory mode, file mode, directory owner,
 * file owner) and an operation that submits a file-set descriptor, which may
 * be rejected.  Archive serialisation itself is not modelled.
 */
module Plexus {
  import opened Wrappers

  /** An owner value as the archiver stamps it on entries; `None` plays Java's `null`. */
  datatype Owner = Owner(user: string, group: string)

  /** A per-file content transform; only its identity matters to staging. */
  datatype Transformer = Transformer(name: string)

  /**
   * A file-set descriptor handed to the archiver: the source directory, the
   * prefix inside the archive, the include patterns (`None` means "match
   * everything"), the exclude patterns (never absent), the default-excludes
   * flag and an optional content transform.
   */
  datatype FileSetDescriptor = FileSetDescriptor(
    directory: string,
    prefix: Option<string>,
    includes: Option<seq<string>>,
    excludes: seq<string>,
    usingDefaultExcludes: bool,
    streamTransformer: Option<Transformer>)

  /** The archiver's four override slots; a mode of -1 and an owner of `None` mean "not overridden". */
  datatype Overrides = Overrides(
    directoryMode: int,
    fileMode: int,
    directoryOwner: Option<Owner>,
    fileOwner: Option<Owner>)

  /** One call made on the archiver, as recorded in its call log. */
  datatype ArchiverCall =
    | GetOverrideDirectoryMode
    | GetOverrideFileMode
    | GetOverrideDirectoryOwner
    | GetOverrideFileOwner
    | SetDirectoryMode(mode: int)
    | SetFileMode(mode: int)
    | SetDirectoryOwner(owner: Option<Owner>)
    | SetFileOwner(owner: Option<Owner>)
    | AddFileSet(fileSet: FileSetDescriptor)
  {
    /** Whether this call writes an override slot. */
    predicate IsSetter() {
      SetDirectoryMode? || SetFileMode? || SetDirectoryOwner? || SetFileOwner?
    }
  }

  /** The override slots after one call: setters overwrite their slot, every other call leaves them alone. */
  function Effect(o: Overrides, c: ArchiverCall): Overrides
  {
    match c
    case SetDirectoryMode(m) => o.(directoryMode := m)
    case SetFileMode(m) => o.(fileMode := m)
    case SetDirectoryOwner(w) => o.(directoryOwner := w)
    case SetFileOwner(w) => o.(fileOwner := w)
    case _ => o
  }

  /** The override slots after a sequence of calls, starting from `o`. */
  function Replay(o: Overrides, calls: seq<ArchiverCall>): Overrides
  {
    if calls == [] then o else Effect(Replay(o, calls[..|calls| - 1]), calls[|calls| - 1])
  }

  /** Replaying two call sequences one after the other is replaying their concatenation. */
  lemma {:induction false} ReplayConcat(o: Overrides, a: seq<ArchiverCall>, b: seq<ArchiverCall>)
    ensures Replay(o, a + b) == Replay(Replay(o, a), b)
  {
    if b == [] {
      assert a + b == a;
    } else {
      assert (a + b)[..|a + b| - 1] == a + b[..|b| - 1];
      ReplayConcat(o, a, b[..|b| - 1]);
    }
  }

  /** Regrouping a call log that was extended twice; like `AppendFour`, a helper that only spares the solver a step. */
  lemma AppendTwo<T>(s: seq<T>, a: seq<T>, b: seq<T>)
    ensures (s + a) + b == s + (a + b)
  {
  }

  /**
   * Regrouping a call log that was extended four times.  It states nothing
   * about the archiver: it only spares the solver the associativity steps
   * where a method's four call segments are joined.
   */
  lemma AppendFour(s: seq<ArchiverCall>, a: seq<ArchiverCall>, b: seq<ArchiverCall>, c: seq<ArchiverCall>, d: seq<ArchiverCall>)
    ensures s + a + b + c + d == s + (a + b + c + d)
  {
  }

  /** Calls that are not setters leave every override slot as it was. */
  lemma {:induction false} ReplayWithoutSetters(o: Overrides, calls: seq<ArchiverCall>)
    requires forall i :: 0 <= i < |calls| ==> !calls[i].IsSetter()
    ensures Replay(o, calls) == o
  {
    if calls != [] {
      ReplayWithoutSetters(o, calls[..|calls| - 1]);
    }
  }

  /**
   * The archiver.  Its override slots are plain fields; `calls` logs every
   * call made on it, and `fileSets` the descriptors it accepted.  Whether a
   * submission is rejected, and with which message, is the oracle `rejects`.
   */
  class Archiver {
    var overrideDirectoryMode: int
    var overrideFileMode: int
    var overrideDirectoryOwner: Option<Owner>
    var overrideFileOwner: Option<Owner>
    var fileSets: seq<FileSetDescriptor>
    const rejects: FileSetDescriptor -> Option<string>
    ghost const initial: Overrides
    ghost var calls: seq<ArchiverCall>

    /** The current contents of the four override slots. */
    function Slots(): Overrides
      reads this
    {
      Overrides.Overrides(overrideDirectoryMode, overrideFileMode, overrideDirectoryOwner, overrideFileOwner)
    }

    /** The slots are what the logged calls made of the initial slots. */
    ghost predicate Valid()
      reads this
    {
      Slots() == Replay(initial, calls)
    }

    constructor (initial: Overrides, rejects: FileSetDescriptor -> Option<string>)
      ensures Valid()
      ensures Slots() == initial && fileSets == [] && calls == []
      ensures this.rejects == rejects
    {
      overrideDirectoryMode := initial.directoryMode;
      overrideFileMode := initial.fileMode;
      overrideDirectoryOwner := initial.directoryOwner;
      overrideFileOwner := initial.fileOwner;
      fileSets := [];
      this.rejects := rejects;
      this.initial := initial;
      calls := [];
    }

    /** Logs `c` and applies its effect; shared by every call below. */
    method Record(c: ArchiverCall)
      requires Valid()
      modifies this
      ensures Valid()
      ensures calls == old(calls) + [c]
      ensures Slots() == Effect(old(Slots()), c)
      ensures fileSets == old(fileSets)
    {
      var next := Effect(Slots(), c);
      overrideDirectoryMode, overrideFileMode := next.directoryMode, next.fileMode;
      overrideDirectoryOwner, overrideFileOwner := next.directoryOwner, next.fileOwner;
      calls := calls + [c];
      assert calls[..|calls| - 1] == old(calls);
      assert Replay(initial, calls) == Effect(Replay(initial, old(calls)), c);
    }

    method GetOverrideDirectoryMode() returns (mode: int)
      requires Valid()
      modifies this
      ensures Valid() && mode == old(overrideDirectoryMode)
      ensures calls == old(calls) + [ArchiverCall.GetOverrideDirectoryMode]
      ensures Slots() == old(Slots()) && fileSets == old(fileSets)
    {
      mode := overrideDirectoryMode;
      Record(ArchiverCall.GetOverrideDirectoryMode);
    }

    method GetOverrideFileMode() returns (mode: int)
      requires Valid()
      modifies this
      ensures Valid() && mode == old(overrideFileMode)
      ensures calls == old(calls) + [ArchiverCall.GetOverrideFileMode]
      ensures Slots() == old(Slots()) && fileSets == old(fileSets)
    {
      mode := overrideFileMode;
      Record(ArchiverCall.GetOverrideFileMode);
    }

    method GetOverrideDirectoryOwner() returns (owner: Option<Owner>)
      requires Valid()
      modifies this
      ensures Valid() && owner == old(overrideDirectoryOwner)
      ensures calls == old(calls) + [ArchiverCall.GetOverrideDirectoryOwner]
      ensures Slots() == old(Slots()) && fileSets == old(fileSets)
    {
      owner := overrideDirectoryOwner;
      Record(ArchiverCall.GetOverrideDirectoryOwner);
    }

    method GetOverrideFileOwner() returns (owner: Option<Owner>)
      requires Valid()
      modifies this
      ensures Valid() && owner == old(overrideFileOwner)
      ensures calls == old(calls) + [ArchiverCall.GetOverrideFileOwner]
      ensures Slots() == old(Slots()) && fileSets == old(fileSets)
    {
      owner := overrideFileOwner;
      Record(ArchiverCall.GetOverrideFileOwner);
    }

    method SetDirectoryMode(mode: int)
      requires Valid()
      modifies this
      ensures Valid() && Slots() == old(Slots()).(directoryMode := mode)
      ensures calls == old(calls) + [ArchiverCall.SetDirectoryMode(mode)]
      ensures fileSets == old(fileSets)
    {
      Record(ArchiverCall.SetDirectoryMode(mode));
    }

    method SetFileMode(mode: int)
      requires Valid()
      modifies this
      ensures Valid() && Slots() == old(Slots()).(fileMode := mode)
      ensures calls == old(calls) + [ArchiverCall.SetFileMode(mode)]
      ensures fileSets == old(fileSets)
    {
      Record(ArchiverCall.SetFileMode(mode));
    }

    method SetDirectoryOwner(owner: Option<Owner>)
      requires Valid()
      modifies this
      ensures Valid() && Slots() == old(Slots()).(directoryOwner := owner)
      ensures calls == old(calls) + [ArchiverCall.SetDirectoryOwner(owner)]
      ensures fileSets == old(fileSets)
    {
      Record(ArchiverCall.SetDirectoryOwner(owner));
    }

    method SetFileOwner(owner: Option<Owner>)
      requires Valid()
      modifies this
      ensures Valid() && Slots() == old(Slots()).(fileOwner := owner)
      ensures calls == old(calls) + [ArchiverCall.SetFileOwner(owner)]
      ensures fileSets == old(fileSets)
    {
      Record(ArchiverCall.SetFileOwner(owner));
    }

    /** Submits a file set: `error` is the archiver's message when it rejects it, and only an accepted one is kept. */
    method AddFileSet(fileSet: FileSetDescriptor) returns (error: Option<string>)
      requires Valid()
      modifies this
      ensures Valid() && Slots() == old(Slots())
      ensures error == rejects(fileSet)
      ensures fileSets == old(fileSets) + (if error.None? then [fileSet] else [])
      ensures calls == old(calls) + [ArchiverCall.AddFileSet(fileSet)]
    {
      error := rejects(fileSet);
      Record(ArchiverCall.AddFileSet(fileSet));
      if error.None? {
        fileSets := fileSets + [fileSet];
      }
    }
  }
}
