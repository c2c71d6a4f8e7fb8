/** The handler of the directories that hold vector-store index files
    (`infrastructure/file_system/database_file_handler.py`).  A directory
    is named `root/provider/unique_id`, with `root` and `provider` read from
    the settings, which are unset (`None`) when their environment variables
    are.  Creating a directory is `os.makedirs(path, exist_ok=True)` and
    deleting one is `shutil.rmtree(path)`, whose OS errors are translated to
    the handler's own. */
module DbFileHandlerModel {
  import opened Common
  import opened Paths
  import opened FileSystemModel

  /** The exceptions the two operations raise. */
  datatype HandlerError =
    | FileNotFoundError(message: string)
    | DirectoryCreationError(message: string)
    | DirectoryDeletionError(message: string)
    | UnboundLocalError(message: string)

  /** The `TypeError` texts of `os.path.join` for a `None` first argument and
      for a `None` later argument. */
  const RootTypeError := "expected str, bytes or os.PathLike object, not NoneType"
  const ArgumentTypeError := "join() argument must be str, bytes, or os.PathLike object, not 'NoneType'"

  /** What reading a local variable before its assignment raises. */
  const UnboundDirPath := "cannot access local variable 'dir_path' where it is not associated with a value"

  /** `_create_unique_dir_path`: `os.path.join(root, provider, unique_id)`, or
      the `TypeError` an unset setting makes it raise. */
  function UniqueDirPath(root: Option<string>, provider: Option<string>, id: string): (r: Result<string, string>)
    ensures r.Ok? <==> root.Some? && provider.Some?
    ensures root.None? ==> r == Err(RootTypeError)
    ensures root.Some? && provider.None? ==> r == Err(ArgumentTypeError)
  {
    match (root, provider)
    case (None, _) => Err(RootTypeError)
    case (Some(_), None) => Err(ArgumentTypeError)
    case (Some(a), Some(b)) => Ok(Join(Join(a, b), id))
  }

  /** The directory of an id that is one plain name is the entry of that
      name in the `root/provider` directory. */
  lemma DirPathIsEntry(cwd: Path, root: string, provider: string, id: string)
    requires ValidName(id)
    ensures Resolve(cwd, UniqueDirPath(Some(root), Some(provider), id).value)
         == Resolve(cwd, Join(root, provider)) + [id]
  {
    ResolveJoin(cwd, Join(root, provider), id);
  }

  /** Two different plain ids never share a directory. */
  lemma DistinctIdsDistinctDirs(cwd: Path, root: string, provider: string, a: string, b: string)
    requires ValidName(a) && ValidName(b) && a != b
    ensures Resolve(cwd, UniqueDirPath(Some(root), Some(provider), a).value)
         != Resolve(cwd, UniqueDirPath(Some(root), Some(provider), b).value)
  {
    JoinInjective(cwd, Join(root, provider), a, b);
  }

  /** How a failed `os.makedirs(d)` is reported. */
  function CreationFailure(d: string, e: OsError): (r: HandlerError)
    ensures r.FileNotFoundError? <==> e == FileNotFound
    ensures r.DirectoryCreationError? <==> e != FileNotFound
  {
    if e == FileNotFound then
      FileNotFoundError("Parent directory path does not exist for: " + d + ". Error: " + ErrorText(e))
    else
      DirectoryCreationError("An unexpected error occurred while creating directory: " + d + ". Error: " + ErrorText(e))
  }

  /** A new state and what `create_unique_directory` returned or raised. */
  datatype CreateOutcome = CreateOutcome(state: FsState, result: Result<string, HandlerError>)

  /** A new state and what `delete_unique_directory` raised, if anything. */
  datatype DeleteOutcome = DeleteOutcome(state: FsState, error: Option<HandlerError>)

  /** `create_unique_directory(id)`, with an unset setting reported as a
      `DirectoryCreationError` naming the id. */
  ghost function CreateUniqueDirectoryOutcome(st: FsState, cwd: Path, root: Option<string>, provider: Option<string>,
                                              id: string): (o: CreateOutcome)
    ensures o.result.Ok? ==> && UniqueDirPath(root, provider, id) == Ok(o.result.value)
                             && Resolve(cwd, o.result.value) in o.state.dirs
                             && o.state.files == st.files && st.dirs <= o.state.dirs
    ensures o.result.Err? ==> o.state == st
    ensures o.result.Err? ==> o.result.error.FileNotFoundError? || o.result.error.DirectoryCreationError?
    ensures o.result.Err? && o.result.error.FileNotFoundError? <==>
      UniqueDirPath(root, provider, id).Ok? && MakeDirsOutcome(st, cwd, UniqueDirPath(root, provider, id).value).error == Some(FileNotFound)
  {
    match UniqueDirPath(root, provider, id)
    case Err(te) =>
      CreateOutcome(st, Err(DirectoryCreationError("An unexpected error occurred while creating directory: " + id + ". Error: " + te)))
    case Ok(d) =>
      var m := MakeDirsOutcome(st, cwd, d);
      CreateOutcome(m.state, if m.error.None? then Ok(d) else Err(CreationFailure(d, m.error.value)))
  }

  /** `create_unique_directory(id)` as written: when building the path
      raises, the handler's own message reads `dir_path` before it is
      assigned. */
  ghost function CreateUniqueDirectoryAsWritten(st: FsState, cwd: Path, root: Option<string>, provider: Option<string>,
                                                id: string): (o: CreateOutcome)
    ensures UniqueDirPath(root, provider, id).Err? ==> o == CreateOutcome(st, Err(UnboundLocalError(UnboundDirPath)))
    ensures UniqueDirPath(root, provider, id).Ok? ==> o == CreateUniqueDirectoryOutcome(st, cwd, root, provider, id)
  {
    if UniqueDirPath(root, provider, id).Err? then CreateOutcome(st, Err(UnboundLocalError(UnboundDirPath)))
    else CreateUniqueDirectoryOutcome(st, cwd, root, provider, id)
  }

  /** `delete_unique_directory(id)`: a missing directory is only logged; an
      unset setting is reported as a `DirectoryDeletionError` naming the id. */
  ghost function DeleteUniqueDirectoryOutcome(st: FsState, cwd: Path, root: Option<string>, provider: Option<string>,
                                              id: string): (o: DeleteOutcome)
    ensures o.error.Some? ==> o.error.value.DirectoryDeletionError?
    ensures UniqueDirPath(root, provider, id).Err? ==> o.state == st && o.error.Some?
    ensures UniqueDirPath(root, provider, id).Ok? ==>
      var m := RmTreeOutcome(st, cwd, UniqueDirPath(root, provider, id).value);
      o.state == m.state && (o.error.None? <==> m.error.None? || m.error == Some(FileNotFound))
  {
    match UniqueDirPath(root, provider, id)
    case Err(te) =>
      DeleteOutcome(st, Some(DirectoryDeletionError("Failed to delete directory: " + id + ". Error: " + te)))
    case Ok(d) =>
      var m := RmTreeOutcome(st, cwd, d);
      if m.error.None? || m.error == Some(FileNotFound) then DeleteOutcome(m.state, None)
      else DeleteOutcome(m.state, Some(DirectoryDeletionError("Failed to delete directory: " + d + ". Error: " + ErrorText(m.error.value))))
  }

  /** `delete_unique_directory(id)` as written, failing the same way as
      creation does. */
  ghost function DeleteUniqueDirectoryAsWritten(st: FsState, cwd: Path, root: Option<string>, provider: Option<string>,
                                                id: string): (o: DeleteOutcome)
    ensures UniqueDirPath(root, provider, id).Err? ==> o == DeleteOutcome(st, Some(UnboundLocalError(UnboundDirPath)))
    ensures UniqueDirPath(root, provider, id).Ok? ==> o == DeleteUniqueDirectoryOutcome(st, cwd, root, provider, id)
  {
    if UniqueDirPath(root, provider, id).Err? then DeleteOutcome(st, Some(UnboundLocalError(UnboundDirPath)))
    else DeleteUniqueDirectoryOutcome(st, cwd, root, provider, id)
  }

  /** With the vector-store root unset, the code as written escapes its own
      error classes: both operations raise `UnboundLocalError`, where a
      `DirectoryCreationError` and a `DirectoryDeletionError` are meant. */
  lemma UnsetRootEscapesAsWritten(st: FsState, cwd: Path, provider: Option<string>, id: string)
    ensures CreateUniqueDirectoryAsWritten(st, cwd, None, provider, id).result == Err(UnboundLocalError(UnboundDirPath))
    ensures DeleteUniqueDirectoryAsWritten(st, cwd, None, provider, id).error == Some(UnboundLocalError(UnboundDirPath))
    ensures CreateUniqueDirectoryOutcome(st, cwd, None, provider, id).result.error.DirectoryCreationError?
    ensures DeleteUniqueDirectoryOutcome(st, cwd, None, provider, id).error.value.DirectoryDeletionError?
  {
  }

  /** Every operation keeps the tree well formed. */
  lemma OperationsKeepValid(st: FsState, cwd: Path, root: Option<string>, provider: Option<string>, id: string)
    requires ValidState(st)
    ensures ValidState(CreateUniqueDirectoryOutcome(st, cwd, root, provider, id).state)
    ensures ValidState(DeleteUniqueDirectoryOutcome(st, cwd, root, provider, id).state)
  {
    var p := UniqueDirPath(root, provider, id);
    if p.Ok? {
      MakeDirsValid(st, cwd, p.value);
      RmTreeValid(st, cwd, p.value);
    }
  }

  /** Creating an existing directory returns its path and changes nothing. */
  lemma CreateExisting(st: FsState, cwd: Path, root: string, provider: string, id: string)
    requires ValidState(st)
    requires var d := Join(Join(root, provider), id);
      d != "" && Resolve(cwd, d) in st.dirs
    ensures CreateUniqueDirectoryOutcome(st, cwd, Some(root), Some(provider), id)
         == CreateOutcome(st, Ok(Join(Join(root, provider), id)))
  {
    var d := Join(Join(root, provider), id);
    MakeDirsExisting(st, cwd, d);
    assert MakeDirsOutcome(st, cwd, d) == FsOutcome(st, None);
  }

  /** Creating is idempotent: a second call returns the same path and
      changes nothing. */
  lemma CreateIdempotent(st: FsState, cwd: Path, root: Option<string>, provider: Option<string>, id: string)
    requires ValidState(st)
    requires CreateUniqueDirectoryOutcome(st, cwd, root, provider, id).result.Ok?
    ensures var o := CreateUniqueDirectoryOutcome(st, cwd, root, provider, id);
      CreateUniqueDirectoryOutcome(o.state, cwd, root, provider, id) == o
  {
    MakeDirsIdempotent(st, cwd, UniqueDirPath(root, provider, id).value);
  }

  /** A successful deletion removes the directory and everything below it
      and keeps every entry outside it; when nothing was there, nothing
      changes. */
  lemma DeleteRemovesExactlySubtree(st: FsState, cwd: Path, root: string, provider: string, id: string)
    requires ValidState(st) && id != ""
    requires DeleteUniqueDirectoryOutcome(st, cwd, Some(root), Some(provider), id).error.None?
    ensures var p := Resolve(cwd, Join(Join(root, provider), id));
      var st' := DeleteUniqueDirectoryOutcome(st, cwd, Some(root), Some(provider), id).state;
      && p !in st'.dirs
      && (forall q :: q in st'.dirs <==> q in st.dirs && !IsPrefix(p, q))
      && (forall q :: q in st'.files <==> q in st.files && !IsPrefix(p, q))
  {
    var d := Join(Join(root, provider), id);
    JoinNonEmpty(Join(root, provider), id);
    RmTreeLeavesNothingBelow(st, cwd, d);
  }

  /** Deleting a directory that does not exist raises nothing and changes
      nothing. */
  lemma DeleteMissingIsNoOp(st: FsState, cwd: Path, root: string, provider: string, id: string)
    requires ValidState(st)
    requires var p := Resolve(cwd, Join(Join(root, provider), id));
      p !in st.dirs && p !in st.files && !HasFileAncestor(st, p)
    ensures DeleteUniqueDirectoryOutcome(st, cwd, Some(root), Some(provider), id) == DeleteOutcome(st, None)
  {
    var d := Join(Join(root, provider), id);
    assert UniqueDirPath(Some(root), Some(provider), id) == Ok(d);
    if d != "" {
      RmTreeMissing(st, cwd, d);
    }
    assert RmTreeOutcome(st, cwd, d) == FsOutcome(st, Some(FileNotFound));
  }

  /** Creating a fresh directory for an id and deleting it again leaves the
      tree as it was. */
  lemma CreateThenDeleteRestores(st: FsState, cwd: Path, root: string, provider: string, id: string)
    requires ValidState(st) && ValidName(id)
    requires Resolve(cwd, Join(root, provider)) in st.dirs
    requires var p := Resolve(cwd, Join(Join(root, provider), id));
      p !in st.dirs && p !in st.files
    ensures var o := CreateUniqueDirectoryOutcome(st, cwd, Some(root), Some(provider), id);
      && o.result.Ok?
      && DeleteUniqueDirectoryOutcome(o.state, cwd, Some(root), Some(provider), id) == DeleteOutcome(st, None)
  {
    var d := Join(Join(root, provider), id);
    DirPathIsEntry(cwd, root, provider, id);
    var p := Resolve(cwd, d);
    assert p[..|p| - 1] == Resolve(cwd, Join(root, provider));
    JoinNonEmpty(Join(root, provider), id);
    CreateThenRemoveRestores(st, cwd, d);
    var m := MakeDirsOutcome(st, cwd, d);
    assert CreateUniqueDirectoryOutcome(st, cwd, Some(root), Some(provider), id) == CreateOutcome(m.state, Ok(d));
    assert RmTreeOutcome(m.state, cwd, d) == FsOutcome(st, None);
  }

  /** The handler over a file system it changes in place. */
  class DbFileHandler {
    /** `Settings.embeddings.TMP_VECTORDB_PATH` and `VECTORDB_PROVIDER`. */
    const root: Option<string>
    const provider: Option<string>
    const fs: FileSystem

    constructor (root: Option<string>, provider: Option<string>, fs: FileSystem)
      ensures this.root == root && this.provider == provider && this.fs == fs
    {
      this.root := root;
      this.provider := provider;
      this.fs := fs;
    }

    /** `create_unique_directory(id)`: the directory's path, or the error,
        with the corrected handling of a path that cannot be built (a
        `DirectoryCreationError` naming the id, where the code as written
        raises `UnboundLocalError`; see `CreateUniqueDirectoryAsWritten`). */
    method CreateUniqueDirectory(id: string) returns (r: Result<string, HandlerError>)
      requires fs.Valid()
      modifies fs
      ensures CreateOutcome(fs.State(), r) == CreateUniqueDirectoryOutcome(old(fs.State()), fs.cwd, root, provider, id)
      ensures fs.Valid()
    {
      var dirPath := UniqueDirPath(root, provider, id);
      if dirPath.Err? {
        return Err(DirectoryCreationError("An unexpected error occurred while creating directory: " + id + ". Error: " + dirPath.error));
      }
      var err := fs.MakeDirs(dirPath.value);
      if err.Some? {
        return Err(CreationFailure(dirPath.value, err.value));
      }
      return Ok(dirPath.value);
    }

    /** `delete_unique_directory(id)`: the error it raises, if any, with the
        corrected handling of a path that cannot be built (a
        `DirectoryDeletionError` naming the id, where the code as written
        raises `UnboundLocalError`; see `DeleteUniqueDirectoryAsWritten`). */
    method DeleteUniqueDirectory(id: string) returns (r: Option<HandlerError>)
      requires fs.Valid()
      modifies fs
      ensures DeleteOutcome(fs.State(), r) == DeleteUniqueDirectoryOutcome(old(fs.State()), fs.cwd, root, provider, id)
      ensures fs.Valid()
    {
      var dirPath := UniqueDirPath(root, provider, id);
      if dirPath.Err? {
        return Some(DirectoryDeletionError("Failed to delete directory: " + id + ". Error: " + dirPath.error));
      }
      var err := fs.RmTree(dirPath.value);
      if err.None? || err == Some(FileNotFound) {
        return None;
      }
      return Some(DirectoryDeletionError("Failed to delete directory: " + dirPath.value + ". Error: " + ErrorText(err.value)));
    }
  }
}
