/** The part of a POSIX file system that `os.makedirs(path, exist_ok=True)`
    and `shutil.rmtree(path)` touch: the set of directories and the set of
    other files, each named by its resolved path.  The pure functions
    `MakeDirsOutcome` and `RmTreeOutcome` say what the two calls do to a
    state and which OS error they raise; the class `FileSystem` holds a
    state and changes it in place. */
module FileSystemModel {
  import opened Common
  import opened Paths

  /** The OS errors the two calls can raise here, by errno. */
  datatype OsError =
    | FileNotFound     // ENOENT, raised as FileNotFoundError
    | FileExists       // EEXIST, raised as FileExistsError
    | NotADirectory    // ENOTDIR, raised as NotADirectoryError
    | DeviceBusy       // EBUSY, raised as OSError

  /** The start of `str(e)` for each error. */
  function ErrorText(e: OsError): string
  {
    match e
    case FileNotFound => "[Errno 2] No such file or directory"
    case FileExists => "[Errno 17] File exists"
    case NotADirectory => "[Errno 20] Not a directory"
    case DeviceBusy => "[Errno 16] Device or resource busy"
  }

  datatype FsState = FsState(dirs: set<Path>, files: set<Path>)

  /** A new state and the error raised, if any. */
  datatype FsOutcome = FsOutcome(state: FsState, error: Option<OsError>)

  predicate IsPrefix(p: Path, q: Path)
  {
    |p| <= |q| && q[..|p|] == p
  }

  /** A well-formed tree: the root is a directory, nothing is both, and the
      parent of every entry is a directory. */
  ghost predicate ValidState(st: FsState)
  {
    && [] in st.dirs
    && st.dirs !! st.files
    && (forall p :: p in st.dirs && p != [] ==> p[..|p| - 1] in st.dirs)
    && (forall p :: p in st.files ==> p != [] && p[..|p| - 1] in st.dirs)
  }

  /** Some proper ancestor of `p` is a file, so `p` cannot be reached. */
  ghost predicate HasFileAncestor(st: FsState, p: Path)
  {
    exists k :: 1 <= k < |p| && p[..k] in st.files
  }

  /** `p` and all its ancestors. */
  function Prefixes(p: Path): set<Path>
  {
    set k | 0 <= k <= |p| :: p[..k]
  }

  /** The entries of `s` at `p` or below it. */
  function Under(p: Path, s: set<Path>): set<Path>
  {
    set q | q in s && IsPrefix(p, q)
  }

  /** `os.makedirs(name, exist_ok=True)`. */
  ghost function MakeDirsOutcome(st: FsState, cwd: Path, name: string): (o: FsOutcome)
    ensures o.error.Some? ==> o.state == st
    ensures o.error.None? ==> && Resolve(cwd, name) in o.state.dirs
                              && o.state.files == st.files
                              && st.dirs <= o.state.dirs
                              && forall q :: q in o.state.dirs - st.dirs ==> IsPrefix(q, Resolve(cwd, name))
    ensures name == "" ==> o.error == Some(FileNotFound)
  {
    if name == "" then FsOutcome(st, Some(FileNotFound))
    else
      var p := Resolve(cwd, name);
      if HasFileAncestor(st, p) then FsOutcome(st, Some(NotADirectory))
      else if p in st.files then FsOutcome(st, Some(FileExists))
      else
        assert p[..|p|] == p;
        FsOutcome(FsState(st.dirs + Prefixes(p), st.files), None)
  }

  /** `shutil.rmtree(name)`. Removing the root empties it and then fails. */
  ghost function RmTreeOutcome(st: FsState, cwd: Path, name: string): (o: FsOutcome)
    ensures o.error.None? ==> && Resolve(cwd, name) in st.dirs
                              && o.state == FsState(st.dirs - Under(Resolve(cwd, name), st.dirs),
                                                    st.files - Under(Resolve(cwd, name), st.files))
    ensures o.error == Some(FileNotFound) ==> o.state == st
    ensures name == "" ==> o.error == Some(FileNotFound)
  {
    if name == "" then FsOutcome(st, Some(FileNotFound))
    else
      var p := Resolve(cwd, name);
      if HasFileAncestor(st, p) || p in st.files then FsOutcome(st, Some(NotADirectory))
      else if p !in st.dirs then FsOutcome(st, Some(FileNotFound))
      else if p == [] then FsOutcome(FsState({[]}, {}), Some(DeviceBusy))
      else FsOutcome(FsState(st.dirs - Under(p, st.dirs), st.files - Under(p, st.files)), None)
  }

  /** Every ancestor of a directory is a directory. */
  lemma {:induction false} AncestorsAreDirs(st: FsState, q: Path, k: nat)
    requires ValidState(st)
    requires q in st.dirs && k <= |q|
    ensures q[..k] in st.dirs
    decreases |q|
  {
    if k < |q| {
      var parent := q[..|q| - 1];
      assert parent[..k] == q[..k];
      AncestorsAreDirs(st, parent, k);
    } else {
      assert q[..k] == q;
    }
  }

  /** So an existing directory has no file among its ancestors. */
  lemma DirHasNoFileAncestor(st: FsState, p: Path)
    requires ValidState(st) && p in st.dirs
    ensures !HasFileAncestor(st, p)
  {
    forall k | 1 <= k < |p| ensures p[..k] !in st.files {
      AncestorsAreDirs(st, p, k);
    }
  }

  /** Whatever lies below `p` makes `p` a directory. */
  lemma EntriesBelowMakeDir(st: FsState, p: Path)
    requires ValidState(st)
    ensures forall q :: q in st.dirs && IsPrefix(p, q) ==> p in st.dirs
    ensures forall q :: q in st.files && IsPrefix(p, q) && q != p ==> p in st.dirs
  {
    forall q | q in st.dirs && IsPrefix(p, q) ensures p in st.dirs {
      AncestorsAreDirs(st, q, |p|);
    }
    forall q | q in st.files && IsPrefix(p, q) && q != p ensures p in st.dirs {
      var parent := q[..|q| - 1];
      assert parent[..|p|] == p;
      AncestorsAreDirs(st, parent, |p|);
    }
  }

  /** Nothing lies below a path that is not a directory. */
  lemma NothingUnderMissing(st: FsState, p: Path)
    requires ValidState(st) && p !in st.dirs && p !in st.files
    ensures Under(p, st.dirs) == {} && Under(p, st.files) == {}
  {
    EntriesBelowMakeDir(st, p);
  }

  /** Creating a directory that exists succeeds and changes nothing. */
  lemma MakeDirsExisting(st: FsState, cwd: Path, name: string)
    requires ValidState(st) && name != "" && Resolve(cwd, name) in st.dirs
    ensures MakeDirsOutcome(st, cwd, name) == FsOutcome(st, None)
  {
    var p := Resolve(cwd, name);
    DirHasNoFileAncestor(st, p);
    forall q | q in Prefixes(p) ensures q in st.dirs {
      var k :| 0 <= k <= |p| && q == p[..k];
      AncestorsAreDirs(st, p, k);
    }
    assert st.dirs + Prefixes(p) == st.dirs;
  }

  /** Creating is idempotent: a second call finds the directory and changes nothing. */
  lemma MakeDirsIdempotent(st: FsState, cwd: Path, name: string)
    requires ValidState(st)
    requires MakeDirsOutcome(st, cwd, name).error.None?
    ensures var st' := MakeDirsOutcome(st, cwd, name).state;
      MakeDirsOutcome(st', cwd, name) == FsOutcome(st', None)
  {
    MakeDirsValid(st, cwd, name);
    MakeDirsExisting(MakeDirsOutcome(st, cwd, name).state, cwd, name);
  }

  /** Creating keeps the tree well formed. */
  lemma MakeDirsValid(st: FsState, cwd: Path, name: string)
    requires ValidState(st)
    ensures ValidState(MakeDirsOutcome(st, cwd, name).state)
  {
    var o := MakeDirsOutcome(st, cwd, name);
    if o.error.None? {
      var p := Resolve(cwd, name);
      assert o.state.dirs == st.dirs + Prefixes(p);
      forall q | q in Prefixes(p) && q != [] ensures q[..|q| - 1] in o.state.dirs {
        var k :| 0 <= k <= |p| && q == p[..k];
        assert q[..|q| - 1] == p[..k - 1];
      }
      forall q | q in Prefixes(p) ensures q !in st.files {
        var k :| 0 <= k <= |p| && q == p[..k];
        if k == 0 {
        } else if k == |p| {
          assert q == p;
        } else {
          assert !HasFileAncestor(st, p);
        }
      }
    }
  }

  /** Removing keeps the tree well formed. */
  lemma RmTreeValid(st: FsState, cwd: Path, name: string)
    requires ValidState(st)
    ensures ValidState(RmTreeOutcome(st, cwd, name).state)
  {
    var o := RmTreeOutcome(st, cwd, name);
    if o.error.None? {
      var p := Resolve(cwd, name);
      assert p != [];
      assert [] !in Under(p, st.dirs);
      forall q | q != [] && IsPrefix(p, q[..|q| - 1]) ensures IsPrefix(p, q) {
        assert q[..|p|] == q[..|q| - 1][..|p|];
      }
    }
  }

  /** Removing a path that does not exist raises FileNotFoundError and
      changes nothing. */
  lemma RmTreeMissing(st: FsState, cwd: Path, name: string)
    requires ValidState(st) && name != ""
    requires Resolve(cwd, name) !in st.dirs && Resolve(cwd, name) !in st.files
    requires !HasFileAncestor(st, Resolve(cwd, name))
    ensures RmTreeOutcome(st, cwd, name) == FsOutcome(st, Some(FileNotFound))
  {
  }

  /** Removing deletes exactly the subtree: every entry outside it stays. */
  lemma RmTreeExactlySubtree(st: FsState, cwd: Path, name: string)
    requires RmTreeOutcome(st, cwd, name).error.None?
    ensures var p, st' := Resolve(cwd, name), RmTreeOutcome(st, cwd, name).state;
      && (forall q :: q in st'.dirs <==> q in st.dirs && !IsPrefix(p, q))
      && (forall q :: q in st'.files <==> q in st.files && !IsPrefix(p, q))
      && p !in st'.dirs
  {
  }

  /** When `rmtree` succeeds or finds nothing, the path is gone afterwards
      and exactly the entries below it were removed. */
  lemma RmTreeLeavesNothingBelow(st: FsState, cwd: Path, name: string)
    requires ValidState(st) && name != ""
    requires RmTreeOutcome(st, cwd, name).error in {None, Some(FileNotFound)}
    ensures var p, st' := Resolve(cwd, name), RmTreeOutcome(st, cwd, name).state;
      && p !in st'.dirs
      && (forall q :: q in st'.dirs <==> q in st.dirs && !IsPrefix(p, q))
      && (forall q :: q in st'.files <==> q in st.files && !IsPrefix(p, q))
  {
    var p := Resolve(cwd, name);
    if RmTreeOutcome(st, cwd, name).error.Some? {
      NothingUnderMissing(st, p);
      forall q | q in st.dirs ensures !IsPrefix(p, q) {
        assert q !in Under(p, st.dirs);
      }
      forall q | q in st.files ensures !IsPrefix(p, q) {
        assert q !in Under(p, st.files);
      }
    }
  }

  /** A new directory under an existing parent is removed again without a
      trace: creating and then removing it restores the state. */
  lemma CreateThenRemoveRestores(st: FsState, cwd: Path, name: string)
    requires ValidState(st) && name != ""
    requires Resolve(cwd, name) != []
    requires Resolve(cwd, name)[..|Resolve(cwd, name)| - 1] in st.dirs
    requires Resolve(cwd, name) !in st.dirs && Resolve(cwd, name) !in st.files
    ensures MakeDirsOutcome(st, cwd, name).error.None?
    ensures RmTreeOutcome(MakeDirsOutcome(st, cwd, name).state, cwd, name) == FsOutcome(st, None)
  {
    var p := Resolve(cwd, name);
    var parent := p[..|p| - 1];
    assert !HasFileAncestor(st, p) by {
      forall k | 1 <= k < |p| ensures p[..k] !in st.files {
        assert p[..k] == parent[..k];
        AncestorsAreDirs(st, parent, k);
      }
    }
    var st1 := MakeDirsOutcome(st, cwd, name).state;
    assert st1.dirs == st.dirs + {p} by {
      forall q | q in Prefixes(p) ensures q in st.dirs + {p} {
        var k :| 0 <= k <= |p| && q == p[..k];
        if k < |p| {
          assert q == parent[..k];
          AncestorsAreDirs(st, parent, k);
        }
      }
      assert p[..|p|] == p;
    }
    MakeDirsValid(st, cwd, name);
    DirHasNoFileAncestor(st1, p);
    NothingUnderMissing(st, p);
    assert Under(p, st1.dirs) == {p};
    assert Under(p, st1.files) == {};
  }

  /** A file system whose directories and files change in place. */
  class FileSystem {
    /** The working directory relative paths start from. */
    const cwd: Path
    var dirs: set<Path>
    var files: set<Path>

    function State(): FsState
      reads this
    {
      FsState(dirs, files)
    }

    ghost predicate Valid()
      reads this
    {
      ValidState(State()) && ValidPath(cwd)
    }

    constructor (cwd: Path, st: FsState)
      requires ValidState(st) && ValidPath(cwd)
      ensures this.cwd == cwd && State() == st && Valid()
    {
      this.cwd := cwd;
      dirs := st.dirs;
      files := st.files;
    }

    /** Looks for a file among the proper ancestors of `p`, from the top. */
    method FindFileAncestor(p: Path) returns (found: bool)
      ensures found <==> HasFileAncestor(State(), p)
    {
      var k := 1;
      while k < |p|
        invariant 1 <= k <= |p| || (|p| == 0 && k == 1)
        invariant forall j :: 1 <= j < k && j < |p| ==> p[..j] !in files
      {
        if p[..k] in files {
          return true;
        }
        k := k + 1;
      }
      return false;
    }

    /** `os.makedirs(name, exist_ok=True)`: creates the missing ancestors
        from the top down, then the directory itself. */
    method MakeDirs(name: string) returns (err: Option<OsError>)
      requires Valid()
      modifies this
      ensures FsOutcome(State(), err) == MakeDirsOutcome(old(State()), cwd, name)
      ensures Valid()
    {
      MakeDirsValid(State(), cwd, name);
      if name == "" {
        return Some(FileNotFound);
      }
      var p := Resolve(cwd, name);
      var blocked := FindFileAncestor(p);
      if blocked {
        return Some(NotADirectory);
      }
      if p in files {
        return Some(FileExists);
      }
      var j := 0;
      while j <= |p|
        invariant 0 <= j <= |p| + 1
        invariant dirs == old(dirs) + (set i | 0 <= i < j :: p[..i])
        invariant files == old(files)
      {
        dirs := dirs + {p[..j]};
        j := j + 1;
      }
      assert (set i | 0 <= i < j :: p[..i]) == Prefixes(p);
      return None;
    }

    /** `shutil.rmtree(name)`. */
    method RmTree(name: string) returns (err: Option<OsError>)
      requires Valid()
      modifies this
      ensures FsOutcome(State(), err) == RmTreeOutcome(old(State()), cwd, name)
      ensures Valid()
    {
      RmTreeValid(State(), cwd, name);
      if name == "" {
        return Some(FileNotFound);
      }
      var p := Resolve(cwd, name);
      var blocked := FindFileAncestor(p);
      if blocked || p in files {
        return Some(NotADirectory);
      }
      if p !in dirs {
        return Some(FileNotFound);
      }
      if p == [] {
        dirs, files := {[]}, {};
        return Some(DeviceBusy);
      }
      dirs, files := dirs - Under(p, dirs), files - Under(p, files);
      return None;
    }
  }
}
