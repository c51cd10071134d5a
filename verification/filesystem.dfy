/**
 * The part of `std::fs` the organizer uses, as state: the set of regular files,
 * the set of directories, and a set of paths on which every change fails
 * (standing for permission and other I/O errors). `exists`, `create_dir`,
 * `remove_file` and `rename` are each given as a transition on a snapshot and
 * as a method of the `FileSystem` object that performs that transition.
 */
module FileSystem {
  import opened Paths
  import opened Errors

  /** A snapshot of the filesystem. */
  datatype FsState = FsState(files: set<Path>, dirs: set<Path>, denied: set<Path>) {

    /** `Path::exists`: there is a file or a directory at `p`. */
    predicate Exists(p: Path) {
      p in files || p in dirs
    }

    /** Every path that `Path::exists` reports. */
    function Present(): set<Path> {
      files + dirs
    }

    /** Nothing is both a file and a directory, and everything present sits in a directory. */
    ghost predicate Valid() {
      && files !! dirs
      && forall p :: p in files + dirs && p.Child? ==> p.parent in dirs
    }
  }

  /**
   * `fs::create_dir`: creates `p` when nothing is there yet, its parent is a
   * directory and `p` is not denied; otherwise an I/O error and no change.
   */
  function CreateDirStep(s: FsState, p: Path): (Result<()>, FsState) {
    if s.Exists(p) || p.Root? || p.parent !in s.dirs || p in s.denied then (Err(IoError), s)
    else (Ok(()), s.(dirs := s.dirs + {p}))
  }

  /** `fs::remove_file`: removes a regular file that is not denied. */
  function RemoveFileStep(s: FsState, p: Path): (Result<()>, FsState) {
    if p !in s.files || p in s.denied then (Err(IoError), s)
    else (Ok(()), s.(files := s.files - {p}))
  }

  /**
   * `fs::rename` of a regular file: the source must be a file, the target
   * must not be a directory and must sit in one, and neither may be denied.
   * An existing file at the target is replaced.
   */
  function RenameStep(s: FsState, from: Path, to: Path): (Result<()>, FsState) {
    if from !in s.files || from in s.denied || to in s.denied || to in s.dirs
       || to.Root? || to.parent !in s.dirs
    then (Err(IoError), s)
    else (Ok(()), s.(files := s.files - {from} + {to}))
  }

  /** Each of the three changes keeps the snapshot well formed and never changes what is denied. */
  lemma StepsPreserveValid(s: FsState, p: Path, q: Path)
    requires s.Valid()
    ensures CreateDirStep(s, p).1.Valid() && CreateDirStep(s, p).1.denied == s.denied
    ensures RemoveFileStep(s, p).1.Valid() && RemoveFileStep(s, p).1.denied == s.denied
    ensures RenameStep(s, p, q).1.Valid() && RenameStep(s, p, q).1.denied == s.denied
  {
  }

  /** The live filesystem the organizer works on. */
  class FileSystem {
    var files: set<Path>
    var dirs: set<Path>
    const denied: set<Path>

    constructor (files: set<Path>, dirs: set<Path>, denied: set<Path>)
      ensures State() == FsState(files, dirs, denied)
    {
      this.files := files;
      this.dirs := dirs;
      this.denied := denied;
    }

    /** The current snapshot. */
    function State(): FsState
      reads this
    {
      FsState(files, dirs, denied)
    }

    predicate Exists(p: Path)
      reads this
    {
      State().Exists(p)
    }

    method CreateDir(p: Path) returns (r: Result<()>)
      modifies this
      ensures (r, State()) == CreateDirStep(old(State()), p)
    {
      if Exists(p) || p.Root? || p.parent !in dirs || p in denied {
        return Err(IoError);
      }
      dirs := dirs + {p};
      return Ok(());
    }

    method RemoveFile(p: Path) returns (r: Result<()>)
      modifies this
      ensures (r, State()) == RemoveFileStep(old(State()), p)
    {
      if p !in files || p in denied {
        return Err(IoError);
      }
      files := files - {p};
      return Ok(());
    }

    method Rename(from: Path, to: Path) returns (r: Result<()>)
      modifies this
      ensures (r, State()) == RenameStep(old(State()), from, to)
    {
      if from !in files || from in denied || to in denied || to in dirs || to.Root? || to.parent !in dirs {
        return Err(IoError);
      }
      files := files - {from} + {to};
      return Ok(());
    }
  }
}
