/**
 * Moving one file into its category folder: `move_file` and the rename
 * policy's `generate_unique_filename` (src/cli.rs:543-604).
 */
module Mover {
  import opened Wrappers
  import opened Paths
  import opened Errors
  import opened FileSystem
  import opened Records

  /**
   * The first counter from `k` on whose candidate is not in `existing`. The
   * search ends because every candidate it passes is a distinct member of
   * `existing`.
   */
  function FirstFree(existing: set<Path>, dest: Path, k: nat): (m: nat)
    requires dest.Child?
    ensures m >= k
    ensures Candidate(dest, m) !in existing
    ensures forall j :: k <= j < m ==> Candidate(dest, j) in existing
    decreases |existing|
  {
    var c := Candidate(dest, k);
    if c !in existing then k
    else
      var m := FirstFree(existing - {c}, dest, k + 1);
      assert forall j :: k < j ==> Candidate(dest, j) != c by {
        forall j | k < j ensures Candidate(dest, j) != c {
          if Candidate(dest, j) == c { CandidateInjective(dest, j, k); }
        }
      }
      m
  }

  /**
   * The name the rename policy picks for a taken destination: the first
   * `stem_k.ext` (or `stem_k`), counting from 1, that does not exist.
   */
  function UniqueName(existing: set<Path>, dest: Path): (p: Path)
    requires dest.Child?
    ensures p !in existing && p.Child? && p.parent == dest.parent
    ensures exists k: nat :: k >= 1 && p == Candidate(dest, k) &&
              forall j :: 1 <= j < k ==> Candidate(dest, j) in existing
  {
    Candidate(dest, FirstFree(existing, dest, 1))
  }

  /** No free candidate comes before the one `UniqueName` picks. */
  lemma UniqueNameIsFirstFree(existing: set<Path>, dest: Path, k: nat)
    requires dest.Child? && k >= 1 && Candidate(dest, k) !in existing
    ensures UniqueName(existing, dest) == Candidate(dest, k) || FirstFree(existing, dest, 1) < k
  {
    var m := FirstFree(existing, dest, 1);
    assert m <= k;
  }

  /** The picked name keeps the extension and puts `_k` after the stem. */
  lemma UniqueNameKeepsExtension(existing: set<Path>, dest: Path)
    requires dest.Child? && dest.name != ".."
    ensures var parts := SplitName(UniqueName(existing, dest).name);
            parts.ext == SplitName(dest.name).ext &&
            parts.stem == SplitName(dest.name).stem + "_" + Decimal(FirstFree(existing, dest, 1))
  {
    CandidateKeepsExtension(dest.name, FirstFree(existing, dest, 1));
  }

  /** The `k`-th candidate for `dir/stem.ext` is `dir/stem_k.ext`. */
  lemma CandidateOfStemAndExtension(dir: Path, stem: string, e: string, k: nat)
    requires stem != "" && NoDot(e) && stem + "." + e != ".."
    ensures Candidate(Child(dir, stem + "." + e), k) == Child(dir, stem + "_" + Decimal(k) + "." + e)
  {
    SplitStemAndExtension(stem, e);
  }

  lemma TestTxtCandidate(dir: Path)
    ensures Candidate(Child(dir, "test.txt"), 1) == Child(dir, "test_1.txt")
  {
    assert NoDot("txt") && "test" + "." + "txt" == "test.txt";
    CandidateOfStemAndExtension(dir, "test", "txt", 1);
    assert Decimal(1) == "1";
    assert "test" + "_" + "1" + "." + "txt" == "test_1.txt";
  }

  lemma ReportPdfCandidates(dir: Path)
    ensures Candidate(Child(dir, "report.pdf"), 1) == Child(dir, "report_1.pdf")
    ensures Candidate(Child(dir, "report.pdf"), 2) == Child(dir, "report_2.pdf")
  {
    assert NoDot("pdf") && "report" + "." + "pdf" == "report.pdf";
    CandidateOfStemAndExtension(dir, "report", "pdf", 1);
    CandidateOfStemAndExtension(dir, "report", "pdf", 2);
    assert Decimal(1) == "1" && Decimal(2) == "2";
    assert "report" + "_" + "1" + "." + "pdf" == "report_1.pdf";
    assert "report" + "_" + "2" + "." + "pdf" == "report_2.pdf";
  }

  /** `test.txt` next to no `test_1.txt` becomes `test_1.txt`. */
  lemma UniqueNameOfTestTxt(existing: set<Path>, dir: Path)
    requires Child(dir, "test_1.txt") !in existing
    ensures UniqueName(existing, Child(dir, "test.txt")) == Child(dir, "test_1.txt")
  {
    TestTxtCandidate(dir);
    UniqueNameIsFirstFree(existing, Child(dir, "test.txt"), 1);
  }

  /** With `report_1.pdf` taken and `report_2.pdf` free, `report.pdf` becomes `report_2.pdf`. */
  lemma UniqueNameSkipsTakenCandidate(existing: set<Path>, dir: Path)
    requires Child(dir, "report_1.pdf") in existing && Child(dir, "report_2.pdf") !in existing
    ensures UniqueName(existing, Child(dir, "report.pdf")) == Child(dir, "report_2.pdf")
  {
    ReportPdfCandidates(dir);
    UniqueNameIsFirstFree(existing, Child(dir, "report.pdf"), 2);
  }

  /**
   * `generate_unique_filename`: probes `stem_1.ext`, `stem_2.ext`, ... against
   * the filesystem and returns the first that does not exist.
   */
  method GenerateUniqueFilename(fs: FileSystem, path: Path) returns (newPath: Path)
    requires path.Child?
    ensures newPath == UniqueName(fs.State().Present(), path)
  {
    ghost var existing := fs.State().Present();
    ghost var last := FirstFree(existing, path, 1);
    var counter := 1;
    newPath := Candidate(path, counter);
    while fs.Exists(newPath)
      invariant 1 <= counter <= last
      invariant newPath == Candidate(path, counter)
      decreases last - counter
    {
      counter := counter + 1;
      newPath := Candidate(path, counter);
    }
  }

  /** The folder a file belongs in: `base/category`. */
  function CategoryDir(file: FileInfo, base: Path): Path {
    Child(base, file.category)
  }

  /** Where a named file goes: `base/category/name`. */
  function Destination(file: FileInfo, base: Path): (d: Path)
    requires FileName(file.path).Some?
    ensures d.Child? && d.parent == CategoryDir(file, base) && d.name == file.path.name
  {
    Child(CategoryDir(file, base), FileName(file.path).value)
  }

  /** A finished rename counts as a move. */
  function Moved(step: (Result<()>, FsState)): (Result<bool>, FsState) {
    match step.0
    case Ok(_) => (Ok(true), step.1)
    case Err(e) => (Err(e), step.1)
  }

  /**
   * `move_file` on a snapshot: its result and the filesystem afterwards. The
   * category folder is created first on a real run; then a file with no name
   * is an `InvalidPath` error; then a taken destination is handled by the
   * conflict policy, where `skip` and any unknown policy leave the file where
   * it is, `overwrite` removes what is there and `rename` moves to a fresh
   * `stem_k.ext`. A dry run makes the same checks and changes nothing.
   */
  function MoveOutcome(s: FsState, file: FileInfo, base: Path, conflict: string, dryRun: bool): (Result<bool>, FsState) {
    var categoryDir := CategoryDir(file, base);
    var created := if !dryRun && !s.Exists(categoryDir) then CreateDirStep(s, categoryDir) else (Ok(()), s);
    var s1 := created.1;
    if created.0.Err? then (Err(IoError), s1)
    else match FileName(file.path)
      case None => (Err(InvalidPath("No filename")), s1)
      case Some(_) =>
        var dest := Destination(file, base);
        if !s1.Exists(dest) then
          if dryRun then (Ok(true), s1) else Moved(RenameStep(s1, file.path, dest))
        else if conflict == "skip" then (Ok(false), s1)
        else if conflict == "overwrite" then
          if dryRun then (Ok(true), s1)
          else
            var removed := RemoveFileStep(s1, dest);
            if removed.0.Err? then (Err(IoError), removed.1)
            else Moved(RenameStep(removed.1, file.path, dest))
        else if conflict == "rename" then
          if dryRun then (Ok(true), s1)
          else Moved(RenameStep(s1, file.path, UniqueName(s1.Present(), dest)))
        else (Ok(false), s1)
  }

  /** `move_file`, performed on the live filesystem. */
  method MoveFile(fs: FileSystem, file: FileInfo, base: Path, options: Options) returns (r: Result<bool>)
    modifies fs
    ensures (r, fs.State()) == MoveOutcome(old(fs.State()), file, base, options.conflict, options.dryRun)
  {
    var categoryDir := Child(base, file.category);
    if !options.dryRun && !fs.Exists(categoryDir) {
      var created := fs.CreateDir(categoryDir);
      if created.Err? {
        return Err(IoError);
      }
    }
    var name := FileName(file.path);
    if name.None? {
      return Err(InvalidPath("No filename"));
    }
    var dest := Child(categoryDir, name.value);
    if fs.Exists(dest) {
      if options.conflict == "skip" {
        return Ok(false);
      } else if options.conflict == "overwrite" {
        if !options.dryRun {
          var removed := fs.RemoveFile(dest);
          if removed.Err? {
            return Err(IoError);
          }
        }
      } else if options.conflict == "rename" {
        var newDest := GenerateUniqueFilename(fs, dest);
        if !options.dryRun {
          var renamed := fs.Rename(file.path, newDest);
          if renamed.Err? {
            return Err(IoError);
          }
        }
        return Ok(true);
      } else {
        return Ok(false);
      }
    }
    if !options.dryRun {
      var renamed := fs.Rename(file.path, dest);
      if renamed.Err? {
        return Err(IoError);
      }
    }
    return Ok(true);
  }

  /**
   * `move_file` fails only with an I/O error, or with `InvalidPath` for a file
   * that has no name; it never removes a directory and never changes which
   * paths are denied.
   */
  lemma MoveErrorsAndFolders(s: FsState, file: FileInfo, base: Path, conflict: string, dryRun: bool)
    ensures var (r, t) := MoveOutcome(s, file, base, conflict, dryRun);
            && (r.Err? ==> r == Err(IoError) || (r == Err(InvalidPath("No filename")) && FileName(file.path).None?))
            && t.denied == s.denied && s.dirs <= t.dirs
  {
  }

  /** A dry run changes nothing on disk. */
  lemma DryRunChangesNothing(s: FsState, file: FileInfo, base: Path, conflict: string)
    ensures MoveOutcome(s, file, base, conflict, true).1 == s
  {
  }

  /**
   * A dry run reports the decision the real run makes on the same filesystem:
   * the same answer whenever the real run succeeds, an `InvalidPath` error
   * exactly where the real run cannot name the file, and otherwise the real
   * run can only differ by failing with an I/O error.
   */
  lemma DryRunPredictsRealRun(s: FsState, file: FileInfo, base: Path, conflict: string)
    ensures var actual := MoveOutcome(s, file, base, conflict, false).0;
            var dry := MoveOutcome(s, file, base, conflict, true).0;
            && (actual.Ok? ==> dry == actual)
            && (dry.Ok? ==> actual == dry || actual == Err(IoError))
            && (dry.Err? <==> FileName(file.path).None?)
            && (dry.Err? ==> dry == Err(InvalidPath("No filename")) && actual.Err?)
  {
    if FileName(file.path).Some? {
      var dest := Destination(file, base);
      assert dest != CategoryDir(file, base);
    }
  }

  /**
   * A file with no name is an error and no file is touched. The error is
   * `InvalidPath` unless a real run first failed to create the category folder.
   */
  lemma NoFileNameIsInvalidPath(s: FsState, file: FileInfo, base: Path, conflict: string, dryRun: bool)
    requires FileName(file.path).None?
    ensures MoveOutcome(s, file, base, conflict, dryRun).0.Err?
    ensures dryRun || s.Exists(CategoryDir(file, base)) || CreateDirStep(s, CategoryDir(file, base)).0.Ok?
            ==> MoveOutcome(s, file, base, conflict, dryRun).0 == Err(InvalidPath("No filename"))
    ensures !dryRun && !s.Exists(CategoryDir(file, base)) && CreateDirStep(s, CategoryDir(file, base)).0.Err?
            ==> MoveOutcome(s, file, base, conflict, dryRun) == (Err(IoError), s)
    ensures MoveOutcome(s, file, base, conflict, dryRun).1.files == s.files
  {
  }

  /**
   * A move keeps the filesystem well formed, so the lemmas below, which assume
   * a well-formed filesystem, apply to every file of a run and not only the first.
   */
  lemma MoveKeepsValid(s: FsState, file: FileInfo, base: Path, conflict: string, dryRun: bool)
    requires s.Valid()
    ensures MoveOutcome(s, file, base, conflict, dryRun).1.Valid()
  {
    var categoryDir := CategoryDir(file, base);
    StepsPreserveValid(s, categoryDir, categoryDir);
    var s1 := if !dryRun && !s.Exists(categoryDir) then CreateDirStep(s, categoryDir).1 else s;
    if FileName(file.path).Some? && !dryRun {
      var dest := Destination(file, base);
      if !s1.Exists(dest) {
        StepsPreserveValid(s1, file.path, dest);
      } else if conflict == "overwrite" {
        StepsPreserveValid(s1, dest, dest);
        StepsPreserveValid(RemoveFileStep(s1, dest).1, file.path, dest);
      } else if conflict == "rename" {
        StepsPreserveValid(s1, file.path, UniqueName(s1.Present(), dest));
      }
    }
  }

  /** With the destination taken, `skip` answers "not moved" and changes nothing. */
  lemma SkipLeavesEverythingAlone(s: FsState, file: FileInfo, base: Path, dryRun: bool)
    requires s.Valid() && FileName(file.path).Some? && s.Exists(Destination(file, base))
    ensures MoveOutcome(s, file, base, "skip", dryRun) == (Ok(false), s)
  {
  }

  /** With the destination taken, a policy other than skip, overwrite and rename behaves like skip. */
  lemma UnknownPolicyLeavesEverythingAlone(s: FsState, file: FileInfo, base: Path, conflict: string, dryRun: bool)
    requires s.Valid() && FileName(file.path).Some? && s.Exists(Destination(file, base))
    requires conflict != "skip" && conflict != "overwrite" && conflict != "rename"
    ensures MoveOutcome(s, file, base, conflict, dryRun) == (Ok(false), s)
  {
  }

  /**
   * With the destination taken, `rename` moves the file to the first free
   * `stem_k.ext` beside it and leaves what is at the destination in place;
   * on an I/O error nothing changes.
   */
  lemma RenameMovesBesideTakenDestination(s: FsState, file: FileInfo, base: Path)
    requires s.Valid() && FileName(file.path).Some? && s.Exists(Destination(file, base))
    ensures var (r, t) := MoveOutcome(s, file, base, "rename", false);
            var dest := Destination(file, base);
            && (r == Ok(true) || r == Err(IoError))
            && (r.Ok? ==> t.files == s.files - {file.path} + {UniqueName(s.Present(), dest)} && t.dirs == s.dirs)
            && (r.Ok? && file.path != dest ==> t.Exists(dest))
            && (r.Err? ==> t == s)
  {
  }

  /**
   * With the destination taken, `overwrite` removes it and moves the file
   * there. If the move then fails, the removed destination stays removed.
   */
  lemma OverwriteReplacesDestination(s: FsState, file: FileInfo, base: Path)
    requires s.Valid() && FileName(file.path).Some? && s.Exists(Destination(file, base))
    ensures var (r, t) := MoveOutcome(s, file, base, "overwrite", false);
            var dest := Destination(file, base);
            && (r == Ok(true) || r == Err(IoError))
            && (r.Ok? ==> t.files == s.files - {file.path} + {dest} && t.dirs == s.dirs)
            && (r.Err? ==> t.dirs == s.dirs && (t.files == s.files || t.files == s.files - {dest}))
  {
  }

  /**
   * With the destination free and nothing in the way, a real run creates the
   * category folder if needed and moves the file into it, whatever the policy.
   */
  lemma MoveIntoCategoryFolder(s: FsState, file: FileInfo, base: Path, conflict: string)
    requires s.Valid() && FileName(file.path).Some? && !s.Exists(Destination(file, base))
    requires file.path in s.files && file.path !in s.denied && Destination(file, base) !in s.denied
    requires base in s.dirs && CategoryDir(file, base) !in s.files && CategoryDir(file, base) !in s.denied
    ensures var (r, t) := MoveOutcome(s, file, base, conflict, false);
            && r == Ok(true)
            && t.files == s.files - {file.path} + {Destination(file, base)}
            && t.dirs == s.dirs + {CategoryDir(file, base)}
  {
  }

  /**
   * A move only takes away the file itself and, under `overwrite`, the file at
   * its destination; what it adds is the category folder and a file inside it.
   */
  lemma MoveTouchesOnlyItsOwnPaths(s: FsState, file: FileInfo, base: Path, conflict: string, dryRun: bool)
    requires FileName(file.path).Some?
    ensures var t := MoveOutcome(s, file, base, conflict, dryRun).1;
            && s.files - {file.path, Destination(file, base)} <= t.files
            && (forall p :: p in t.files && p !in s.files ==> p.Child? && p.parent == CategoryDir(file, base))
            && s.dirs <= t.dirs <= s.dirs + {CategoryDir(file, base)}
  {
  }

  /** Under any policy but `overwrite`, a move removes no file other than the one it moves. */
  lemma MoveKeepsOtherFiles(s: FsState, file: FileInfo, base: Path, conflict: string, dryRun: bool, p: Path)
    requires conflict != "overwrite" && p in s.files && p != file.path
    ensures p in MoveOutcome(s, file, base, conflict, dryRun).1.files
  {
  }
}
