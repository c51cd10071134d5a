/**
 * A whole run: `organizer_files` and `run_interactive_mode`
 * (src/cli.rs:74-394), with the loops that fold each `move_file` outcome
 * into the statistics and, in interactive mode, into the progress screen.
 * Console and terminal output is not modelled.
 */
module Organizer {
  import opened Wrappers
  import opened Paths
  import opened Errors
  import opened FileSystem
  import opened Classifier
  import opened Records
  import opened Scanner
  import opened Mover
  import opened Progress
  import opened Preview
  import opened Summary

  /**
   * The outcomes of moving the first `n` of `files` one after the other, and
   * the filesystem afterwards.
   */
  function RunMoves(s: FsState, files: seq<FileInfo>, n: nat, base: Path, conflict: string, dryRun: bool)
    : (r: (seq<Result<bool>>, FsState))
    requires n <= |files|
    ensures |r.0| == n
  {
    if n == 0 then ([], s)
    else
      var before := RunMoves(s, files, n - 1, base, conflict, dryRun);
      var last := MoveOutcome(before.1, files[n - 1], base, conflict, dryRun);
      (before.0 + [last.0], last.1)
  }

  /** The statistics a run prints: one entry per file, folded in order. */
  function RunStats(files: seq<FileInfo>, outcomes: seq<Result<bool>>): OrganizeStats {
    Tally(outcomes).(totalFiles := |files|)
  }

  /** How a run ends when it does not fail. */
  datatype Report =
    | NoFiles
    /** An interactive dry run: only the preview was shown; `cancelled` when it was quit. */
    | Previewed(cancelled: bool)
    | Organized(stats: OrganizeStats)
    | OrganizedInteractively(summary: SummaryApp)

  /** The loop of `organizer_files`: moves every file and counts what happened. */
  method OrganizeLoop(fs: FileSystem, files: seq<FileInfo>, base: Path, options: Options)
    returns (stats: OrganizeStats, ghost outcomes: seq<Result<bool>>)
    modifies fs
    ensures (outcomes, fs.State()) == RunMoves(old(fs.State()), files, |files|, base, options.conflict, options.dryRun)
    ensures stats == RunStats(files, outcomes)
    ensures stats.Balanced()
  {
    ghost var s0 := fs.State();
    stats := NewStats();
    stats := stats.(totalFiles := |files|);
    outcomes := [];
    for i := 0 to |files|
      invariant (outcomes, fs.State()) == RunMoves(s0, files, i, base, options.conflict, options.dryRun)
      invariant stats == RunStats(files, outcomes)
    {
      var r := MoveFile(fs, files[i], base, options);
      TallyExtend(outcomes, r);
      outcomes := outcomes + [r];
      match r {
        case Ok(moved) =>
          if moved {
            stats := stats.(moved := stats.moved + 1);
          } else {
            stats := stats.(skipped := stats.skipped + 1);
          }
        case Err(_) =>
          stats := stats.(errors := stats.errors + 1);
      }
    }
    TallyCountsEveryOutcome(outcomes);
  }

  /**
   * One turn of the loop of `run_interactive_mode`: shows the file, moves it,
   * and counts the outcome; a moved file also counts in its category and
   * adds its size to the bytes moved.
   */
  method ProcessFile(fs: FileSystem, app: ProgressApp, file: FileInfo, base: Path, options: Options)
    returns (r: Result<bool>, sizeMoved: nat)
    modifies fs, app
    ensures (r, fs.State()) == MoveOutcome(old(fs.State()), file, base, options.conflict, options.dryRun)
    ensures app.totalFiles == old(app.totalFiles) && app.stats == Record(old(app.stats), r)
    ensures app.categoryProgress == if r == Ok(true) then Bumped(old(app.categoryProgress), file.category, file.size)
                                    else old(app.categoryProgress)
    ensures sizeMoved == if r == Ok(true) then file.size else 0
    ensures app.currentFile == FileName(file.path).UnwrapOr("") && app.currentCategory == file.category
    ensures app.currentMime == file.mime.UnwrapOr("unknown") && app.currentSize == file.size
  {
    app.UpdateCurrent(file);
    r := MoveFile(fs, file, base, options);
    sizeMoved := 0;
    match r {
      case Ok(moved) =>
        if moved {
          app.stats := app.stats.(moved := app.stats.moved + 1);
          app.UpdateCategory(file.category, file.size);
          sizeMoved := file.size;
        } else {
          app.stats := app.stats.(skipped := app.stats.skipped + 1);
        }
      case Err(_) =>
        app.stats := app.stats.(errors := app.stats.errors + 1);
    }
  }

  /**
   * The loop of `run_interactive_mode` on a real run: moves every file while
   * the progress screen shows it, counting moves per category and the bytes
   * moved.
   */
  method ProgressLoop(fs: FileSystem, files: seq<FileInfo>, base: Path, options: Options)
    returns (app: ProgressApp, totalSizeMoved: nat, ghost outcomes: seq<Result<bool>>)
    modifies fs
    ensures fresh(app)
    ensures (outcomes, fs.State()) == RunMoves(old(fs.State()), files, |files|, base, options.conflict, options.dryRun)
    ensures app.totalFiles == |files| && app.stats == RunStats(files, outcomes)
    ensures app.categoryProgress == ProgressAfter(files, outcomes)
    ensures totalSizeMoved == SizeMoved(files, outcomes)
  {
    ghost var s0 := fs.State();
    app := new ProgressApp(|files|);
    app.stats := app.stats.(totalFiles := |files|);
    totalSizeMoved := 0;
    outcomes := [];
    for i := 0 to |files|
      invariant fresh(app)
      invariant (outcomes, fs.State()) == RunMoves(s0, files, i, base, options.conflict, options.dryRun)
      invariant app.totalFiles == |files| && app.stats == RunStats(files, outcomes)
      invariant |outcomes| == i
      invariant app.categoryProgress == ProgressAfter(files, outcomes)
      invariant totalSizeMoved == SizeMoved(files, outcomes)
    {
      var r, sizeMoved := ProcessFile(fs, app, files[i], base, options);
      TallyExtend(outcomes, r);
      ProgressExtend(files, outcomes, r);
      outcomes := outcomes + [r];
      totalSizeMoved := totalSizeMoved + sizeMoved;
    }
  }

  /**
   * `run_interactive_mode`: a dry run only shows the preview and moves
   * nothing; a real run moves the files under the progress screen and then
   * shows the summary.
   */
  method RunInteractiveMode(fs: FileSystem, files: seq<FileInfo>, base: Path, options: Options, events: seq<Event>)
    returns (r: Result<Report>, ghost outcomes: seq<Result<bool>>)
    modifies fs
    ensures options.dryRun ==> fs.State() == old(fs.State()) && r == Ok(Previewed(Run(Start, events).0.shouldQuit))
    ensures !options.dryRun ==>
              && (outcomes, fs.State()) == RunMoves(old(fs.State()), files, |files|, base, options.conflict, false)
              && r == Ok(OrganizedInteractively(SummaryApp(RunStats(files, outcomes), ProgressAfter(files, outcomes), SizeMoved(files, outcomes))))
  {
    if options.dryRun {
      var preview := new PreviewApp(files);
      var _, _ := preview.RunLoop(events);
      outcomes := [];
      return Ok(Previewed(preview.shouldQuit)), outcomes;
    }
    var app, totalSizeMoved;
    app, totalSizeMoved, outcomes := ProgressLoop(fs, files, base, options);
    var summary := SummaryApp(app.stats, app.categoryProgress, totalSizeMoved);
    var _, _ := summary.RunLoop(events);
    return Ok(OrganizedInteractively(summary)), outcomes;
  }

  /**
   * `organizer_files`: checks that the path is an existing directory, scans
   * it, and moves what it found, interactively or not.
   */
  method OrganizerFiles(fs: FileSystem, options: Options, listing: Listing, sniff: Path -> Option<string>, events: seq<Event>)
    returns (r: Result<Report>, ghost outcomes: seq<Result<bool>>)
    modifies fs
    ensures !old(fs.State()).Exists(options.path) ==> r == Err(PathNotFound(options.path)) && fs.State() == old(fs.State())
    ensures old(fs.State()).Exists(options.path) && options.path !in old(fs.State()).dirs ==>
              r == Err(PathNotDirectory(options.path)) && fs.State() == old(fs.State())
    ensures var scan := ScanListing(options.path, listing, options.recursive, sniff);
            options.path in old(fs.State()).dirs ==>
              && (!scan.ok ==> r == Err(IoError) && fs.State() == old(fs.State()))
              && (scan.ok && scan.records == [] ==> r == Ok(NoFiles) && fs.State() == old(fs.State()))
              && (scan.ok && scan.records != [] && !options.interactive ==>
                    && (outcomes, fs.State()) == RunMoves(old(fs.State()), scan.records, |scan.records|, options.path, options.conflict, options.dryRun)
                    && r == Ok(Organized(RunStats(scan.records, outcomes))))
              && (scan.ok && scan.records != [] && options.interactive && options.dryRun ==>
                    r == Ok(Previewed(Run(Start, events).0.shouldQuit)) && fs.State() == old(fs.State()))
              && (scan.ok && scan.records != [] && options.interactive && !options.dryRun ==>
                    && (outcomes, fs.State()) == RunMoves(old(fs.State()), scan.records, |scan.records|, options.path, options.conflict, false)
                    && r == Ok(OrganizedInteractively(SummaryApp(RunStats(scan.records, outcomes),
                                                                 ProgressAfter(scan.records, outcomes),
                                                                 SizeMoved(scan.records, outcomes)))))
  {
    outcomes := [];
    var path := options.path;
    if !fs.Exists(path) {
      return Err(PathNotFound(path)), outcomes;
    }
    if path !in fs.dirs {
      return Err(PathNotDirectory(path)), outcomes;
    }
    var scanned := ScanDirectory(path, listing, options.recursive, sniff);
    if scanned.Err? {
      return Err(scanned.error), outcomes;
    }
    var files := scanned.value;
    if files == [] {
      return Ok(NoFiles), outcomes;
    }
    if options.interactive {
      r, outcomes := RunInteractiveMode(fs, files, path, options, events);
      return;
    }
    var stats;
    stats, outcomes := OrganizeLoop(fs, files, path, options);
    return Ok(Organized(stats)), outcomes;
  }

  /**
   * A dry run changes nothing, and every answer it gives is the answer
   * `move_file` gives for that file on the untouched filesystem.
   */
  lemma {:induction false} DryRunJudgesEachFileAlone(s: FsState, files: seq<FileInfo>, n: nat, base: Path, conflict: string)
    requires n <= |files|
    ensures RunMoves(s, files, n, base, conflict, true).1 == s
    ensures forall i :: 0 <= i < n ==>
              RunMoves(s, files, n, base, conflict, true).0[i] == MoveOutcome(s, files[i], base, conflict, true).0
  {
    if n > 0 {
      DryRunJudgesEachFileAlone(s, files, n - 1, base, conflict);
      DryRunChangesNothing(s, files[n - 1], base, conflict);
    }
  }

  /**
   * Because of that, a dry run can promise more than the real run does: two
   * files with the same name in different subfolders both count as moved in
   * a dry run, while the real run moves the first and then, under `skip`,
   * finds the second one's destination taken.
   */
  lemma DryRunCanOverstateMoves()
    ensures var base := Child(Root, "d");
            var first := FileInfo(Child(base, "a.txt"), Some("text/plain"), Docs, 1);
            var second := FileInfo(Child(Child(base, "sub"), "a.txt"), Some("text/plain"), Docs, 1);
            var s := FsState({first.path, second.path}, {Root, base, Child(base, "sub")}, {});
            && RunMoves(s, [first, second], 2, base, "skip", true).0 == [Ok(true), Ok(true)]
            && RunMoves(s, [first, second], 2, base, "skip", false).0 == [Ok(true), Ok(false)]
  {
    var base := Child(Root, "d");
    var docs := Child(base, Docs);
    var first := FileInfo(Child(base, "a.txt"), Some("text/plain"), Docs, 1);
    var second := FileInfo(Child(Child(base, "sub"), "a.txt"), Some("text/plain"), Docs, 1);
    var s := FsState({first.path, second.path}, {Root, base, Child(base, "sub")}, {});
    var files := [first, second];
    DryRunJudgesEachFileAlone(s, files, 2, base, "skip");
    var moved := FsState({Child(docs, "a.txt"), second.path}, s.dirs + {docs}, {});
    assert first.path != second.path && !s.Exists(docs);
    var s1 := s.(dirs := s.dirs + {docs});
    assert CreateDirStep(s, docs) == (Ok(()), s1);
    assert FileName(first.path) == Some("a.txt");
    assert Destination(first, base) == Child(docs, "a.txt");
    assert !s1.Exists(Child(docs, "a.txt"));
    assert s1.files - {first.path} + {Child(docs, "a.txt")} == moved.files;
    assert RenameStep(s1, first.path, Child(docs, "a.txt")) == (Ok(()), moved);
    assert MoveOutcome(s, first, base, "skip", false) == (Ok(true), moved);
    assert RunMoves(s, files, 0, base, "skip", false) == ([], s);
    var none: seq<Result<bool>> := [];
    assert none + [Ok(true)] == [Ok(true)];
    assert RunMoves(s, files, 1, base, "skip", false) == ([Ok(true)], moved);
    assert MoveOutcome(moved, second, base, "skip", false).0 == Ok(false);
  }

  /** Every file a run moves, skips or fails on is counted exactly once. */
  lemma RunStatsBalanced(s: FsState, files: seq<FileInfo>, base: Path, conflict: string, dryRun: bool)
    ensures RunStats(files, RunMoves(s, files, |files|, base, conflict, dryRun).0).Balanced()
  {
    TallyCountsEveryOutcome(RunMoves(s, files, |files|, base, conflict, dryRun).0);
  }

  /**
   * For the files a scan finds, the summary's category counters add up to the
   * number of files moved, and their sizes to the bytes moved.
   */
  lemma SummaryAccountsForScannedFiles(s: FsState, dir: Path, listing: Listing, recursive: bool,
                                       sniff: Path -> Option<string>, conflict: string, dryRun: bool)
    ensures var files := ScanListing(dir, listing, recursive, sniff).records;
            var outcomes := RunMoves(s, files, |files|, dir, conflict, dryRun).0;
            Sum(ProgressAfter(files, outcomes)) == CategoryProgress(RunStats(files, outcomes).moved, SizeMoved(files, outcomes))
  {
    var files := ScanListing(dir, listing, recursive, sniff).records;
    ScanCategorizesEveryFile(dir, listing, recursive, sniff);
    assert forall i :: 0 <= i < |files| ==> files[i] in files;
    ProgressAccountsForEveryMove(files, RunMoves(s, files, |files|, dir, conflict, dryRun).0);
  }

  /** Under any policy but `overwrite`, a run keeps every file it was not asked to move. */
  lemma {:induction false} RunKeepsOtherFiles(s: FsState, files: seq<FileInfo>, n: nat, base: Path, conflict: string,
                                              dryRun: bool, p: Path)
    requires n <= |files| && conflict != "overwrite" && p in s.files
    requires forall i :: 0 <= i < |files| ==> files[i].path != p
    ensures p in RunMoves(s, files, n, base, conflict, dryRun).1.files
  {
    if n > 0 {
      RunKeepsOtherFiles(s, files, n - 1, base, conflict, dryRun, p);
      MoveKeepsOtherFiles(RunMoves(s, files, n - 1, base, conflict, dryRun).1, files[n - 1], base, conflict, dryRun, p);
    }
  }

  /** A run keeps the filesystem well formed, file after file. */
  lemma {:induction false} RunKeepsValid(s: FsState, files: seq<FileInfo>, n: nat, base: Path, conflict: string,
                                         dryRun: bool)
    requires n <= |files| && s.Valid()
    ensures RunMoves(s, files, n, base, conflict, dryRun).1.Valid()
  {
    if n > 0 {
      RunKeepsValid(s, files, n - 1, base, conflict, dryRun);
      MoveKeepsValid(RunMoves(s, files, n - 1, base, conflict, dryRun).1, files[n - 1], base, conflict, dryRun);
    }
  }

  /**
   * Organizing a directory again leaves alone what is already in its category
   * folders: the scan never collects a file from `dir/<category>`, so, unless
   * the policy is `overwrite`, every such file is still there after the run.
   */
  lemma SecondRunKeepsOrganizedFiles(s: FsState, dir: Path, listing: Listing, recursive: bool,
                                     sniff: Path -> Option<string>, conflict: string, dryRun: bool, p: Path)
    requires conflict != "overwrite"
    requires p in s.files && p.Child? && p.parent.Child? && p.parent.parent == dir && IsCategory(p.parent.name)
    ensures var files := ScanListing(dir, listing, recursive, sniff).records;
            p in RunMoves(s, files, |files|, dir, conflict, dryRun).1.files
  {
    var files := ScanListing(dir, listing, recursive, sniff).records;
    ScanListingSound(dir, listing, recursive, sniff);
    assert p.parent != dir;
    assert !Descends(true, p.parent);
    assert !Beneath(dir, p.parent);
    forall i | 0 <= i < |files| ensures files[i].path != p {
      assert files[i] in files;
    }
    RunKeepsOtherFiles(s, files, |files|, dir, conflict, dryRun, p);
  }
}
