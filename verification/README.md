# File organizer, modelled in Dafny

The organizer is a command line tool. It scans a directory, optionally
descending into subdirectories. It guesses each regular file's MIME type and
sorts the file into one of four category folders: `Multimedia`, `Docs`,
`Compressed` and `Misc`. These are created directly in the directory being organized. When the
destination name is taken, the `--conflict` policy decides: `skip`,
`overwrite` or `rename`. With `--dry-run` nothing on disk changes. With
`--interactive`, a dry run shows a preview dashboard driven by the keyboard.
A real run shows a live progress screen and then a summary screen.

This project models that core:

- `paths.dfy`: paths and file names. `file_name`, the stem / extension split,
  and the `stem_k.ext` candidate names.
- `filesystem.dfy`: the part of `std::fs` the organizer uses, as a `FileSystem`
  object over a set of files and a set of directories. `exists`, `create_dir`,
  `remove_file` and `rename` are each specified by a transition on a
  snapshot. A set of denied paths stands for the I/O failures of those calls.
- `records.dfy`, `errors.dfy`: `MyOrganizer`'s options, `FileInfo`,
  `OrganizeStats` and the way one `move_file` outcome bumps one counter, and
  `OrganizerError`.
- `classifier.dfy`: `categorize_file` and its MIME table.
- `scanner.dfy`: `scan_directory` / `scan_directory_recursive` over a
  directory tree given entry by entry, pushing onto a `FileList`.
- `mover.dfy`: `generate_unique_filename` (a loop probing the filesystem) and
  `move_file`, each proved against a specification function.
- `organizer.dfy`: `organizer_files` and `run_interactive_mode`. This includes
  their loops folding each outcome into the statistics, the category counters
  and the bytes moved.
- `preview.dfy`, `progress.dfy`, `summary.dfy`: the three dashboards of
  `src/tui.rs`. They cover `PreviewApp`'s key handling, `ProgressApp` with its
  `CategoryProgress` counters, and `SummaryApp`'s dismiss keys and title.
- `text.dfy`: the two `truncate_str` helpers.

Events are a finite sequence given to each dashboard loop instead of
terminal polls. MIME sniffing is a function parameter `sniff`. The directory
tree the scan walks is a parameter `listing`.

About dry runs: a dry run's answers are not a promise about what a real run of
the same files would report. The code judges each file in a dry run against
the untouched filesystem, and `DryRunJudgesEachFileAlone` proves it. So two
files with the same name from different subdirectories both count as moved in
a dry run, while the real run moves the first and, under `skip`, skips the
second (`DryRunCanOverstateMoves`). What does hold is per-file agreement on
one and the same filesystem (`DryRunPredictsRealRun`). The model follows the
code here.

## Model

| member | source | states |
|---|---|---|
| Paths.FileName | src/cli.rs:551-554 | `file_name`: the last component, absent exactly for the root and for a trailing `..` |
| Paths.SplitName | src/cli.rs:587-589 | `file_stem` / `extension`: there is an extension exactly when the name is not `..` and has a dot after its first character; an extension has no dot and comes with a non-empty stem; without one the stem is the whole name |
| Paths.LastDot | src/cli.rs:586-590 | the index of the last `.` of a name, absent exactly when the name has no dot; nothing after it is a dot |
| Paths.SplitJoin | src/cli.rs:586-590 | splitting a file name into stem and extension and joining them again gives the name back |
| Paths.SplitStemAndExtension | src/cli.rs:588-589 | a non-empty stem, a dot and a dot-free extension split back into exactly that stem and extension |
| Paths.Decimal | src/cli.rs:594-595 | the numeral of the counter is non-empty, all decimal digits, and has no leading zero; `DecimalReadsBack` states that it denotes the counter |
| Paths.DecimalReadsBack | src/cli.rs:594-595 | the digits of the numeral of `n`, read back in base 10, denote `n` |
| Paths.DecimalInjective | src/cli.rs:594-595 | different counters give different numerals |
| Paths.Candidate | src/cli.rs:592-598 | the `k`-th candidate is a sibling of the destination |
| Paths.CandidateInjective | src/cli.rs:592-603 | different counters give different candidate paths, so the search never probes one twice |
| Paths.CandidateKeepsExtension | src/cli.rs:593-596 | the candidate's own stem / extension split is the old stem followed by `_k`, with the old extension |
| FileSystem.StepsPreserveValid | src/cli.rs:547-583 | `create_dir`, `remove_file` and `rename` keep files and directories disjoint and every entry inside a directory |
| FileSystem.FileSystem.CreateDir | src/cli.rs:547-549 | creates the directory when nothing is there, its parent is a directory and the path is not denied, else an I/O error and no change |
| FileSystem.FileSystem.RemoveFile | src/cli.rs:563-567 | removes an existing regular file, else an I/O error and no change |
| FileSystem.FileSystem.Rename | src/cli.rs:569-583 | moves a regular file onto a target that is not a directory and sits in one, replacing a file there, else an I/O error and no change |
| Records.NewStats | src/cli.rs:63-71 | all four counters start at zero |
| Records.Record | src/cli.rs:161-205 | `Ok(true)` adds one to moved, `Ok(false)` one to skipped and an error one to errors; every other counter and the total stay as they were |
| Records.Tally | src/cli.rs:146-223 | the statistics of a sequence of outcomes, folded from zero, with the total left to the caller; the three lemmas below count each kind of outcome |
| Records.TallyExtend | src/cli.rs:161-204 | one more outcome bumps exactly the counter `move_file`'s result selects |
| Records.TallyCountsEveryOutcome | src/cli.rs:149-223 | moves, skips and errors together number the outcomes, so every file is counted once |
| Records.TallyMovesOnlyOnOk | src/cli.rs:161-163 | the moved counter is the number of `Ok(true)` outcomes |
| Records.TallySkipsOnlyOnOkFalse | src/cli.rs:192-195 | the skipped counter is the number of `Ok(false)` outcomes |
| Records.TallyErrorsOnlyOnErr | src/cli.rs:203-206 | the errors counter is the number of failed outcomes |
| Classifier.MimeCategory | src/cli.rs:453-531 | the table's entry for an exact key, always one of the four category names |
| Classifier.CategorizeFile | src/cli.rs:452-541 | the result is one of the four category names; a key of the table gets its table entry, and anything but `Misc` comes from a table entry for the given type |
| Classifier.TableKeysDisjoint | src/cli.rs:453-531 | no MIME type is listed under two categories, so the table has one entry per key |
| Classifier.EveryKeyGetsItsCategory | src/cli.rs:453-538 | every key listed under a category is categorized as that category |
| Classifier.CategorizeFallsBackToMisc | src/cli.rs:533-540 | no MIME type, or a type that is not a key of the table, gives `Misc` |
| Classifier.MultimediaEntries | src/lib.rs:11-28 | `image/png`, `image/jpeg`, `image/gif`, `video/mp4` and `video/webm` are `Multimedia` |
| Classifier.CompressedEntries | src/lib.rs:31-39 | `application/zip`, `application/x-7z-compressed` and `application/x-tar` are `Compressed` |
| Classifier.DocsEntries | src/cli.rs:499-511 | `application/pdf`, the Word document type and `text/plain` are `Docs` |
| Classifier.MiscEntries | src/cli.rs:507-513 | `text/css` and `application/json` are listed as `Misc` |
| Classifier.CodeEntries | src/lib.rs:51-59 | `text/javascript` and `text/x-python` are `Misc` |
| Classifier.UnknownTypeIsMisc | src/lib.rs:62-68 | a type missing from the table is `Misc` |
| Classifier.NoCaseFolding | src/cli.rs:533-538 | lookup is exact: an upper-case spelling of a key is not a key |
| Classifier.NoParameterMatching | src/cli.rs:533-538 | lookup is exact: a key followed by parameters is not a key |
| Scanner.ScanListing | src/cli.rs:415-450 | the scan of one directory: an unreadable directory fails, else its entries are scanned in order |
| Scanner.ScanEntries | src/cli.rs:421-447 | the entries scanned in order, appending each entry's records and stopping at the first failure |
| Scanner.ScanEntry | src/cli.rs:422-446 | a failure only comes from an unreadable entry or a subdirectory the scan descends into |
| Scanner.ScanFailsExactlyAtAnEntry | src/cli.rs:421-447 | scanning the entries fails exactly when scanning one of them fails |
| Scanner.FileList.Push | src/cli.rs:430-435 | appends one record to the list |
| Scanner.ScanDirectoryRecursive | src/cli.rs:415-450 | appends exactly the scan's records of the directory, in order, and fails with an I/O error exactly when the scan hits an unreadable directory or entry |
| Scanner.ScanOneEntry | src/cli.rs:422-446 | a regular file adds its record, a subdirectory is descended into unless the scan is flat or it is a category folder, anything else adds nothing, and an unreadable entry fails |
| Scanner.ScanEntriesExtend | src/cli.rs:421-447 | scanning one more entry appends that entry's records |
| Scanner.ScanStopsAtError | src/cli.rs:421-423 | after the first error nothing more is scanned |
| Scanner.ScanDirectory | src/cli.rs:396-413 | the scan's records, or the I/O error that stopped it |
| Scanner.ScanCategorizesEveryFile | src/cli.rs:428-430 | every record carries its sniffed MIME type and that type's category, one of the four |
| Scanner.NonRecursiveScanStaysAtTop | src/cli.rs:436 | without `--recursive` every record sits directly in the scanned directory |
| Scanner.RecursiveScanSkipsCategoryFolders | src/cli.rs:436-445 | with `--recursive` every record sits beneath the scanned directory, never inside a folder named like a category, at any depth |
| Scanner.ScanCollectsEveryEntry | src/cli.rs:421-447 | a finished scan contains every record each entry contributes |
| Mover.FirstFree | src/cli.rs:592-603 | the first counter from `k` on whose candidate is free; every counter before it is taken |
| Mover.UniqueName | src/cli.rs:586-604 | a free sibling of the destination, the candidate of some `k >= 1` with every smaller candidate taken |
| Mover.UniqueNameIsFirstFree | src/cli.rs:592-603 | no free candidate comes before the one chosen |
| Mover.CandidateOfStemAndExtension | src/cli.rs:592-598 | the `k`-th candidate for `dir/stem.ext` is `dir/stem_k.ext` |
| Mover.UniqueNameKeepsExtension | src/cli.rs:588-596 | the chosen name keeps the extension and appends `_k` to the stem |
| Mover.UniqueNameOfTestTxt | src/lib.rs:71-89 | `test.txt` with `test_1.txt` free becomes `test_1.txt` |
| Mover.UniqueNameSkipsTakenCandidate | src/cli.rs:592-603 | `report.pdf` with `report_1.pdf` taken and `report_2.pdf` free becomes `report_2.pdf` |
| Mover.GenerateUniqueFilename | src/cli.rs:586-604 | the probing loop returns exactly the first free candidate of the live filesystem |
| Mover.Destination | src/cli.rs:556 | the destination is `base/category/name` |
| Mover.MoveOutcome | src/cli.rs:543-583 | `move_file` on a snapshot: the folder is created on a real run, a nameless file is `InvalidPath`, a taken destination goes to the policy, otherwise the file is renamed; its properties are the lemmas below |
| Mover.MoveErrorsAndFolders | src/cli.rs:543-583 | `move_file` fails only with an I/O error, or with `InvalidPath` for a file with no name; it never removes a directory or changes the denied paths |
| Mover.MoveFile | src/cli.rs:543-584 | result and new filesystem are those of the `move_file` specification function |
| Mover.DryRunChangesNothing | src/cli.rs:547 | a dry run leaves the filesystem as it was |
| Mover.DryRunPredictsRealRun | src/cli.rs:547-583 | on the same filesystem a dry run gives the real run's answer whenever that succeeds, and otherwise the real run fails with an I/O error; `InvalidPath` exactly when the file has no name |
| Mover.NoFileNameIsInvalidPath | src/cli.rs:547-554 | a file with no name is an error and no file is touched; it is `InvalidPath` on a dry run and whenever the category folder exists or is created, and an I/O error with nothing changed when creating the folder fails |
| Mover.SkipLeavesEverythingAlone | src/cli.rs:559-561 | with the destination taken, `skip` answers not moved and changes nothing |
| Mover.UnknownPolicyLeavesEverythingAlone | src/cli.rs:559-574 | with the destination taken, an unknown policy answers not moved and changes nothing |
| Mover.RenameMovesBesideTakenDestination | src/cli.rs:568-573 | with the destination taken, `rename` moves the file to the first free `stem_k.ext` and keeps the file at the destination; a failure changes nothing |
| Mover.OverwriteReplacesDestination | src/cli.rs:562-567 | with the destination taken, `overwrite` removes it and moves the file there; if the move fails, the destination stays removed |
| Mover.MoveIntoCategoryFolder | src/cli.rs:543-583 | with the destination free and nothing denied, a real run creates the category folder if needed and moves the file to `base/category/name` |
| Mover.MoveKeepsOtherFiles | src/cli.rs:559-583 | when the policy is not `overwrite`, every file present before a move, other than the file being moved, is present after it |
| Mover.MoveKeepsValid | src/cli.rs:543-583 | a move keeps a well-formed filesystem well formed |
| Mover.MoveTouchesOnlyItsOwnPaths | src/cli.rs:543-583 | a move removes only the file and its destination and adds only the category folder and a file inside it |
| Organizer.RunMoves | src/cli.rs:149-161 | one outcome per file moved, in order |
| Organizer.OrganizeLoop | src/cli.rs:146-223 | the statistics fold the outcome of each `move_file` call made in turn, and they balance |
| Organizer.ProcessFile | src/cli.rs:288-304 | one file of the interactive loop: the screen shows its name (empty without one), category, MIME type (`unknown` without one) and size; it is moved, counted in the statistics, and on a move counted in its category and its bytes |
| Organizer.ProgressLoop | src/cli.rs:277-304 | the progress screen ends with the run's statistics, the per-category counters of the moved files and the bytes moved |
| Organizer.RunInteractiveMode | src/cli.rs:256-394 | a dry run only shows the preview and changes nothing; a real run moves every file and ends with a summary of the run |
| Organizer.OrganizerFiles | src/cli.rs:74-254 | a missing path or a non-directory is reported untouched; a failed scan is an I/O error; no files means nothing to do; otherwise every scanned file is moved and counted, interactively or not, and the interactive summary carries the run's statistics, per-category progress and bytes moved |
| Organizer.DryRunJudgesEachFileAlone | src/cli.rs:149-161 | a dry run over many files changes nothing and answers for each file as if it were alone |
| Organizer.DryRunCanOverstateMoves | src/cli.rs:559-561 | two same-named files under `skip`: a dry run reports both moved, the real run moves one and skips the other |
| Organizer.RunStatsBalanced | src/cli.rs:146-223 | after a run moved + skipped + errors equals the number of files |
| Organizer.RunKeepsValid | src/cli.rs:149-161 | a whole run keeps a well-formed filesystem well formed, file after file |
| Organizer.RunKeepsOtherFiles | src/cli.rs:149-161 | under any policy but `overwrite`, a run keeps every file it was not asked to move |
| Organizer.SecondRunKeepsOrganizedFiles | src/cli.rs:436-445 | organizing a directory again, under any policy but `overwrite`, leaves every file already in one of its category folders where it is |
| Organizer.SummaryAccountsForScannedFiles | src/cli.rs:287-304 | for scanned files the category counts add up to the moved count and their sizes to the bytes moved |
| Preview.Step | src/tui.rs:80-140 | one key keeps the view valid; only `q` and Esc end the loop with the quit flag, Enter ends it only from the overview |
| Preview.Run | src/tui.rs:74-144 | the loop reads at most all events and stops early only on an ending key |
| Preview.RunKeepsViewValid | src/tui.rs:129-137 | the selection stays one of the four categories for any sequence of events |
| Preview.RunStopsAtFirstExit | src/tui.rs:74-144 | the loop ends at the first ending key and reads nothing after it |
| Preview.QuitFromEitherView | src/tui.rs:88-91 | `q` sets the quit flag and ends the loop from both views |
| Preview.EnterProceedsOnlyFromOverview | src/tui.rs:108-112 | Enter ends the loop exactly in the overview and changes nothing else |
| Preview.DigitSelectsCategory | src/tui.rs:129-137 | a digit 1 to 4 opens that category at the top, only from the overview |
| Preview.OtherDigitsSelectNothing | src/tui.rs:129-137 | `0` and `5` to `9` change nothing |
| Preview.EscGoesBackFromDetail | src/tui.rs:92-99 | Esc in a category goes back to the overview at the top and remembers it |
| Preview.EscInOverview | src/tui.rs:100-107 | Esc in the overview quits, unless it comes right after going back, when it is swallowed and the flag cleared |
| Preview.OtherKeyClearsEscFlag | src/tui.rs:83-85 | any other key forgets the Esc that went back |
| Preview.UnhandledKeysOnlyClearEscFlag | src/tui.rs:83-138 | a key with no arm, or a character other than `q` and a digit, changes nothing but the Esc flag and does not end the loop |
| Preview.EscEscEscLeavesFromDetail | src/tui.rs:83-107 | from a category, two Esc presses land in the overview and a third quits |
| Preview.ArrowsScrollOnlyInDetail | src/tui.rs:113-128 | arrows move the detail view one line, saturating at 0 and at the largest `usize`, and leave the overview alone |
| Preview.NonKeyEventsChangeNothing | src/tui.rs:79-81 | polls without a key press change nothing |
| Preview.CategoryFiles | src/tui.rs:261-268 | the files of one category, all and only those with that category |
| Preview.CategoriesPartitionFiles | src/tui.rs:206-213 | with every file in one of the four categories, the four views show every file once and their sizes add up to the total |
| Preview.PreviewApp.constructor | src/tui.rs:33-49 | the overview, nothing selected, the four category names, and the total of the file sizes |
| Preview.PreviewApp.RunLoop | src/tui.rs:74-144 | the loop updates selection, scroll and quit flag exactly as the event-by-event specification does |
| Progress.InitialProgress | src/tui.rs:487-498 | exactly the four categories, each at count 0 and size 0 |
| Progress.Bumped | src/tui.rs:522-527 | a known category gains one file and `size` bytes, every other entry is unchanged, an unknown name changes nothing |
| Progress.ProgressApp.constructor | src/tui.rs:487-508 | nothing shown yet, zero statistics, the four categories at zero |
| Progress.ProgressApp.UpdateCurrent | src/tui.rs:510-520 | shows the file's name (empty without one), category, size, and `unknown` without a MIME type |
| Progress.ProgressApp.UpdateCategory | src/tui.rs:522-527 | bumps the counters of a known category and nothing else |
| Progress.ProgressAfter | src/cli.rs:293-296 | the counters after some moves keep exactly the four categories |
| Progress.SizeMoved | src/cli.rs:279-296 | the bytes of the moved files of a run prefix, zero when nothing moved |
| Progress.ProgressExtend | src/cli.rs:292-300 | one more outcome counts its file in its category and its bytes exactly when it is a move |
| Progress.ProgressAccountsForEveryMove | src/cli.rs:287-304 | the category counts add up to the moved count and the category sizes to the bytes moved |
| Progress.NothingMovedNothingCounted | src/cli.rs:292-300 | a run with no move leaves every category counter at zero and no bytes moved |
| Summary.SummaryApp.RunLoop | src/tui.rs:782-798 | the loop ends at the first `q`, Esc or Enter and ignores every other event |
| Summary.Title | src/tui.rs:831-837 | "with Errors" exactly when there are errors, "Successfully!" exactly when there are none and every file moved, else the plain title |
| Summary.PlainTitleMeansSkips | src/tui.rs:831-837 | for balanced statistics the plain title means no errors and at least one skip |
| Text.Truncate | src/tui.rs:729-735 | a string that fits is kept; a longer one becomes its first `max_len - 3` characters (none below 3) and `...` |
| Text.TruncateCli | src/cli.rs:622-628 | the command line version agrees with the dashboards' wherever it does not panic |
| Text.TruncateFitsAndSettles | src/tui.rs:729-735 | with a limit of at least 3 the result fits, and truncating again changes nothing |
| Text.TruncateBelowThree | src/tui.rs:729-735 | below a limit of 3 a long string becomes `...`, longer than the limit |

## Left out

- Drawing, terminal setup and teardown, colours, progress bars and every `println!`: apart from the failures named in the next line, they only display state.
- Organizer.RunInteractiveMode: the model assumes the terminal never fails. In the source, a failing terminal call ends `run_interactive_mode` with `IoError`: the preview's or the summary's `run`, entering or leaving raw mode and the alternate screen, creating the terminal, or a `draw` inside the per-file loop. A failing `draw` aborts after some files have already moved, and their statistics are lost.
- Timing: the render throttle, the elapsed time, and the success rate and speeds computed from them.
- `format_size` and every other floating point computation.
- Command line parsing with clap: the options arrive as an `Options` value.
- `mime_guess`: its result is the parameter `sniff`, so the model does not depend on its extension table.
- The directory tree the scan walks is a `Listing` parameter and is not derived from the `FileSystem` state that `move_file` works on. Symbolic links are entries of kind `Other`, because the metadata of a directory entry does not follow them.
- I/O error payloads and `OrganizerError`'s display strings: every failure of `std::fs` is `IoError`. An operation fails when its paths do not allow it (for example, a missing source file, a target that is a directory, or a parent that is not a directory) or when a path it touches is in the set of denied paths. The denied set stands for permissions and every other failure the model does not spell out.
- Integer widths: sizes and counters are unbounded. A `u64` or `usize` overflow of counts or `total_size_moved` is not modelled. The preview's scroll offset does saturate at the largest `usize`.
- Text.Truncate: counts characters, while the source compares and slices byte lengths of UTF-8 text; for text with multi-byte characters the source cuts at a different place, or panics when the cut falls inside a character.
- Text.TruncateCli: counts characters, while the source counts bytes and panics when it slices inside a multi-byte character; it also requires a limit of at least 3 for long strings, where the source would underflow.
- The `base_dir` parameter of `scan_directory_recursive`, which the source never uses.
- Events are a finite sequence instead of polls with a timeout. A loop that runs out of events has not ended.
- `HashMap` iteration order when the summary is printed: the category counters are a `map`.
- Summary rendering of the category breakdown: only the title choice and the dismiss keys are modelled.
