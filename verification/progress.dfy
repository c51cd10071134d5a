/**
 * The live progress screen of an interactive run: `ProgressApp` with
 * `new`, `update_current` and `update_category`, and the per-category
 * `CategoryProgress` counters (src/tui.rs:470-527). Drawing is not modelled.
 */
module Progress {
  import opened Wrappers
  import opened Paths
  import opened Errors
  import opened Classifier
  import opened Records

  /** How many files of a category were moved and how many bytes they held. */
  datatype CategoryProgress = CategoryProgress(count: nat, size: nat)

  /** The counters `ProgressApp::new` starts with: the four categories, each at zero. */
  function InitialProgress(): (m: map<string, CategoryProgress>)
    ensures forall c :: c in m <==> IsCategory(c)
    ensures forall c :: c in m ==> m[c] == CategoryProgress(0, 0)
  {
    map[Multimedia := CategoryProgress(0, 0), Docs := CategoryProgress(0, 0),
        Compressed := CategoryProgress(0, 0), Misc := CategoryProgress(0, 0)]
  }

  /**
   * The counters after one more moved file of `size` bytes in `category`:
   * that category counts one more file and `size` more bytes; a name that is
   * not a key changes nothing.
   */
  function Bumped(progress: map<string, CategoryProgress>, category: string, size: nat): (r: map<string, CategoryProgress>)
    ensures r.Keys == progress.Keys
    ensures forall c :: c in r && c != category ==> r[c] == progress[c]
    ensures category in progress ==>
              r[category].count == progress[category].count + 1 && r[category].size == progress[category].size + size
    ensures category !in progress ==> r == progress
  {
    if category in progress then
      progress[category := CategoryProgress(progress[category].count + 1, progress[category].size + size)]
    else progress
  }

  /** The live progress screen. */
  class ProgressApp {
    var totalFiles: nat
    var currentFile: string
    var currentCategory: string
    var currentMime: string
    var currentSize: nat
    var stats: OrganizeStats
    var categoryProgress: map<string, CategoryProgress>

    /** `ProgressApp::new`: nothing processed yet, the four categories at zero. */
    constructor (totalFiles: nat)
      ensures this.totalFiles == totalFiles
      ensures currentFile == "" && currentCategory == "" && currentMime == "" && currentSize == 0
      ensures stats == NewStats()
      ensures categoryProgress == InitialProgress()
    {
      this.totalFiles := totalFiles;
      currentFile := "";
      currentCategory := "";
      currentMime := "";
      currentSize := 0;
      stats := NewStats();
      categoryProgress := InitialProgress();
    }

    /**
     * `update_current`: shows the file being processed, with an empty name
     * when the path has none and `unknown` when there is no MIME type.
     */
    method UpdateCurrent(file: FileInfo)
      modifies this
      ensures currentFile == FileName(file.path).UnwrapOr("")
      ensures currentCategory == file.category
      ensures currentMime == file.mime.UnwrapOr("unknown")
      ensures currentSize == file.size
      ensures totalFiles == old(totalFiles) && stats == old(stats) && categoryProgress == old(categoryProgress)
    {
      currentFile := FileName(file.path).UnwrapOr("");
      currentCategory := file.category;
      currentMime := file.mime.UnwrapOr("unknown");
      currentSize := file.size;
    }

    /** `update_category`: counts a moved file in its category, if that category is known. */
    method UpdateCategory(category: string, size: nat)
      modifies this
      ensures categoryProgress == Bumped(old(categoryProgress), category, size)
      ensures totalFiles == old(totalFiles) && stats == old(stats)
      ensures currentFile == old(currentFile) && currentCategory == old(currentCategory)
      ensures currentMime == old(currentMime) && currentSize == old(currentSize)
    {
      if category in categoryProgress {
        var prog := categoryProgress[category];
        categoryProgress := categoryProgress[category := CategoryProgress(prog.count + 1, prog.size + size)];
      }
    }
  }

  /**
   * The counters after the first moves of a run, one per outcome of its
   * `move_file` calls: every `Ok(true)` counts its file in its category.
   */
  function ProgressAfter(files: seq<FileInfo>, outcomes: seq<Result<bool>>): (m: map<string, CategoryProgress>)
    requires |outcomes| <= |files|
    ensures m.Keys == InitialProgress().Keys
  {
    if outcomes == [] then InitialProgress()
    else
      var n := |outcomes| - 1;
      var before := ProgressAfter(files, outcomes[..n]);
      if outcomes[n] == Ok(true) then Bumped(before, files[n].category, files[n].size) else before
  }

  /** The bytes moved by the first moves of a run, one per outcome. */
  function SizeMoved(files: seq<FileInfo>, outcomes: seq<Result<bool>>): (r: nat)
    requires |outcomes| <= |files|
    ensures (forall i :: 0 <= i < |outcomes| ==> outcomes[i] != Ok(true)) ==> r == 0
  {
    if outcomes == [] then 0
    else
      var n := |outcomes| - 1;
      assert forall i :: 0 <= i < n ==> outcomes[..n][i] == outcomes[i];
      SizeMoved(files, outcomes[..n]) + (if outcomes[n] == Ok(true) then files[n].size else 0)
  }

  /** One more outcome counts its file if, and only if, it was moved. */
  lemma ProgressExtend(files: seq<FileInfo>, outcomes: seq<Result<bool>>, last: Result<bool>)
    requires |outcomes| < |files|
    ensures var i := |outcomes|;
            && ProgressAfter(files, outcomes + [last])
               == (if last == Ok(true) then Bumped(ProgressAfter(files, outcomes), files[i].category, files[i].size)
                   else ProgressAfter(files, outcomes))
            && SizeMoved(files, outcomes + [last])
               == SizeMoved(files, outcomes) + (if last == Ok(true) then files[i].size else 0)
  {
    assert (outcomes + [last])[..|outcomes|] == outcomes;
  }

  /** The four counters added up. */
  function Sum(m: map<string, CategoryProgress>): CategoryProgress
    requires Multimedia in m && Docs in m && Compressed in m && Misc in m
  {
    CategoryProgress(m[Multimedia].count + m[Docs].count + m[Compressed].count + m[Misc].count,
                     m[Multimedia].size + m[Docs].size + m[Compressed].size + m[Misc].size)
  }

  /**
   * When every file has one of the four categories, the category counters
   * together count every moved file and every moved byte: their counts add
   * up to the run's `moved` and their sizes to the total size moved.
   */
  lemma {:induction false} ProgressAccountsForEveryMove(files: seq<FileInfo>, outcomes: seq<Result<bool>>)
    requires |outcomes| <= |files|
    requires forall i :: 0 <= i < |files| ==> IsCategory(files[i].category)
    ensures Sum(ProgressAfter(files, outcomes)) == CategoryProgress(Tally(outcomes).moved, SizeMoved(files, outcomes))
  {
    if outcomes != [] {
      var n := |outcomes| - 1;
      ProgressAccountsForEveryMove(files, outcomes[..n]);
      assert IsCategory(files[n].category);
    }
  }

  /** A run in which nothing moved leaves every counter at zero. */
  lemma {:induction false} NothingMovedNothingCounted(files: seq<FileInfo>, outcomes: seq<Result<bool>>)
    requires |outcomes| <= |files|
    requires forall i :: 0 <= i < |outcomes| ==> outcomes[i] != Ok(true)
    ensures ProgressAfter(files, outcomes) == InitialProgress()
    ensures SizeMoved(files, outcomes) == 0
  {
    if outcomes != [] {
      NothingMovedNothingCounted(files, outcomes[..|outcomes| - 1]);
    }
  }
}
