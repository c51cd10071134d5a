/**
 * The closing summary screen of an interactive run: `SummaryApp`, the keys
 * that dismiss it, and the choice of its title (src/tui.rs:737-862). Drawing,
 * the elapsed time and the rates computed from it are not modelled.
 */
module Summary {
  import opened Records
  import opened Progress
  import opened Preview

  /** What the summary screen shows. */
  datatype SummaryApp = SummaryApp(
    stats: OrganizeStats,
    categoryProgress: map<string, CategoryProgress>,
    totalSizeMoved: nat)
  {
    /** `run_loop`: waits for a dismissing key; returns how many events it read and whether one came. */
    method RunLoop(events: seq<Event>) returns (consumed: nat, exited: bool)
      ensures consumed <= |events|
      ensures exited ==> consumed >= 1 && Dismisses(events[consumed - 1])
      ensures forall j :: 0 <= j < consumed - (if exited then 1 else 0) ==> !Dismisses(events[j])
      ensures !exited ==> consumed == |events|
    {
      consumed := 0;
      exited := false;
      while consumed < |events|
        invariant consumed <= |events|
        invariant forall j :: 0 <= j < consumed ==> !Dismisses(events[j])
      {
        var e := events[consumed];
        consumed := consumed + 1;
        if Dismisses(e) {
          exited := true;
          return;
        }
      }
    }
  }

  /** `q`, Esc and Enter close the summary; nothing else does. */
  predicate Dismisses(e: Event) {
    e == Key(Char('q')) || e == Key(Esc) || e == Key(Enter)
  }

  const WithErrors: string := "Organization Completed with Errors"
  const Successfully: string := "Organization Completed Successfully!"
  const Completed: string := "Organization Completed"

  /** The title of the summary: errors first, then a run that moved every file, else the plain title. */
  function Title(stats: OrganizeStats): (t: string)
    ensures t == WithErrors <==> stats.errors > 0
    ensures t == Successfully <==> stats.errors == 0 && stats.moved == stats.totalFiles
    ensures t == Completed <==> stats.errors == 0 && stats.moved != stats.totalFiles
  {
    if stats.errors > 0 then WithErrors
    else if stats.moved == stats.totalFiles then Successfully
    else Completed
  }

  /** For a balanced run without errors, the plain title means some files were skipped. */
  lemma PlainTitleMeansSkips(stats: OrganizeStats)
    requires stats.Balanced()
    ensures Title(stats) == Completed <==> stats.errors == 0 && stats.skipped > 0
  {
  }
}
