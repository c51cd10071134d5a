/**
 * The records the command line organizer passes around: the options it was
 * started with, one `FileInfo` per scanned file, and the running
 * `OrganizeStats` (src/cli.rs:10-72).
 */
module Records {
  import opened Wrappers
  import opened Paths
  import opened Errors

  /** The parsed command line options (`MyOrganizer`). */
  datatype Options = Options(
    path: Path,
    dryRun: bool,
    verbose: bool,
    conflict: string,
    recursive: bool,
    interactive: bool)

  /** A scanned file: where it is, its guessed MIME type, its category and its size in bytes. */
  datatype FileInfo = FileInfo(path: Path, mime: Option<string>, category: string, size: nat)

  /** How many files a run saw, moved, skipped and failed on. */
  datatype OrganizeStats = OrganizeStats(totalFiles: nat, moved: nat, skipped: nat, errors: nat) {

    /** Every file the run saw has exactly one outcome. */
    predicate Balanced() {
      moved + skipped + errors == totalFiles
    }
  }

  /** `OrganizeStats::new`: every counter starts at zero. */
  function NewStats(): (s: OrganizeStats)
    ensures s.totalFiles == 0 && s.moved == 0 && s.skipped == 0 && s.errors == 0
  {
    OrganizeStats(0, 0, 0, 0)
  }

  /**
   * The counter one outcome of `move_file` bumps: `Ok(true)` is a move,
   * `Ok(false)` a skip and any error an error.
   */
  function Record(stats: OrganizeStats, outcome: Result<bool>): (r: OrganizeStats)
    ensures r.totalFiles == stats.totalFiles
    ensures r.moved + r.skipped + r.errors == stats.moved + stats.skipped + stats.errors + 1
    ensures r.moved == stats.moved + (if outcome == Ok(true) then 1 else 0)
    ensures r.skipped == stats.skipped + (if outcome == Ok(false) then 1 else 0)
    ensures r.errors == stats.errors + (if outcome.Err? then 1 else 0)
  {
    match outcome
    case Ok(true) => stats.(moved := stats.moved + 1)
    case Ok(false) => stats.(skipped := stats.skipped + 1)
    case Err(_) => stats.(errors := stats.errors + 1)
  }

  /** The statistics of a run whose `move_file` calls had the given outcomes, in order. */
  function Tally(outcomes: seq<Result<bool>>): (s: OrganizeStats)
    ensures s.totalFiles == 0
  {
    if outcomes == [] then NewStats()
    else Record(Tally(outcomes[..|outcomes| - 1]), outcomes[|outcomes| - 1])
  }

  /** One more outcome bumps one more counter. */
  lemma TallyExtend(outcomes: seq<Result<bool>>, last: Result<bool>)
    ensures Tally(outcomes + [last]) == Record(Tally(outcomes), last)
  {
    assert (outcomes + [last])[..|outcomes|] == outcomes;
  }

  /** The number of moves, skips and errors among some outcomes add up to how many there are. */
  lemma {:induction false} TallyCountsEveryOutcome(outcomes: seq<Result<bool>>)
    ensures Tally(outcomes).moved + Tally(outcomes).skipped + Tally(outcomes).errors == |outcomes|
  {
    if outcomes != [] {
      TallyCountsEveryOutcome(outcomes[..|outcomes| - 1]);
    }
  }

  /** The moved counter is the number of `Ok(true)` outcomes. */
  lemma {:induction false} TallyMovesOnlyOnOk(outcomes: seq<Result<bool>>)
    ensures Tally(outcomes).moved == |set i | 0 <= i < |outcomes| && outcomes[i] == Ok(true)|
  {
    if outcomes != [] {
      var n := |outcomes| - 1;
      TallyMovesOnlyOnOk(outcomes[..n]);
      var before := set i | 0 <= i < n && outcomes[..n][i] == Ok(true);
      var all := set i | 0 <= i < |outcomes| && outcomes[i] == Ok(true);
      if outcomes[n] == Ok(true) {
        assert all == before + {n};
      } else {
        assert all == before;
      }
    }
  }

  /** The skipped counter is the number of `Ok(false)` outcomes. */
  lemma {:induction false} TallySkipsOnlyOnOkFalse(outcomes: seq<Result<bool>>)
    ensures Tally(outcomes).skipped == |set i | 0 <= i < |outcomes| && outcomes[i] == Ok(false)|
  {
    if outcomes != [] {
      var n := |outcomes| - 1;
      TallySkipsOnlyOnOkFalse(outcomes[..n]);
      var before := set i | 0 <= i < n && outcomes[..n][i] == Ok(false);
      var all := set i | 0 <= i < |outcomes| && outcomes[i] == Ok(false);
      if outcomes[n] == Ok(false) {
        assert all == before + {n};
      } else {
        assert all == before;
      }
    }
  }

  /** The errors counter is the number of failed outcomes. */
  lemma {:induction false} TallyErrorsOnlyOnErr(outcomes: seq<Result<bool>>)
    ensures Tally(outcomes).errors == |set i | 0 <= i < |outcomes| && outcomes[i].Err?|
  {
    if outcomes != [] {
      var n := |outcomes| - 1;
      TallyErrorsOnlyOnErr(outcomes[..n]);
      var before := set i | 0 <= i < n && outcomes[..n][i].Err?;
      var all := set i | 0 <= i < |outcomes| && outcomes[i].Err?;
      if outcomes[n].Err? {
        assert all == before + {n};
      } else {
        assert all == before;
      }
    }
  }
}
