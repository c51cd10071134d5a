/**
 * The dry-run preview dashboard: `PreviewApp::new` and the key handling of
 * its `run_loop` (src/tui.rs:23-144). Drawing is not modelled; the loop
 * reads a given sequence of terminal events instead of polling.
 */
module Preview {
  import opened Wrappers
  import opened Classifier
  import opened Records

  /** The keys the loop tells apart. */
  datatype KeyCode = Char(c: char) | Esc | Enter | Left | Right | Up | Down | OtherKey

  /** One poll of the terminal: a key press, or anything else (a timeout, a mouse or resize event). */
  datatype Event = Key(code: KeyCode) | NoKey

  /** The largest `usize`, where `saturating_add` stops. */
  const UsizeMax: nat := 0xFFFF_FFFF_FFFF_FFFF

  /**
   * What the loop changes: the selected category (none in the overview), the
   * detail view's scroll offset, the quit flag, and whether the last key was
   * an Esc that went back to the overview.
   */
  datatype View = View(selected: Option<nat>, scroll: nat, shouldQuit: bool, escBack: bool) {

    /** A selection names one of the four categories and the offset fits in a `usize`. */
    predicate Valid() {
      (selected.None? || selected.value < |CategoryNames|) && scroll <= UsizeMax
    }
  }

  /** The state `run_loop` starts in for an app fresh from `PreviewApp::new`. */
  const Start: View := View(None, 0, false, false)

  /**
   * One event, and whether it ends the loop. `q` quits from either view;
   * Enter ends the loop only in the overview; Esc goes back from the detail
   * view, quits from the overview, but is ignored once right after going
   * back; arrows scroll the detail view; digits 1 to 4 open a category from
   * the overview.
   */
  function Step(v: View, e: Event): (r: (View, bool))
    ensures v.Valid() ==> r.0.Valid()
    ensures r.1 && e != Key(Enter) ==> r.0.shouldQuit && (e == Key(Char('q')) || e == Key(Esc))
    ensures r.1 && e == Key(Enter) ==> v.selected.None? && r.0.shouldQuit == v.shouldQuit
    ensures !r.1 ==> r.0.shouldQuit == v.shouldQuit
  {
    match e
    case NoKey => (v, false)
    case Key(code) =>
      var w := if code != Esc then v.(escBack := false) else v;
      match code
      case Esc =>
        if w.selected.Some? then (w.(selected := None, scroll := 0, escBack := true), false)
        else if !w.escBack then (w.(shouldQuit := true), true)
        else (w.(escBack := false), false)
      case Enter => (w, w.selected.None?)
      case Left => (ScrollUp(w), false)
      case Up => (ScrollUp(w), false)
      case Right => (ScrollDown(w), false)
      case Down => (ScrollDown(w), false)
      case Char(c) =>
        if c == 'q' then (w.(shouldQuit := true), true)
        else if '0' <= c <= '9' && w.selected.None? && 0 < DigitValue(c) <= |CategoryNames| then
          (w.(selected := Some(DigitValue(c) - 1), scroll := 0), false)
        else (w, false)
      case OtherKey => (w, false)
  }

  /** The value of an ASCII digit. */
  function DigitValue(c: char): (d: int)
    requires '0' <= c <= '9'
    ensures 0 <= d <= 9
  {
    c as int - '0' as int
  }

  /** Up and Left: scroll the detail view up one line, stopping at 0; nothing in the overview. */
  function ScrollUp(v: View): View {
    if v.selected.None? then v else v.(scroll := if v.scroll == 0 then 0 else v.scroll - 1)
  }

  /** Down and Right: scroll the detail view down one line, stopping at the largest `usize`; nothing in the overview. */
  function ScrollDown(v: View): View {
    if v.selected.None? then v else v.(scroll := if v.scroll < UsizeMax then v.scroll + 1 else UsizeMax)
  }

  /**
   * The loop over a sequence of events: the state it ends in, how many events
   * it read, and whether a key ended it before the events ran out.
   */
  function Run(v: View, events: seq<Event>): (r: (View, nat, bool))
    ensures r.1 <= |events|
    ensures r.2 ==> r.1 >= 1
    ensures !r.2 ==> r.1 == |events|
    decreases |events|
  {
    if events == [] then (v, 0, false)
    else
      var step := Step(v, events[0]);
      if step.1 then (step.0, 1, true)
      else
        var rest := Run(step.0, events[1..]);
        (rest.0, rest.1 + 1, rest.2)
  }

  /** The selection stays one of the four categories however many events arrive. */
  lemma {:induction false} RunKeepsViewValid(v: View, events: seq<Event>)
    requires v.Valid()
    ensures Run(v, events).0.Valid()
    decreases |events|
  {
    if events != [] && !Step(v, events[0]).1 {
      RunKeepsViewValid(Step(v, events[0]).0, events[1..]);
    }
  }

  /** The loop ends at the first event that ends it, and reads nothing after it. */
  lemma {:induction false} RunStopsAtFirstExit(v: View, events: seq<Event>)
    requires Run(v, events).2
    ensures var n := Run(v, events).1;
            Step(Run(v, events[..n - 1]).0, events[n - 1]).1 && !Run(v, events[..n - 1]).2
    decreases |events|
  {
    var step := Step(v, events[0]);
    if !step.1 {
      var n := Run(v, events).1;
      RunStopsAtFirstExit(step.0, events[1..]);
      assert events[..n - 1][1..] == events[1..][..n - 2];
      assert events[1..][n - 2] == events[n - 1];
    }
  }

  /** `q` ends the loop from the overview and from the detail view, with the quit flag set. */
  lemma QuitFromEitherView(v: View)
    ensures Step(v, Key(Char('q'))) == (v.(shouldQuit := true, escBack := false), true)
  {
  }

  /** Enter ends the loop in the overview, without setting the quit flag, and does nothing in the detail view. */
  lemma EnterProceedsOnlyFromOverview(v: View)
    ensures Step(v, Key(Enter)).1 <==> v.selected.None?
    ensures Step(v, Key(Enter)).0 == v.(escBack := false)
  {
  }

  /** A digit from 1 to 4 opens that category, at the top, but only from the overview. */
  lemma DigitSelectsCategory(v: View, d: nat)
    requires 1 <= d <= 4
    ensures var r := Step(v, Key(Char(('0' as int + d) as char)));
            && !r.1
            && (v.selected.None? ==> r.0 == v.(selected := Some(d - 1), scroll := 0, escBack := false))
            && (v.selected.Some? ==> r.0 == v.(escBack := false))
  {
  }

  /** Other digits select nothing. */
  lemma OtherDigitsSelectNothing(v: View, c: char)
    requires c == '0' || '5' <= c <= '9'
    ensures Step(v, Key(Char(c))) == (v.(escBack := false), false)
  {
  }

  /** Esc in the detail view goes back to the overview at the top and remembers having done so. */
  lemma EscGoesBackFromDetail(v: View)
    requires v.selected.Some?
    ensures Step(v, Key(Esc)) == (v.(selected := None, scroll := 0, escBack := true), false)
  {
  }

  /**
   * Esc in the overview quits, unless the previous key was the Esc that came
   * back to it: that second Esc is swallowed and only clears the flag.
   */
  lemma EscInOverview(v: View)
    requires v.selected.None?
    ensures !v.escBack ==> Step(v, Key(Esc)) == (v.(shouldQuit := true), true)
    ensures v.escBack ==> Step(v, Key(Esc)) == (v.(escBack := false), false)
  {
  }

  /** Any key but Esc forgets that the last key went back, so a later Esc in the overview quits. */
  lemma OtherKeyClearsEscFlag(v: View, k: KeyCode)
    requires k != Esc
    ensures !Step(v, Key(k)).0.escBack
  {
  }

  /**
   * A key the loop has no arm for, and a character other than `q` and the
   * digits, only clear the flag that the last key went back.
   */
  lemma UnhandledKeysOnlyClearEscFlag(v: View, k: KeyCode)
    requires k == OtherKey || (k.Char? && k.c != 'q' && !('0' <= k.c <= '9'))
    ensures Step(v, Key(k)) == (v.(escBack := false), false)
  {
  }

  /** From a category, Esc Esc lands in the overview without quitting, and a third Esc quits. */
  lemma EscEscEscLeavesFromDetail(v: View)
    requires v.selected.Some?
    ensures Run(v, [Key(Esc), Key(Esc)]) == (v.(selected := None, scroll := 0, escBack := false), 2, false)
    ensures Run(v, [Key(Esc), Key(Esc), Key(Esc)]) == (v.(selected := None, scroll := 0, escBack := false, shouldQuit := true), 3, true)
  {
    var back := v.(selected := None, scroll := 0, escBack := true);
    assert Step(v, Key(Esc)) == (back, false);
    assert Step(back, Key(Esc)) == (back.(escBack := false), false);
    assert [Key(Esc), Key(Esc)][1..] == [Key(Esc)];
    assert [Key(Esc), Key(Esc), Key(Esc)][1..] == [Key(Esc), Key(Esc)];
    assert [Key(Esc), Key(Esc)][1..][1..] == [];
  }

  /** The arrow keys move the detail view by one line, saturating at both ends, and leave the overview alone. */
  lemma ArrowsScrollOnlyInDetail(v: View)
    ensures v.selected.None? ==> Step(v, Key(Up)).0 == Step(v, Key(Down)).0 == v.(escBack := false)
    ensures v.selected.Some? ==> Step(v, Key(Up)).0.scroll == (if v.scroll > 0 then v.scroll - 1 else 0)
    ensures v.selected.Some? ==> Step(v, Key(Down)).0.scroll == (if v.scroll < UsizeMax then v.scroll + 1 else UsizeMax)
    ensures Step(v, Key(Left)) == Step(v, Key(Up)) && Step(v, Key(Right)) == Step(v, Key(Down))
    ensures !Step(v, Key(Up)).1 && !Step(v, Key(Down)).1
  {
  }

  /** Events that are not key presses change nothing. */
  lemma NonKeyEventsChangeNothing(v: View)
    ensures Step(v, NoKey) == (v, false)
  {
  }

  /** The sum of the sizes of some files. */
  function TotalSize(files: seq<FileInfo>): nat {
    if files == [] then 0 else TotalSize(files[..|files| - 1]) + files[|files| - 1].size
  }

  /** The files of one category, in order: what a category's box and detail view list. */
  function CategoryFiles(files: seq<FileInfo>, category: string): (r: seq<FileInfo>)
    ensures |r| <= |files|
    ensures forall f :: f in r ==> f in files && f.category == category
    ensures forall f :: f in files && f.category == category ==> f in r
  {
    if files == [] then []
    else
      var last := files[|files| - 1];
      CategoryFiles(files[..|files| - 1], category) + (if last.category == category then [last] else [])
  }

  /** Adding one file to the end adds it to its own category's view only. */
  lemma CategoryFilesStep(files: seq<FileInfo>, category: string)
    requires files != []
    ensures var n := |files| - 1;
            var here := if files[n].category == category then 1 else 0;
            && |CategoryFiles(files, category)| == |CategoryFiles(files[..n], category)| + here
            && TotalSize(CategoryFiles(files, category)) == TotalSize(CategoryFiles(files[..n], category)) + here * files[n].size
  {
    var n := |files| - 1;
    TotalSizeAppend(CategoryFiles(files[..n], category), if files[n].category == category then [files[n]] else []);
  }

  /**
   * When every file has one of the four categories, the four category views
   * together show every file once and their sizes add up to the total.
   */
  lemma {:induction false} CategoriesPartitionFiles(files: seq<FileInfo>)
    requires forall i :: 0 <= i < |files| ==> IsCategory(files[i].category)
    ensures |CategoryFiles(files, Multimedia)| + |CategoryFiles(files, Docs)|
            + |CategoryFiles(files, Compressed)| + |CategoryFiles(files, Misc)| == |files|
    ensures TotalSize(CategoryFiles(files, Multimedia)) + TotalSize(CategoryFiles(files, Docs))
            + TotalSize(CategoryFiles(files, Compressed)) + TotalSize(CategoryFiles(files, Misc)) == TotalSize(files)
  {
    if files != [] {
      var n := |files| - 1;
      CategoriesPartitionFiles(files[..n]);
      assert IsCategory(files[n].category);
      CategoryFilesStep(files, Multimedia);
      CategoryFilesStep(files, Docs);
      CategoryFilesStep(files, Compressed);
      CategoryFilesStep(files, Misc);
    }
  }

  lemma TotalSizeAppend(a: seq<FileInfo>, b: seq<FileInfo>)
    requires |b| <= 1
    ensures TotalSize(a + b) == TotalSize(a) + TotalSize(b)
  {
    if b == [] {
      assert a + b == a;
    } else {
      assert (a + b)[..|a + b| - 1] == a;
      assert (a + b)[|a + b| - 1] == b[0];
      assert b[..0] == [];
    }
  }

  /** The preview dashboard over the scanned files. */
  class PreviewApp {
    const files: seq<FileInfo>
    const totalSize: nat
    var shouldQuit: bool
    var selectedCategory: Option<nat>
    var scrollOffset: nat
    const categories: seq<string>

    /** `PreviewApp::new`: the overview, nothing selected, the total of the file sizes. */
    constructor (files: seq<FileInfo>)
      ensures this.files == files && totalSize == TotalSize(files)
      ensures !shouldQuit && selectedCategory.None? && scrollOffset == 0
      ensures categories == CategoryNames
    {
      this.files := files;
      totalSize := TotalSize(files);
      shouldQuit := false;
      selectedCategory := None;
      scrollOffset := 0;
      categories := CategoryNames;
    }

    /**
     * `run_loop`: handles events until one ends the loop or they run out;
     * returns how many it read and whether the loop ended.
     */
    method RunLoop(events: seq<Event>) returns (consumed: nat, exited: bool)
      modifies this
      ensures var r := Run(View(old(selectedCategory), old(scrollOffset), old(shouldQuit), false), events);
              View(selectedCategory, scrollOffset, shouldQuit, r.0.escBack) == r.0
              && consumed == r.1 && exited == r.2
    {
      var lastWasEscBack := false;
      ghost var start := View(selectedCategory, scrollOffset, shouldQuit, false);
      var i := 0;
      exited := false;
      while i < |events|
        invariant 0 <= i <= |events|
        invariant var rest := Run(View(selectedCategory, scrollOffset, shouldQuit, lastWasEscBack), events[i..]);
                  Run(start, events) == (rest.0, rest.1 + i, rest.2)
      {
        var step := Step(View(selectedCategory, scrollOffset, shouldQuit, lastWasEscBack), events[i]);
        assert events[i..][1..] == events[i + 1..];
        selectedCategory, scrollOffset, shouldQuit, lastWasEscBack := step.0.selected, step.0.scroll, step.0.shouldQuit, step.0.escBack;
        i := i + 1;
        if step.1 {
          exited := true;
          break;
        }
      }
      consumed := i;
    }
  }
}
