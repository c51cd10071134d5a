/**
 * Finding the files to organize: `scan_directory` and
 * `scan_directory_recursive` (src/cli.rs:397-450). The directory tree is
 * given as the listings `read_dir` would produce, entry by entry in its
 * order; MIME sniffing is the parameter `sniff`.
 */
module Scanner {
  import opened Wrappers
  import opened Paths
  import opened Errors
  import opened Classifier
  import opened Records

  /** One entry of a directory listing, as its metadata describes it. */
  datatype Entry =
    | File(name: string, size: nat)
    | Folder(name: string, listing: Listing)
    /** Neither a regular file nor a directory: a symbolic link, a socket, ... */
    | Other(name: string)
    /** An entry whose metadata cannot be read. */
    | Unreadable(name: string)

  /** What `read_dir` returns for a directory: an error, or its entries. */
  datatype Listing = Listing(readable: bool, entries: seq<Entry>)

  /** The files a scan collected, and whether it finished without an I/O error. */
  datatype Scan = Scan(records: seq<FileInfo>, ok: bool)

  /** A subdirectory the scan descends into: it has a name and that name is not a category folder's. */
  predicate Descends(recursive: bool, dir: Path) {
    recursive && FileName(dir).Some? && FileName(dir).value !in CategoryNames
  }

  /** The record of a regular file at `path`: its sniffed MIME type and the category of that type. */
  function Describe(path: Path, size: nat, sniff: Path -> Option<string>): FileInfo {
    var mime := sniff(path);
    FileInfo(path, mime, CategorizeFile(mime), size)
  }

  /** The scan of the directory at `current`. */
  function ScanListing(current: Path, listing: Listing, recursive: bool, sniff: Path -> Option<string>): Scan
    decreases listing
  {
    if !listing.readable then Scan([], false)
    else ScanEntries(current, listing.entries, recursive, sniff)
  }

  /** The scan of some entries of `current`, in order, stopping at the first error. */
  function ScanEntries(current: Path, entries: seq<Entry>, recursive: bool, sniff: Path -> Option<string>): Scan
    decreases entries
  {
    if entries == [] then Scan([], true)
    else
      var prev := ScanEntries(current, entries[..|entries| - 1], recursive, sniff);
      if !prev.ok then prev
      else
        var last := ScanEntry(current, entries[|entries| - 1], recursive, sniff);
        Scan(prev.records + last.records, last.ok)
  }

  /** The scan of one entry of `current`. */
  function ScanEntry(current: Path, e: Entry, recursive: bool, sniff: Path -> Option<string>): (r: Scan)
    ensures !r.ok ==> e.Unreadable? || (e.Folder? && Descends(recursive, Child(current, e.name)))
    decreases e
  {
    match e
    case File(name, size) => Scan([Describe(Child(current, name), size, sniff)], true)
    case Folder(name, listing) =>
      if Descends(recursive, Child(current, name)) then ScanListing(Child(current, name), listing, recursive, sniff)
      else Scan([], true)
    case Other(_) => Scan([], true)
    case Unreadable(_) => Scan([], false)
  }

  /** The `Vec<FileInfo>` the scan pushes onto. */
  class FileList {
    var items: seq<FileInfo>

    constructor ()
      ensures items == []
    {
      items := [];
    }

    method Push(info: FileInfo)
      modifies this
      ensures items == old(items) + [info]
    {
      items := items + [info];
    }
  }

  /** `scan_directory_recursive`: appends the records of `current` to `files`. */
  method ScanDirectoryRecursive(current: Path, listing: Listing, recursive: bool, sniff: Path -> Option<string>, files: FileList)
    returns (r: Result<()>)
    modifies files
    ensures files.items == old(files.items) + ScanListing(current, listing, recursive, sniff).records
    ensures r.Ok? <==> ScanListing(current, listing, recursive, sniff).ok
    ensures r.Err? ==> r.error == IoError
    decreases listing
  {
    if !listing.readable {
      return Err(IoError);
    }
    var entries := listing.entries;
    var i := 0;
    r := Ok(());
    while i < |entries| && r.Ok?
      invariant 0 <= i <= |entries|
      invariant r.Ok? <==> ScanEntries(current, entries[..i], recursive, sniff).ok
      invariant r.Err? ==> r.error == IoError
      invariant files.items == old(files.items) + ScanEntries(current, entries[..i], recursive, sniff).records
    {
      ScanEntriesExtend(current, entries, i, recursive, sniff);
      assert entries[i] in listing.entries;
      r := ScanOneEntry(current, entries[i], recursive, sniff, files);
      i := i + 1;
    }
    if r.Err? {
      ScanStopsAtError(current, entries, i, recursive, sniff);
    } else {
      assert entries[..i] == entries;
    }
  }

  /**
   * The body of the loop in `scan_directory_recursive`: records a regular
   * file, descends into a subdirectory when it should, and fails when the
   * entry's metadata cannot be read.
   */
  method ScanOneEntry(current: Path, entry: Entry, recursive: bool, sniff: Path -> Option<string>, files: FileList)
    returns (r: Result<()>)
    modifies files
    ensures files.items == old(files.items) + ScanEntry(current, entry, recursive, sniff).records
    ensures r.Ok? <==> ScanEntry(current, entry, recursive, sniff).ok
    ensures r.Err? ==> r.error == IoError
    decreases entry
  {
    match entry {
      case File(name, size) =>
        files.Push(Describe(Child(current, name), size, sniff));
      case Folder(name, sub) =>
        var path := Child(current, name);
        if Descends(recursive, path) {
          r := ScanDirectoryRecursive(path, sub, recursive, sniff, files);
          return;
        }
      case Other(_) =>
      case Unreadable(_) =>
        return Err(IoError);
    }
    return Ok(());
  }

  /** Scanning one more entry adds that entry's records, if the scan has not failed already. */
  lemma ScanEntriesExtend(current: Path, entries: seq<Entry>, i: nat, recursive: bool, sniff: Path -> Option<string>)
    requires i < |entries| && ScanEntries(current, entries[..i], recursive, sniff).ok
    ensures var last := ScanEntry(current, entries[i], recursive, sniff);
            ScanEntries(current, entries[..i + 1], recursive, sniff)
            == Scan(ScanEntries(current, entries[..i], recursive, sniff).records + last.records, last.ok)
  {
    assert entries[..i + 1][..i] == entries[..i];
  }

  /** Once a scan has failed, the entries after the failing one add nothing. */
  lemma {:induction false} ScanStopsAtError(current: Path, entries: seq<Entry>, k: nat, recursive: bool, sniff: Path -> Option<string>)
    requires k <= |entries| && !ScanEntries(current, entries[..k], recursive, sniff).ok
    ensures ScanEntries(current, entries, recursive, sniff) == ScanEntries(current, entries[..k], recursive, sniff)
    decreases |entries|
  {
    if k < |entries| {
      var n := |entries| - 1;
      assert entries[..n][..k] == entries[..k];
      ScanStopsAtError(current, entries[..n], k, recursive, sniff);
    } else {
      assert entries[..k] == entries;
    }
  }

  /** Scanning some entries fails exactly when scanning one of them fails. */
  lemma {:induction false} ScanFailsExactlyAtAnEntry(current: Path, entries: seq<Entry>, recursive: bool, sniff: Path -> Option<string>)
    ensures ScanEntries(current, entries, recursive, sniff).ok
            <==> forall i :: 0 <= i < |entries| ==> ScanEntry(current, entries[i], recursive, sniff).ok
    decreases |entries|
  {
    if entries != [] {
      var n := |entries| - 1;
      ScanFailsExactlyAtAnEntry(current, entries[..n], recursive, sniff);
      assert forall i :: 0 <= i < n ==> entries[..n][i] == entries[i];
    }
  }

  /** `scan_directory`: the records of every file the scan finds, or the I/O error that stopped it. */
  method ScanDirectory(dir: Path, listing: Listing, recursive: bool, sniff: Path -> Option<string>)
    returns (r: Result<seq<FileInfo>>)
    ensures r.Ok? <==> ScanListing(dir, listing, recursive, sniff).ok
    ensures r.Ok? ==> r.value == ScanListing(dir, listing, recursive, sniff).records
    ensures r.Err? ==> r.error == IoError
  {
    var files := new FileList();
    var scanned := ScanDirectoryRecursive(dir, listing, recursive, sniff, files);
    if scanned.Err? {
      return Err(IoError);
    }
    return Ok(files.items);
  }

  /**
   * `d` is `top` or lies below it through directories the scan descends
   * into, none of them named like a category folder.
   */
  predicate Beneath(top: Path, d: Path)
    decreases d
  {
    d == top || (Descends(true, d) && Beneath(top, d.parent))
  }

  lemma {:induction false} BeneathTrans(top: Path, sub: Path, d: Path)
    requires Descends(true, sub) && sub.parent == top && Beneath(sub, d)
    ensures Beneath(top, d)
    decreases d
  {
    if d != sub {
      BeneathTrans(top, sub, d.parent);
    }
  }

  /**
   * What every record of a scan of `top` satisfies: its MIME type is the
   * sniffed one and its category that type's; it sits directly in `top`
   * unless the scan is recursive, and then it sits beneath `top` without
   * passing through a category folder.
   */
  predicate Sound(top: Path, recursive: bool, sniff: Path -> Option<string>, r: FileInfo) {
    && r.path.Child?
    && r.mime == sniff(r.path)
    && r.category == CategorizeFile(r.mime)
    && (if recursive then Beneath(top, r.path.parent) else r.path.parent == top)
  }

  lemma {:induction false} ScanListingSound(current: Path, listing: Listing, recursive: bool, sniff: Path -> Option<string>)
    ensures forall r :: r in ScanListing(current, listing, recursive, sniff).records ==> Sound(current, recursive, sniff, r)
    decreases listing
  {
    if listing.readable {
      ScanEntriesSound(current, listing.entries, recursive, sniff);
    }
  }

  lemma {:induction false} ScanEntriesSound(current: Path, entries: seq<Entry>, recursive: bool, sniff: Path -> Option<string>)
    ensures forall r :: r in ScanEntries(current, entries, recursive, sniff).records ==> Sound(current, recursive, sniff, r)
    decreases entries
  {
    if entries != [] {
      ScanEntriesSound(current, entries[..|entries| - 1], recursive, sniff);
      ScanEntrySound(current, entries[|entries| - 1], recursive, sniff);
    }
  }

  lemma {:induction false} ScanEntrySound(current: Path, e: Entry, recursive: bool, sniff: Path -> Option<string>)
    ensures forall r :: r in ScanEntry(current, e, recursive, sniff).records ==> Sound(current, recursive, sniff, r)
    decreases e
  {
    match e
    case File(name, size) =>
    case Folder(name, listing) =>
      var sub := Child(current, name);
      if Descends(recursive, sub) {
        ScanListingSound(sub, listing, recursive, sniff);
        forall r | r in ScanListing(sub, listing, recursive, sniff).records
          ensures Sound(current, recursive, sniff, r)
        {
          BeneathTrans(current, sub, r.path.parent);
        }
      }
    case Other(_) =>
    case Unreadable(_) =>
  }

  /** Every record of a scan is classified by `categorize_file` from its sniffed MIME type. */
  lemma ScanCategorizesEveryFile(dir: Path, listing: Listing, recursive: bool, sniff: Path -> Option<string>)
    ensures forall r :: r in ScanListing(dir, listing, recursive, sniff).records ==>
              r.mime == sniff(r.path) && r.category == CategorizeFile(r.mime) && IsCategory(r.category)
  {
    ScanListingSound(dir, listing, recursive, sniff);
  }

  /** Without `--recursive` only the files directly in the directory are collected. */
  lemma NonRecursiveScanStaysAtTop(dir: Path, listing: Listing, sniff: Path -> Option<string>)
    ensures forall r :: r in ScanListing(dir, listing, false, sniff).records ==> r.path.Child? && r.path.parent == dir
  {
    ScanListingSound(dir, listing, false, sniff);
  }

  /** A recursive scan never collects a file from inside a folder named like a category, at any depth. */
  lemma RecursiveScanSkipsCategoryFolders(dir: Path, listing: Listing, sniff: Path -> Option<string>)
    ensures forall r :: r in ScanListing(dir, listing, true, sniff).records ==> r.path.Child? && Beneath(dir, r.path.parent)
  {
    ScanListingSound(dir, listing, true, sniff);
  }

  /**
   * A scan that finishes collects everything each entry contributes: the
   * record of each regular file and, when it descends, the scan of each
   * subdirectory.
   */
  lemma {:induction false} ScanCollectsEveryEntry(current: Path, entries: seq<Entry>, recursive: bool, sniff: Path -> Option<string>, i: nat)
    requires i < |entries| && ScanEntries(current, entries, recursive, sniff).ok
    ensures ScanEntry(current, entries[i], recursive, sniff).ok
    ensures multiset(ScanEntry(current, entries[i], recursive, sniff).records)
            <= multiset(ScanEntries(current, entries, recursive, sniff).records)
    decreases |entries|
  {
    var n := |entries| - 1;
    var prev := ScanEntries(current, entries[..n], recursive, sniff);
    assert prev.ok;
    if i < n {
      ScanCollectsEveryEntry(current, entries[..n], recursive, sniff, i);
      assert entries[..n][i] == entries[i];
    }
  }
}
