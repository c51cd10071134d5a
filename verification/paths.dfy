/**
 * Paths and file names as the organizer sees them: `Path::file_name`,
 * `Path::file_stem` / `Path::extension`, and the `stem_k.ext` candidate names
 * that the rename policy tries (src/cli.rs:586-604).
 */
module Paths {
  import opened Wrappers

  /** A path as a chain of components; `Root` is a path with no file name. */
  datatype Path = Root | Child(parent: Path, name: string)

  /**
   * `Path::file_name`: the last component, absent for the root and for a
   * trailing `..`. A component `.` is never produced here: directory
   * listings do not yield it, so Rust's normalisation of `.` is not needed.
   */
  function FileName(p: Path): (r: Option<string>)
    ensures r.Some? <==> p.Child? && p.name != ".."
    ensures r.Some? ==> r.value == p.name
  {
    if p.Child? && p.name != ".." then Some(p.name) else None
  }

  /** A file name split into its stem and its optional extension. */
  datatype NameParts = NameParts(stem: string, ext: Option<string>)

  predicate NoDot(s: string) {
    forall i :: 0 <= i < |s| ==> s[i] != '.'
  }

  /** The index of the last `.` in `s`, if there is one. */
  function LastDot(s: string): (r: Option<nat>)
    ensures r.None? <==> NoDot(s)
    ensures r.Some? ==> r.value < |s| && s[r.value] == '.' && NoDot(s[r.value + 1..])
  {
    if s == [] then None
    else if s[|s| - 1] == '.' then Some(|s| - 1)
    else
      var r := LastDot(s[..|s| - 1]);
      assert r.None? ==> NoDot(s) by {
        if r.None? {
          forall i | 0 <= i < |s| ensures s[i] != '.' {
            if i < |s| - 1 { assert s[i] == s[..|s| - 1][i]; }
          }
        }
      }
      assert r.Some? ==> s[r.value + 1..] == s[..|s| - 1][r.value + 1..] + [s[|s| - 1]];
      r
  }

  /**
   * The stem / extension split of a file name, as `Path::file_stem` and
   * `Path::extension` do it: the extension is what follows the last dot,
   * except that a name whose only dot is its first character (`.bashrc`)
   * and the name `..` have no extension.
   */
  function SplitName(name: string): (r: NameParts)
    ensures r.ext.Some? <==> name != ".." && DotAfterFirst(name)
    ensures r.ext.Some? ==> NoDot(r.ext.value) && r.stem != ""
    ensures r.ext.None? ==> r.stem == name
  {
    if name == ".." then
      assert name[1] == '.';
      NameParts(name, None)
    else match LastDot(name)
      case None => NameParts(name, None)
      case Some(i) =>
        if i == 0 then
          assert !DotAfterFirst(name) by {
            forall j | 0 < j < |name| ensures name[j] != '.' {
              assert name[j] == name[1..][j - 1];
            }
          }
          NameParts(name, None)
        else
          assert name[i] == '.';
          NameParts(name[..i], Some(name[i + 1..]))
  }

  /** `name` has a dot somewhere after its first character. */
  predicate DotAfterFirst(name: string) {
    exists i :: 0 < i < |name| && name[i] == '.'
  }

  /** Reassembles a name from its parts. */
  function JoinName(parts: NameParts): string {
    match parts.ext
    case None => parts.stem
    case Some(e) => parts.stem + "." + e
  }

  /** Splitting a name and joining the parts gives the name back. */
  lemma SplitJoin(name: string)
    ensures JoinName(SplitName(name)) == name
  {
    if name != ".." {
      match LastDot(name)
      case None =>
      case Some(i) =>
        if i != 0 {
          assert name == name[..i] + [name[i]] + name[i + 1..];
        }
    }
  }

  /** The character of a decimal digit. */
  function DigitChar(d: nat): (c: char)
    requires d < 10
    ensures '0' <= c <= '9'
  {
    (48 + d) as char
  }

  /** The decimal numeral of `n`, as `format!("{}", n)` writes it. */
  function Decimal(n: nat): (r: string)
    ensures |r| >= 1
    ensures n >= 10 ==> |r| >= 2
    ensures forall i :: 0 <= i < |r| ==> '0' <= r[i] <= '9'
    ensures r[0] == '0' ==> n == 0
  {
    if n < 10 then [DigitChar(n)] else Decimal(n / 10) + [DigitChar(n % 10)]
  }

  /** The number a string of decimal digits denotes, read most significant digit first. */
  function DecimalValue(s: string): nat
    requires forall i :: 0 <= i < |s| ==> '0' <= s[i] <= '9'
  {
    if s == [] then 0 else 10 * DecimalValue(s[..|s| - 1]) + (s[|s| - 1] as int - '0' as int)
  }

  /** Reading the numeral of `n` back gives `n`. */
  lemma {:induction false} DecimalReadsBack(n: nat)
    ensures DecimalValue(Decimal(n)) == n
  {
    if n >= 10 {
      var d := Decimal(n);
      assert d[..|d| - 1] == Decimal(n / 10);
      DecimalReadsBack(n / 10);
    }
  }

  /** Different numbers have different numerals. */
  lemma DecimalInjective(a: nat, b: nat)
    requires Decimal(a) == Decimal(b)
    ensures a == b
  {
    DecimalReadsBack(a);
    DecimalReadsBack(b);
  }

  /** `stem_k.ext`, or `stem_k` when there is no extension. */
  function CandidateName(parts: NameParts, k: nat): string {
    match parts.ext
    case None => parts.stem + "_" + Decimal(k)
    case Some(e) => parts.stem + "_" + Decimal(k) + "." + e
  }

  /** The `k`-th rename candidate for `dest`: a sibling of `dest` named `stem_k.ext`. */
  function Candidate(dest: Path, k: nat): (c: Path)
    requires dest.Child?
    ensures c.Child? && c.parent == dest.parent
  {
    Child(dest.parent, CandidateName(SplitName(dest.name), k))
  }

  lemma InfixInjective(a: string, x: string, y: string, b: string)
    requires a + x + b == a + y + b
    ensures x == y
  {
    assert |x| == |y|;
    assert x == (a + x + b)[|a|..|a| + |x|];
    assert y == (a + y + b)[|a|..|a| + |y|];
  }

  /** Different counters give different candidates, so the rename search never probes a name twice. */
  lemma CandidateInjective(dest: Path, j: nat, k: nat)
    requires dest.Child?
    requires Candidate(dest, j) == Candidate(dest, k)
    ensures j == k
  {
    var parts := SplitName(dest.name);
    match parts.ext
    case None =>
      assert CandidateName(parts, j) == parts.stem + "_" + Decimal(j) + "";
      assert CandidateName(parts, k) == parts.stem + "_" + Decimal(k) + "";
      InfixInjective(parts.stem + "_", Decimal(j), Decimal(k), "");
      DecimalInjective(j, k);
    case Some(e) =>
      assert CandidateName(parts, j) == parts.stem + "_" + Decimal(j) + ("." + e);
      assert CandidateName(parts, k) == parts.stem + "_" + Decimal(k) + ("." + e);
      InfixInjective(parts.stem + "_", Decimal(j), Decimal(k), "." + e);
      DecimalInjective(j, k);
  }

  /** The last dot of `s + t` is the last dot of `t` if it has one, else the last dot of `s`. */
  lemma {:induction false} LastDotAppend(s: string, t: string)
    ensures LastDot(s + t) == if LastDot(t).Some? then Some(|s| + LastDot(t).value) else LastDot(s)
    decreases |t|
  {
    if t == [] {
      assert s + t == s;
    } else {
      assert (s + t)[..|s + t| - 1] == s + t[..|t| - 1];
      if t[|t| - 1] != '.' {
        LastDotAppend(s, t[..|t| - 1]);
      }
    }
  }

  /** `_k` contains no dot. */
  lemma SuffixNoDot(k: nat)
    ensures LastDot("_" + Decimal(k)).None?
  {
    var suffix := "_" + Decimal(k);
    forall i | 0 <= i < |suffix| ensures suffix[i] != '.' {
      if i > 0 { assert suffix[i] == Decimal(k)[i - 1]; }
    }
  }

  lemma CandidateKeepsNoExtension(name: string, k: nat)
    requires name != ".." && SplitName(name).ext.None?
    ensures SplitName(CandidateName(SplitName(name), k)) == NameParts(name + "_" + Decimal(k), None)
  {
    var suffix := "_" + Decimal(k);
    var c := name + suffix;
    assert CandidateName(SplitName(name), k) == c;
    SuffixNoDot(k);
    LastDotAppend(name, suffix);
    assert c[|c| - 1] == Decimal(k)[|Decimal(k)| - 1];
    assert c != "..";
    if LastDot(name).Some? {
      assert LastDot(c) == Some(0);
    }
  }
  /** A non-empty stem, a dot and a dot-free extension split back into that stem and extension. */
  lemma SplitStemAndExtension(stem: string, e: string)
    requires stem != "" && NoDot(e) && stem + "." + e != ".."
    ensures SplitName(stem + "." + e) == NameParts(stem, Some(e))
  {
    var tail := "." + e;
    var c := stem + tail;
    assert c == stem + "." + e;
    LastDotAppend(".", e);
    assert LastDot(tail) == Some(0);
    LastDotAppend(stem, tail);
    assert LastDot(c) == Some(|stem|);
    assert c[..|stem|] == stem;
    assert c[|stem| + 1..] == e;
  }

  lemma CandidateKeepsSomeExtension(stem: string, e: string, k: nat)
    requires stem != "" && NoDot(e)
    ensures SplitName(CandidateName(NameParts(stem, Some(e)), k)) == NameParts(stem + "_" + Decimal(k), Some(e))
  {
    var newStem := stem + "_" + Decimal(k);
    assert CandidateName(NameParts(stem, Some(e)), k) == newStem + "." + e;
    assert |newStem| >= 2;
    SplitStemAndExtension(newStem, e);
  }

  /**
   * A candidate keeps the extension of the name it was made from: its stem is
   * the old stem followed by `_k`.
   */
  lemma CandidateKeepsExtension(name: string, k: nat)
    requires name != ".."
    ensures SplitName(CandidateName(SplitName(name), k))
            == NameParts(SplitName(name).stem + "_" + Decimal(k), SplitName(name).ext)
  {
    var parts := SplitName(name);
    match parts.ext
    case None =>
      CandidateKeepsNoExtension(name, k);
    case Some(e) =>
      CandidateKeepsSomeExtension(parts.stem, e, k);
  }
}
