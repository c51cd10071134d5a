/**
 * The two `truncate_str` helpers that shorten names and MIME types for
 * display: the one in the command line output (src/cli.rs:622-628) and the
 * one in the dashboards (src/tui.rs:729-735), which differ only for limits
 * below 3.
 */
module Text {

  const Ellipsis: string := "..."

  /**
   * The dashboards' `truncate_str`: a string that fits is kept; a longer one
   * is cut to its first `maxLen - 3` characters (none when `maxLen` is below
   * 3) followed by `...`.
   */
  function Truncate(s: string, maxLen: nat): (r: string)
    ensures |s| <= maxLen ==> r == s
    ensures |s| > maxLen ==> |r| == (if maxLen >= 3 then maxLen else 3)
    ensures |s| > maxLen ==> r[..|r| - 3] == s[..|r| - 3] && r[|r| - 3..] == Ellipsis
  {
    if |s| <= maxLen then s
    else
      var keep := if maxLen >= 3 then maxLen - 3 else 0;
      assert (s[..keep] + Ellipsis)[..keep] == s[..keep];
      s[..keep] + Ellipsis
  }

  /**
   * The command line's `truncate_str`, the same rule with `max_len - 3`
   * unsaturated: the source can only cut a string when the limit is at least 3.
   */
  function TruncateCli(s: string, maxLen: nat): (r: string)
    requires |s| <= maxLen || maxLen >= 3
    ensures r == Truncate(s, maxLen)
  {
    if |s| <= maxLen then s else s[..maxLen - 3] + Ellipsis
  }

  /** With a limit of at least 3 the result always fits the limit, and truncating twice changes nothing more. */
  lemma TruncateFitsAndSettles(s: string, maxLen: nat)
    requires maxLen >= 3
    ensures |Truncate(s, maxLen)| <= maxLen
    ensures Truncate(Truncate(s, maxLen), maxLen) == Truncate(s, maxLen)
  {
  }

  /** Below a limit of 3 a long string still comes out as `...`, longer than the limit. */
  lemma TruncateBelowThree(s: string, maxLen: nat)
    requires maxLen < 3 && |s| > maxLen
    ensures Truncate(s, maxLen) == Ellipsis
  {
  }
}
