/** Matching a host name against an SSH config `Host` pattern. */
module HostGlob {
  import opened Common

  const STAR: byte := 42
  const QUESTION: byte := 63

  function Lower(b: byte): byte {
    if 65 <= b <= 90 then b + 32 else b
  }

  predicate EqIgnoreAsciiCase(a: byte, b: byte) {
    Lower(a) == Lower(b)
  }

  /** One pattern byte, not a star, accepts one text byte. */
  predicate Accepts(p: byte, t: byte) {
    p == QUESTION || EqIgnoreAsciiCase(p, t)
  }

  /** The meaning of a pattern: from `ti` on the text matches the pattern from `pi` on, where a
      star stands for any run of bytes and a question mark for one byte. */
  predicate Matches(text: seq<byte>, ti: nat, pattern: seq<byte>, pi: nat)
    requires ti <= |text| && pi <= |pattern|
    decreases |pattern| - pi, |text| - ti
  {
    if pi == |pattern| then ti == |text|
    else if pattern[pi] == STAR then
      Matches(text, ti, pattern, pi + 1) || (ti < |text| && Matches(text, ti + 1, pattern, pi))
    else
      ti < |text| && Accepts(pattern[pi], text[ti]) && Matches(text, ti + 1, pattern, pi + 1)
  }

  /** A star that matches from `j` on also matches from any earlier place. */
  lemma {:induction false} StarAbsorbs(text: seq<byte>, i: nat, j: nat, pattern: seq<byte>, pi: nat)
    requires i <= j <= |text| && pi < |pattern| && pattern[pi] == STAR
    requires Matches(text, j, pattern, pi)
    ensures Matches(text, i, pattern, pi)
    decreases j - i
  {
    if i < j {
      StarAbsorbs(text, i + 1, j, pattern, pi);
    }
  }

  /** A star match starts the rest of the pattern somewhere. */
  lemma {:induction false} StarStopsSomewhere(text: seq<byte>, i: nat, pattern: seq<byte>, pi: nat) returns (k: nat)
    requires i <= |text| && pi < |pattern| && pattern[pi] == STAR && Matches(text, i, pattern, pi)
    ensures i <= k <= |text| && Matches(text, k, pattern, pi + 1)
    decreases |text| - i
  {
    if Matches(text, i, pattern, pi + 1) {
      k := i;
    } else {
      k := StarStopsSomewhere(text, i + 1, pattern, pi);
    }
  }

  ghost predicate StarFree(pattern: seq<byte>, lo: nat, hi: nat) {
    lo <= hi <= |pattern| && forall k :: lo <= k < hi ==> pattern[k] != STAR
  }

  /** A star-free stretch of the pattern consumes exactly as many bytes as it has. */
  lemma {:induction false} StretchConsumes(text: seq<byte>, k: nat, pattern: seq<byte>, lo: nat, hi: nat)
    requires k <= |text| && StarFree(pattern, lo, hi) && Matches(text, k, pattern, lo)
    ensures k + (hi - lo) <= |text| && Matches(text, k + (hi - lo), pattern, hi)
    decreases hi - lo
  {
    if lo < hi {
      StretchConsumes(text, k + 1, pattern, lo + 1, hi);
    }
  }

  /** Retrying an earlier star later than `match` leaves the rest of the pattern, from `pi` on,
      a place further right than where the scan has already brought it. */
  lemma RetryMatchesFurtherRight(text: seq<byte>, matched: nat, star: nat, pattern: seq<byte>, pi: nat) returns (k: nat)
    requires matched < |text| && star < pi <= |pattern| && pattern[star] == STAR && StarFree(pattern, star + 1, pi)
    requires Matches(text, matched + 1, pattern, star)
    ensures matched + (pi - star - 1) < k <= |text| && Matches(text, k, pattern, pi)
  {
    k := StarStopsSomewhere(text, matched + 1, pattern, star);
    StretchConsumes(text, k, pattern, star + 1, pi);
    k := k + (pi - star - 1);
  }

  /** A match against the empty rest of the text needs a pattern of stars only. */
  lemma {:induction false} EmptyRestNeedsStars(text: seq<byte>, pattern: seq<byte>, pi: nat)
    requires pi <= |pattern|
    ensures Matches(text, |text|, pattern, pi) <==> forall k :: pi <= k < |pattern| ==> pattern[k] == STAR
    decreases |pattern| - pi
  {
    if pi < |pattern| {
      EmptyRestNeedsStars(text, pattern, pi + 1);
    }
  }

  /** What the scan may still fall back to: the latest star, tried one byte further right. */
  ghost predicate Fallback(text: seq<byte>, pattern: seq<byte>, star: int, matched: int)
    requires -1 <= star < |pattern| && -1 <= matched
  {
    0 <= star && 0 <= matched < |text| && Matches(text, matched + 1, pattern, star)
  }

  /** The greedy scan with one backtracking point decides the recursive meaning, on every input. */
  method SimpleGlobMatch(text: seq<byte>, pattern: seq<byte>) returns (r: bool)
    ensures r <==> Matches(text, 0, pattern, 0)
  {
    var pi, ti := 0, 0;
    var starIdx, matchIdx := -1, -1;
    while ti < |text|
      invariant 0 <= ti <= |text| && 0 <= pi <= |pattern|
      invariant -1 <= starIdx < |pattern| && -1 <= matchIdx
      invariant starIdx >= 0 ==> pattern[starIdx] == STAR && starIdx < pi && 0 <= matchIdx <= ti
      invariant starIdx >= 0 ==> StarFree(pattern, starIdx + 1, pi) && ti - matchIdx == pi - starIdx - 1
      invariant Matches(text, 0, pattern, 0)
                <==> Matches(text, ti, pattern, pi) || Fallback(text, pattern, starIdx, matchIdx)
      decreases |pattern| - starIdx, |text| - matchIdx, |text| - ti
    {
      if pi < |pattern| && pattern[pi] == STAR {
        if Fallback(text, pattern, starIdx, matchIdx) {
          var k := RetryMatchesFurtherRight(text, matchIdx, starIdx, pattern, pi);
          StarAbsorbs(text, ti, k, pattern, pi);
        }
        starIdx, matchIdx := pi, ti;
        pi := pi + 1;
      } else if pi < |pattern| && (pattern[pi] == QUESTION || EqIgnoreAsciiCase(pattern[pi], text[ti])) {
        pi, ti := pi + 1, ti + 1;
      } else if starIdx >= 0 {
        pi := starIdx + 1;
        matchIdx := matchIdx + 1;
        ti := matchIdx;
      } else {
        return false;
      }
    }
    if Fallback(text, pattern, starIdx, matchIdx) {
      var k := RetryMatchesFurtherRight(text, matchIdx, starIdx, pattern, pi);
    }
    EmptyRestNeedsStars(text, pattern, pi);
    while pi < |pattern| && pattern[pi] == STAR
      invariant 0 <= pi <= |pattern|
      invariant Matches(text, 0, pattern, 0) <==> forall k :: pi <= k < |pattern| ==> pattern[k] == STAR
    {
      pi := pi + 1;
    }
    r := pi == |pattern|;
  }

  predicate EqIgnoreAsciiCaseAll(a: seq<byte>, b: seq<byte>) {
    |a| == |b| && forall k :: 0 <= k < |a| ==> EqIgnoreAsciiCase(a[k], b[k])
  }

  /** Without wildcards a pattern means case-insensitive equality. */
  lemma {:induction false} PlainPatternIsEquality(host: seq<byte>, pattern: seq<byte>, i: nat)
    requires i <= |host| && i <= |pattern|
    requires forall k :: 0 <= k < |pattern| ==> pattern[k] != STAR && pattern[k] != QUESTION
    ensures Matches(host, i, pattern, i)
            <==> |host| == |pattern| && forall k :: i <= k < |host| ==> EqIgnoreAsciiCase(host[k], pattern[k])
    decreases |pattern| - i
  {
    if i < |pattern| && i < |host| {
      PlainPatternIsEquality(host, pattern, i + 1);
    }
  }

  /** The three cases of the source, shortcut, glob and plain comparison, agree on one meaning. */
  method HostMatches(host: seq<byte>, pattern: seq<byte>) returns (r: bool)
    ensures r <==> Matches(host, 0, pattern, 0)
  {
    if pattern == [STAR] {
      EmptyRestNeedsStars(host, pattern, 0);
      StarAbsorbs(host, 0, |host|, pattern, 0);
      return true;
    }
    if STAR in pattern || QUESTION in pattern {
      r := SimpleGlobMatch(host, pattern);
    } else {
      PlainPatternIsEquality(host, pattern, 0);
      r := EqIgnoreAsciiCaseAll(host, pattern);
    }
  }

  /** The entry that `resolve_host` uses: the first whose pattern means the alias. */
  method FindHost(alias: seq<byte>, patterns: seq<seq<byte>>) returns (found: Option<nat>)
    ensures found.Some? ==> found.value < |patterns| && Matches(alias, 0, patterns[found.value], 0)
                            && forall k :: 0 <= k < found.value ==> !Matches(alias, 0, patterns[k], 0)
    ensures found.None? ==> forall k :: 0 <= k < |patterns| ==> !Matches(alias, 0, patterns[k], 0)
  {
    for i := 0 to |patterns|
      invariant forall k :: 0 <= k < i ==> !Matches(alias, 0, patterns[k], 0)
    {
      var m := HostMatches(alias, patterns[i]);
      if m {
        return Some(i);
      }
    }
    return None;
  }
}
