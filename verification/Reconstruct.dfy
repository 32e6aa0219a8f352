/** Rebuilding file content from the original and per-hunk decisions. */
module Reconstruct {
  import opened Common
  import opened EditScript
  import opened Hunks
  import opened Lines

  datatype Decision = Pending | Accepted | Rejected

  type Decisions = map<string, Decision>

  predicate IsAccepted(d: Decisions, id: string) {
    id in d && d[id] == Accepted
  }

  // ---- The hunks in file order ----

  function Insert<Line>(h: Hunk<Line>, hs: seq<Hunk<Line>>): seq<Hunk<Line>> {
    if hs == [] || h.oldStart <= hs[0].oldStart then [h] + hs else [hs[0]] + Insert(h, hs[1..])
  }

  /** The stable library sort by `oldStart`. */
  function SortHunks<Line>(hs: seq<Hunk<Line>>): seq<Hunk<Line>> {
    if hs == [] then [] else Insert(hs[0], SortHunks(hs[1..]))
  }

  ghost predicate Sorted<Line>(hs: seq<Hunk<Line>>) {
    forall i, j :: 0 <= i < j < |hs| ==> hs[i].oldStart <= hs[j].oldStart
  }

  lemma MultisetTail<T>(s: seq<T>)
    requires s != []
    ensures multiset(s[1..]) == multiset(s) - multiset{s[0]}
    ensures multiset(s) == multiset{s[0]} + multiset(s[1..])
  {
    assert s == [s[0]] + s[1..];
  }

  lemma {:induction false} InsertAdds<Line>(h: Hunk<Line>, hs: seq<Hunk<Line>>)
    ensures multiset(Insert(h, hs)) == multiset{h} + multiset(hs)
  {
    if hs == [] || h.oldStart <= hs[0].oldStart {
    } else {
      InsertAdds(h, hs[1..]);
      MultisetTail(hs);
    }
  }

  lemma SortedCons<Line>(h: Hunk<Line>, hs: seq<Hunk<Line>>)
    requires Sorted(hs) && forall x :: x in hs ==> h.oldStart <= x.oldStart
    ensures Sorted([h] + hs)
  {
  }

  lemma {:induction false} InsertSorts<Line>(h: Hunk<Line>, hs: seq<Hunk<Line>>)
    requires Sorted(hs)
    ensures Sorted(Insert(h, hs))
  {
    if hs == [] || h.oldStart <= hs[0].oldStart {
    } else {
      InsertSorts(h, hs[1..]);
      InsertAdds(h, hs[1..]);
      var r := Insert(h, hs[1..]);
      forall x | x in r ensures hs[0].oldStart <= x.oldStart {
        assert x in multiset(r);
        assert x == h || x in hs[1..];
      }
      SortedCons(hs[0], r);
    }
  }

  lemma {:induction false} SortSorts<Line>(hs: seq<Hunk<Line>>)
    ensures Sorted(SortHunks(hs))
    ensures multiset(SortHunks(hs)) == multiset(hs)
  {
    if hs != [] {
      SortSorts(hs[1..]);
      InsertSorts(hs[0], SortHunks(hs[1..]));
      InsertAdds(hs[0], SortHunks(hs[1..]));
      MultisetTail(hs);
    }
  }

  lemma {:induction false} SortedIsUnique<Line>(a: seq<Hunk<Line>>, b: seq<Hunk<Line>>)
    requires multiset(a) == multiset(b) && Separated(a) && Sorted(b)
    ensures a == b
  {
    if a == [] {
      assert |multiset(b)| == 0;
    } else {
      assert |multiset(a)| == |a| && |multiset(b)| == |b|;
      assert b[0] in multiset(a) && a[0] in multiset(b);
      assert a[0] == b[0];
      MultisetTail(a);
      MultisetTail(b);
      SortedIsUnique(a[1..], b[1..]);
    }
  }

  // ---- The rebuilding loop ----

  ghost predicate InRange<Line>(hs: seq<Hunk<Line>>, n: nat) {
    forall i :: 0 <= i < |hs| ==> hs[i].oldStart + hs[i].oldCount <= n
  }

  /** Lines `start` to `end` of a file, as a copying loop collects them. */
  function Copied<Line>(oldLines: seq<Line>, start: nat, end: nat): seq<Line>
    decreases end - start
  {
    if start < end <= |oldLines| then [oldLines[start]] + Copied(oldLines, start + 1, end) else []
  }

  lemma {:induction false} CopiedSplit<Line>(oldLines: seq<Line>, start: nat, mid: nat, end: nat)
    requires start <= mid <= end <= |oldLines|
    ensures Copied(oldLines, start, end) == Copied(oldLines, start, mid) + Copied(oldLines, mid, end)
    decreases mid - start
  {
    if start == mid {
      ConcatEmpty(Copied(oldLines, mid, end));
    } else {
      CopiedSplit(oldLines, start + 1, mid, end);
      ConcatAssociates([oldLines[start]], Copied(oldLines, start + 1, mid), Copied(oldLines, mid, end));
    }
  }

  lemma {:induction false} CopiedAll<Line>(ls: seq<Line>, before: seq<Line>)
    ensures Copied(before + ls, |before|, |before| + |ls|) == ls
    decreases |ls|
  {
    if ls != [] {
      var next := before + [ls[0]];
      assert before + ls == next + ls[1..];
      CopiedAll(ls[1..], next);
    }
  }

  lemma SortKeepsRange<Line>(hs: seq<Hunk<Line>>, n: nat)
    requires InRange(hs, n)
    ensures InRange(SortHunks(hs), n)
  {
    SortSorts(hs);
    var sorted := SortHunks(hs);
    forall i | 0 <= i < |sorted| ensures sorted[i].oldStart + sorted[i].oldCount <= n {
      assert sorted[i] in multiset(sorted);
      assert sorted[i] in hs;
    }
  }

  /** What a hunk contributes: its new lines if accepted, the old lines otherwise. */
  function Contribution<Line>(oldLines: seq<Line>, h: Hunk<Line>, d: Decisions): seq<Line> {
    if IsAccepted(d, h.id) then h.newLines else Copied(oldLines, h.oldStart, h.oldStart + h.oldCount)
  }

  /** The lines still to be put out when the hunks before `i` are done. */
  function Rebuild<Line>(oldLines: seq<Line>, hs: seq<Hunk<Line>>, d: Decisions, i: nat, cursor: nat): seq<Line>
    requires i <= |hs|
    decreases |hs| - i
  {
    if i == |hs| then Copied(oldLines, cursor, |oldLines|)
    else
      Copied(oldLines, cursor, hs[i].oldStart)
      + Contribution(oldLines, hs[i], d)
      + Rebuild(oldLines, hs, d, i + 1, hs[i].oldStart + hs[i].oldCount)
  }

  /** One round of the loop: the piece that is put out, and what is left. */
  lemma RebuildRound<Line>(oldLines: seq<Line>, hs: seq<Hunk<Line>>, d: Decisions, i: nat, cursor: nat)
    requires i < |hs|
    ensures Rebuild(oldLines, hs, d, i, cursor)
            == Copied(oldLines, cursor, hs[i].oldStart) + Contribution(oldLines, hs[i], d)
               + Rebuild(oldLines, hs, d, i + 1, hs[i].oldStart + hs[i].oldCount)
  {
  }

  lemma RoundExtends<Line>(oldLines: seq<Line>, hs: seq<Hunk<Line>>, d: Decisions, i: nat, cursor: nat,
                           out: seq<Line>, piece: seq<Line>)
    requires i < |hs| && piece == Copied(oldLines, cursor, hs[i].oldStart) + Contribution(oldLines, hs[i], d)
    ensures (out + piece) + Rebuild(oldLines, hs, d, i + 1, hs[i].oldStart + hs[i].oldCount)
            == out + Rebuild(oldLines, hs, d, i, cursor)
  {
    RebuildRound(oldLines, hs, d, i, cursor);
    ConcatAssociates(out, piece, Rebuild(oldLines, hs, d, i + 1, hs[i].oldStart + hs[i].oldCount));
  }

  /** `while (cursor < next) out.push(oldLines[cursor++])`. */
  method CopyUntil<Line(==)>(oldLines: seq<Line>, start: nat, next: nat) returns (copied: seq<Line>)
    requires next <= |oldLines|
    ensures copied == Copied(oldLines, start, next)
  {
    copied := [];
    var cursor := start;
    ConcatEmpty(Copied(oldLines, start, next));
    while cursor < next
      invariant start <= cursor
      invariant copied + Copied(oldLines, cursor, next) == Copied(oldLines, start, next)
    {
      copied := Push(copied, oldLines[cursor], Copied(oldLines, cursor + 1, next));
      cursor := cursor + 1;
    }
  }

  /** The untouched lines before a hunk and then what the hunk contributes. */
  method ResolveHunk<Line(==)>(oldLines: seq<Line>, h: Hunk<Line>, d: Decisions, cursor: nat) returns (piece: seq<Line>)
    requires h.oldStart + h.oldCount <= |oldLines|
    ensures piece == Copied(oldLines, cursor, h.oldStart) + Contribution(oldLines, h, d)
  {
    piece := CopyUntil(oldLines, cursor, h.oldStart);
    if IsAccepted(d, h.id) {
      piece := piece + h.newLines;
    } else {
      var kept := CopyUntil(oldLines, h.oldStart, h.oldStart + h.oldCount);
      piece := piece + kept;
    }
  }

  method RebuildSorted<Line(==)>(oldLines: seq<Line>, sorted: seq<Hunk<Line>>, d: Decisions) returns (out: seq<Line>)
    requires InRange(sorted, |oldLines|)
    ensures out == Rebuild(oldLines, sorted, d, 0, 0)
  {
    out := [];
    var cursor: nat := 0;
    ghost var goal := Rebuild(oldLines, sorted, d, 0, 0);
    ConcatEmpty(goal);
    for i := 0 to |sorted|
      invariant out + Rebuild(oldLines, sorted, d, i, cursor) == goal
    {
      var h := sorted[i];
      var piece := ResolveHunk(oldLines, h, d, cursor);
      RoundExtends(oldLines, sorted, d, i, cursor, out, piece);
      cursor := h.oldStart + h.oldCount;
      out := out + piece;
    }
    var tail := CopyUntil(oldLines, cursor, |oldLines|);
    out := out + tail;
  }

  method RebuildLines<Line(==)>(oldLines: seq<Line>, hunks: seq<Hunk<Line>>, d: Decisions) returns (out: seq<Line>)
    requires InRange(hunks, |oldLines|)
    ensures out == Rebuild(oldLines, SortHunks(hunks), d, 0, 0)
  {
    SortKeepsRange(hunks, |oldLines|);
    out := RebuildSorted(oldLines, SortHunks(hunks), d);
  }

  /** `reconstruct` on file contents. */
  method ReconstructContent(oldContent: string, hunks: seq<Hunk<string>>, d: Decisions) returns (content: string)
    requires InRange(hunks, |SplitLines(oldContent)|)
    ensures content == Unlines(Rebuild(SplitLines(oldContent), SortHunks(hunks), d, 0, 0), EndsWithNewline(oldContent))
  {
    var oldLines := SplitLines(oldContent);
    var out := RebuildLines(oldLines, hunks, d);
    var trailing := EndsWithNewline(oldContent);
    content := Unlines(out, trailing);
  }

  // ---- Replaying the edit script with each hunk resolved on its own ----

  /** An operation leaves its line in the result: unchanged lines stay, deleted ones stay
      unless accepted, inserted ones only come if accepted. */
  predicate Stays<Line>(op: Op<Line>, accepted: bool) {
    op.Eq? || (op.Del? && !accepted) || (op.Ins? && accepted)
  }

  /** Operations `lo` to `hi` replayed, each accepted or not. */
  function Replay<Line>(ops: seq<Op<Line>>, flags: seq<bool>, lo: nat, hi: nat): seq<Line>
    requires lo <= hi <= |ops| == |flags|
    decreases hi - lo
  {
    if lo == hi then []
    else if Stays(ops[lo], flags[lo]) then [ops[lo].text] + Replay(ops, flags, lo + 1, hi)
    else Replay(ops, flags, lo + 1, hi)
  }

  /** A change is accepted when the hunk of its run is. */
  function Flags<Line>(ops: seq<Op<Line>>, d: Decisions): seq<bool> {
    seq(|ops|, k requires 0 <= k < |ops| => !ops[k].Eq? && IsAccepted(d, HunkId(RunIndex(ops, k))))
  }

  /** The lines that a set of decisions resolves to. */
  function Resolved<Line>(ops: seq<Op<Line>>, d: Decisions): seq<Line> {
    Replay(ops, Flags(ops, d), 0, |ops|)
  }

  lemma {:induction false} ReplaySplit<Line>(ops: seq<Op<Line>>, flags: seq<bool>, lo: nat, mid: nat, hi: nat)
    requires lo <= mid <= hi <= |ops| == |flags|
    ensures Replay(ops, flags, lo, hi) == Replay(ops, flags, lo, mid) + Replay(ops, flags, mid, hi)
    decreases mid - lo
  {
    if lo == mid {
      ConcatEmpty(Replay(ops, flags, mid, hi));
    } else {
      ReplaySplit(ops, flags, lo + 1, mid, hi);
      ConcatAssociates([ops[lo].text], Replay(ops, flags, lo + 1, mid), Replay(ops, flags, mid, hi));
    }
  }

  lemma {:induction false} ReplayUniform<Line>(ops: seq<Op<Line>>, flags: seq<bool>, lo: nat, hi: nat, accepted: bool)
    requires lo <= hi <= |ops| == |flags|
    requires forall k :: lo <= k < hi && !ops[k].Eq? ==> flags[k] == accepted
    ensures Replay(ops, flags, lo, hi) == if accepted then NewRange(ops, lo, hi) else OldRange(ops, lo, hi)
    decreases hi - lo
  {
    if lo < hi {
      ReplayUniform(ops, flags, lo + 1, hi, accepted);
    }
  }

  lemma {:induction false} ReplaySame<Line>(ops: seq<Op<Line>>, f: seq<bool>, g: seq<bool>, lo: nat, hi: nat)
    requires lo <= hi <= |ops| == |f| == |g|
    requires forall k :: lo <= k < hi ==> f[k] == g[k]
    ensures Replay(ops, f, lo, hi) == Replay(ops, g, lo, hi)
    decreases hi - lo
  {
    if lo < hi {
      ReplaySame(ops, f, g, lo + 1, hi);
    }
  }

  lemma {:induction false} CopiedPrefix<Line>(ls: seq<Line>, more: seq<Line>, start: nat, end: nat)
    requires start <= end <= |ls|
    ensures Copied(ls + more, start, end) == Copied(ls, start, end)
    decreases end - start
  {
    if start < end {
      CopiedPrefix(ls, more, start + 1, end);
    }
  }

  /** Where the lines of a range of operations are in the old file. */
  lemma RangePosition<Line>(ops: seq<Op<Line>>, k: nat, end: nat)
    requires k <= end <= |ops|
    ensures OldNo(ops, end) == OldNo(ops, k) + |OldRange(ops, k, end)| <= |OldSide(ops)|
    ensures Copied(OldSide(ops), OldNo(ops, k), OldNo(ops, end)) == OldRange(ops, k, end)
  {
    SidesAreRanges(ops);
    OldRangeSplit(ops, 0, end, |ops|);
    OldRangeSplit(ops, 0, k, end);
    var a, b, c := OldRange(ops, 0, k), OldRange(ops, k, end), OldRange(ops, end, |ops|);
    CopiedAll(b, a);
    CopiedPrefix(a + b, c, |a|, |a| + |b|);
  }

  /** The hunks of a script only name lines of its old side. */
  lemma HunksInRange<Line>(ops: seq<Op<Line>>)
    ensures InRange(HunksOf(ops), |OldSide(ops)|)
  {
    forall i | 0 <= i < |HunksOf(ops)| ensures HunksOf(ops)[i].oldStart + HunksOf(ops)[i].oldCount <= |OldSide(ops)| {
      var h := HunksOf(ops)[i];
      HunksCoverRuns(ops, 0, h);
      RangePosition(ops, h.firstLineIndex, h.firstLineIndex + Size(h));
    }
  }

  /** Hunks `i` and later are those from operation `k` on. */
  ghost predicate AtHunk<Line>(ops: seq<Op<Line>>, k: nat, i: nat) {
    && k <= |ops| && i <= |HunksOf(ops)| && Between(ops, k)
    && HunksOf(ops)[i..] == HunksFrom(ops, k)
  }

  lemma NextHunk<Line>(ops: seq<Op<Line>>, k: nat, i: nat)
    requires AtHunk(ops, k, i) && k < |ops|
    ensures ops[k].Eq? ==> AtHunk(ops, k + 1, i)
    ensures !ops[k].Eq? ==>
              i < |HunksOf(ops)| && HunksOf(ops)[i] == HunkAt(ops, k) && AtHunk(ops, RunEnd(ops, k), i + 1)
  {
    if !ops[k].Eq? {
      var hs, rest := HunksOf(ops), HunksOf(ops)[i..];
      assert rest[0] == hs[i] && rest[1..] == hs[i + 1..];
    }
  }

  /** An unchanged line extends the stretch still to be copied. */
  lemma KeepOneMore<Line>(ops: seq<Op<Line>>, k: nat, cursor: nat)
    requires k < |ops| && ops[k].Eq? && cursor <= OldNo(ops, k)
    ensures OldNo(ops, k) < OldNo(ops, k + 1)
    ensures Copied(OldSide(ops), cursor, OldNo(ops, k + 1))
            == Copied(OldSide(ops), cursor, OldNo(ops, k)) + [ops[k].text]
  {
    RangePosition(ops, k, k + 1);
    assert OldRange(ops, k, k + 1) == [ops[k].text];
    CopiedSplit(OldSide(ops), cursor, OldNo(ops, k), OldNo(ops, k + 1));
  }

  lemma FlagInRun<Line>(ops: seq<Op<Line>>, d: Decisions, h: Hunk<Line>, k: nat)
    requires CoversRun(ops, h) && h.firstLineIndex <= k < h.firstLineIndex + Size(h)
    ensures Flags(ops, d)[k] == IsAccepted(d, h.id)
  {
    WithinRun(ops, h.firstLineIndex, k);
  }

  /** A hunk's run replays to the new lines if it is accepted, to the old ones otherwise. */
  lemma RunReplay<Line>(ops: seq<Op<Line>>, d: Decisions, h: Hunk<Line>, end: nat)
    requires CoversRun(ops, h) && end == h.firstLineIndex + Size(h)
    ensures Replay(ops, Flags(ops, d), h.firstLineIndex, end)
            == if IsAccepted(d, h.id) then h.newLines else OldRange(ops, h.firstLineIndex, end)
  {
    var first, accepted := h.firstLineIndex, IsAccepted(d, h.id);
    forall k | first <= k < end ensures Flags(ops, d)[k] == accepted {
      FlagInRun(ops, d, h, k);
    }
    ReplayUniform(ops, Flags(ops, d), first, end, accepted);
  }

  /** A hunk contributes what its run replays to. */
  lemma ContributionIsReplay<Line>(ops: seq<Op<Line>>, d: Decisions, h: Hunk<Line>, end: nat)
    requires CoversRun(ops, h) && end == h.firstLineIndex + Size(h)
    ensures h.oldStart + h.oldCount == OldNo(ops, end)
    ensures Contribution(OldSide(ops), h, d) == Replay(ops, Flags(ops, d), h.firstLineIndex, end)
  {
    RangePosition(ops, h.firstLineIndex, end);
    RunReplay(ops, d, h, end);
  }

  /** What is rebuilt from a hunk on, when `rest` is rebuilt after it. */
  lemma RebuildFromHunk<Line>(ops: seq<Op<Line>>, hs: seq<Hunk<Line>>, d: Decisions, k: nat, i: nat, cursor: nat,
                              rest: seq<Line>)
    requires k < |ops| && StartsRun(ops, k) && i < |hs| && hs[i] == HunkAt(ops, k)
    requires rest == Rebuild(OldSide(ops), hs, d, i + 1, OldNo(ops, RunEnd(ops, k)))
    ensures Rebuild(OldSide(ops), hs, d, i, cursor)
            == Copied(OldSide(ops), cursor, OldNo(ops, k)) + Replay(ops, Flags(ops, d), k, RunEnd(ops, k)) + rest
  {
    HunkAtCoversRun(ops, k);
    ContributionIsReplay(ops, d, HunkAt(ops, k), RunEnd(ops, k));
    RebuildRound(OldSide(ops), hs, d, i, cursor);
  }

  lemma ReplayOfRun<Line>(ops: seq<Op<Line>>, flags: seq<bool>, k: nat, end: nat, before: seq<Line>)
    requires k <= end <= |ops| == |flags|
    ensures before + Replay(ops, flags, k, end) + Replay(ops, flags, end, |ops|)
            == before + Replay(ops, flags, k, |ops|)
  {
    ReplaySplit(ops, flags, k, end, |ops|);
    ConcatAssociates(before, Replay(ops, flags, k, end), Replay(ops, flags, end, |ops|));
  }

  lemma {:induction false} RebuildRun<Line>(ops: seq<Op<Line>>, d: Decisions, k: nat, i: nat, cursor: nat)
    requires AtHunk(ops, k, i) && k < |ops| && !ops[k].Eq? && cursor <= OldNo(ops, k)
    ensures Rebuild(OldSide(ops), HunksOf(ops), d, i, cursor)
            == Copied(OldSide(ops), cursor, OldNo(ops, k)) + Replay(ops, Flags(ops, d), k, |ops|)
    decreases |ops| - k, 0
  {
    var end := RunEnd(ops, k);
    NextHunk(ops, k, i);
    RebuildAfterRun(ops, d, end, i + 1);
    RebuildFromHunk(ops, HunksOf(ops), d, k, i, cursor, Replay(ops, Flags(ops, d), end, |ops|));
    ReplayOfRun(ops, Flags(ops, d), k, end, Copied(OldSide(ops), cursor, OldNo(ops, k)));
  }

  lemma {:induction false} RebuildIsReplay<Line>(ops: seq<Op<Line>>, d: Decisions, k: nat, i: nat, cursor: nat)
    requires AtHunk(ops, k, i) && cursor <= OldNo(ops, k)
    ensures Rebuild(OldSide(ops), HunksOf(ops), d, i, cursor)
            == Copied(OldSide(ops), cursor, OldNo(ops, k)) + Replay(ops, Flags(ops, d), k, |ops|)
    decreases |ops| - k, 1
  {
    if k == |ops| {
      SidesAreRanges(ops);
    } else {
      NextHunk(ops, k, i);
      if ops[k].Eq? {
        KeepOneMore(ops, k, cursor);
        RebuildIsReplay(ops, d, k + 1, i, cursor);
        ConcatAssociates(Copied(OldSide(ops), cursor, OldNo(ops, k)), [ops[k].text],
                         Replay(ops, Flags(ops, d), k + 1, |ops|));
      } else {
        RebuildRun(ops, d, k, i, cursor);
      }
    }
  }

  /** Resuming right after a run. */
  lemma {:induction false} RebuildAfterRun<Line>(ops: seq<Op<Line>>, d: Decisions, end: nat, i: nat)
    requires AtHunk(ops, end, i)
    ensures Rebuild(OldSide(ops), HunksOf(ops), d, i, OldNo(ops, end)) == Replay(ops, Flags(ops, d), end, |ops|)
    decreases |ops| - end, 2
  {
    RebuildIsReplay(ops, d, end, i, OldNo(ops, end));
    ConcatEmpty(Replay(ops, Flags(ops, d), end, |ops|));
  }

  /** The reconstruction from any ordering of a diff's hunks is the replay of its edit script
      with each hunk resolved by its own decision. */
  lemma ReconstructionIsReplay<Line>(ops: seq<Op<Line>>, hunks: seq<Hunk<Line>>, d: Decisions)
    requires multiset(hunks) == multiset(HunksOf(ops))
    ensures SortHunks(hunks) == HunksOf(ops)
    ensures InRange(hunks, |OldSide(ops)|)
    ensures Rebuild(OldSide(ops), SortHunks(hunks), d, 0, 0) == Resolved(ops, d)
  {
    SortSorts(hunks);
    HunksAreSeparated(ops, 0);
    SortedIsUnique(HunksOf(ops), SortHunks(hunks));
    HunksInRange(ops);
    forall i | 0 <= i < |hunks| ensures hunks[i].oldStart + hunks[i].oldCount <= |OldSide(ops)| {
      assert hunks[i] in multiset(hunks);
      assert hunks[i] in HunksOf(ops);
    }
    assert HunksOf(ops)[0..] == HunksOf(ops);
    RebuildIsReplay(ops, d, 0, 0, 0);
  }

  /** Hunk `i` is the hunk of run `i`. */
  lemma HunkOfRun<Line>(ops: seq<Op<Line>>, i: nat)
    requires i < |HunksOf(ops)|
    ensures CoversRun(ops, HunksOf(ops)[i]) && HunksOf(ops)[i].id == HunkId(i)
    ensures RunsBefore(ops, HunksOf(ops)[i].firstLineIndex) == i
  {
    var h := HunksOf(ops)[i];
    HunksCoverRuns(ops, 0, h);
    HunksAreNumbered(ops, 0, i);
    HunkIdInjective(i, RunsBefore(ops, h.firstLineIndex));
  }

  lemma ChangeBelongsToHunk<Line>(ops: seq<Op<Line>>, k: nat)
    requires k < |ops| && !ops[k].Eq?
    ensures RunIndex(ops, k) < |HunksOf(ops)|
    ensures HunksOf(ops)[RunIndex(ops, k)].id == HunkId(RunIndex(ops, k))
  {
    ChangeIsCovered(ops, 0, k);
    var h :| h in HunksOf(ops) && LineAt(ops, k).hunkId == Some(h.id);
    var i :| 0 <= i < |HunksOf(ops)| && HunksOf(ops)[i] == h;
    HunkOfRun(ops, i);
    HunkIdInjective(i, RunIndex(ops, k));
  }

  /** Accepting every hunk gives the new side, accepting none the old side. */
  lemma AcceptAllOrNone<Line>(ops: seq<Op<Line>>, d: Decisions, accepted: bool)
    requires forall h :: h in HunksOf(ops) ==> IsAccepted(d, h.id) == accepted
    ensures Resolved(ops, d) == if accepted then NewSide(ops) else OldSide(ops)
  {
    var flags := Flags(ops, d);
    forall k | 0 <= k < |ops| && !ops[k].Eq? ensures flags[k] == accepted {
      ChangeBelongsToHunk(ops, k);
      assert HunksOf(ops)[RunIndex(ops, k)] in HunksOf(ops);
    }
    ReplayUniform(ops, flags, 0, |ops|, accepted);
    SidesAreRanges(ops);
  }

  /** Two sets of decisions differ at most on hunk `h`. */
  ghost predicate AgreeExceptOn<Line>(hs: seq<Hunk<Line>>, d: Decisions, e: Decisions, h: Hunk<Line>) {
    forall g :: g in hs && g.id != h.id ==> IsAccepted(d, g.id) == IsAccepted(e, g.id)
  }

  lemma {:induction false} RunIndexBound<Line>(ops: seq<Op<Line>>, k: nat)
    requires k < |ops| && !ops[k].Eq?
    ensures RunIndex(ops, k) + 1 == RunsBefore(ops, k + 1)
  {
    if !StartsRun(ops, k) {
      RunIndexBound(ops, k - 1);
    }
  }

  lemma {:induction false} LaterRun<Line>(ops: seq<Op<Line>>, end: nat, k: nat)
    requires end < k < |ops| && ops[end].Eq? && !ops[k].Eq?
    ensures RunIndex(ops, k) >= RunsBefore(ops, end)
  {
    if StartsRun(ops, k) {
      RunsBeforeMonotone(ops, end, k);
    } else {
      LaterRun(ops, end, k - 1);
    }
  }

  /** A change outside a maximal run belongs to another run. */
  lemma OtherRunOtherHunk<Line>(ops: seq<Op<Line>>, first: nat, end: nat, k: nat)
    requires MaximalRun(ops, first, end) && k < |ops| && !ops[k].Eq? && !(first <= k < end)
    ensures RunIndex(ops, k) != RunsBefore(ops, first)
  {
    RunIndexBound(ops, k);
    if k < first {
      RunsBeforeMonotone(ops, k + 1, first);
    } else {
      WithinRun(ops, first, end - 1);
      LaterRun(ops, end, k);
    }
  }

  lemma FlagsAgreeOutside<Line>(ops: seq<Op<Line>>, d: Decisions, e: Decisions, i: nat, k: nat)
    requires i < |HunksOf(ops)| && AgreeExceptOn(HunksOf(ops), d, e, HunksOf(ops)[i])
    requires var h := HunksOf(ops)[i]; k < |ops| && !(h.firstLineIndex <= k < h.firstLineIndex + Size(h))
    ensures Flags(ops, d)[k] == Flags(ops, e)[k]
  {
    if !ops[k].Eq? {
      var h := HunksOf(ops)[i];
      HunkOfRun(ops, i);
      OtherRunOtherHunk(ops, h.firstLineIndex, h.firstLineIndex + Size(h), k);
      ChangeBelongsToHunk(ops, k);
      var g := HunksOf(ops)[RunIndex(ops, k)];
      if g.id == h.id {
        HunkIdInjective(i, RunIndex(ops, k));
      }
      assert g in HunksOf(ops);
    }
  }

  ghost function BeforeHunk<Line>(ops: seq<Op<Line>>, d: Decisions, h: Hunk<Line>): seq<Line>
    requires h.firstLineIndex <= |ops|
  {
    Replay(ops, Flags(ops, d), 0, h.firstLineIndex)
  }

  ghost function AfterHunk<Line>(ops: seq<Op<Line>>, d: Decisions, h: Hunk<Line>): seq<Line>
    requires h.firstLineIndex + Size(h) <= |ops|
  {
    Replay(ops, Flags(ops, d), h.firstLineIndex + Size(h), |ops|)
  }

  lemma ResolvedAround<Line>(ops: seq<Op<Line>>, d: Decisions, h: Hunk<Line>)
    requires CoversRun(ops, h)
    ensures Resolved(ops, d) == BeforeHunk(ops, d, h) + Contribution(OldSide(ops), h, d) + AfterHunk(ops, d, h)
  {
    var flags := Flags(ops, d);
    var first, end := h.firstLineIndex, h.firstLineIndex + Size(h);
    ContributionIsReplay(ops, d, h, end);
    ReplaySplit(ops, flags, 0, first, |ops|);
    ReplaySplit(ops, flags, first, end, |ops|);
    ConcatAssociates(Replay(ops, flags, 0, first), Replay(ops, flags, first, end), Replay(ops, flags, end, |ops|));
  }

  lemma AroundAgrees<Line>(ops: seq<Op<Line>>, d: Decisions, e: Decisions, i: nat)
    requires i < |HunksOf(ops)| && AgreeExceptOn(HunksOf(ops), d, e, HunksOf(ops)[i])
    ensures CoversRun(ops, HunksOf(ops)[i])
    ensures BeforeHunk(ops, d, HunksOf(ops)[i]) == BeforeHunk(ops, e, HunksOf(ops)[i])
    ensures AfterHunk(ops, d, HunksOf(ops)[i]) == AfterHunk(ops, e, HunksOf(ops)[i])
  {
    var h := HunksOf(ops)[i];
    HunkOfRun(ops, i);
    var first, end := h.firstLineIndex, h.firstLineIndex + Size(h);
    forall k | 0 <= k < |ops| && !(first <= k < end) ensures Flags(ops, d)[k] == Flags(ops, e)[k] {
      FlagsAgreeOutside(ops, d, e, i, k);
    }
    ReplaySame(ops, Flags(ops, d), Flags(ops, e), 0, first);
    ReplaySame(ops, Flags(ops, d), Flags(ops, e), end, |ops|);
  }

  /** Changing the decision on hunk `i` changes that hunk's segment and nothing else. */
  lemma OneDecisionOneSegment<Line>(ops: seq<Op<Line>>, d: Decisions, e: Decisions, i: nat)
    requires i < |HunksOf(ops)| && AgreeExceptOn(HunksOf(ops), d, e, HunksOf(ops)[i])
    ensures exists before, after ::
              && Resolved(ops, d) == before + Contribution(OldSide(ops), HunksOf(ops)[i], d) + after
              && Resolved(ops, e) == before + Contribution(OldSide(ops), HunksOf(ops)[i], e) + after
  {
    var h := HunksOf(ops)[i];
    AroundAgrees(ops, d, e, i);
    ResolvedAround(ops, d, h);
    ResolvedAround(ops, e, h);
  }
}
