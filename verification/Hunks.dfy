/** The unified view of an edit script: one displayed line per operation, and one hunk
    per maximal run of changed operations. */
module Hunks {
  import opened Common
  import opened EditScript
  import opened Lines
  import Decimal

  datatype LineType = Context | Addition | Deletion

  datatype UnifiedLine<+Line> =
    UnifiedLine(kind: LineType, text: Line, oldLine: Option<nat>, newLine: Option<nat>, hunkId: Option<string>)

  datatype Hunk<+Line> =
    Hunk(id: string, oldStart: nat, oldCount: nat, newLines: seq<Line>, firstLineIndex: nat)

  function HunkId(n: nat): string {
    "h" + Decimal.Show(n)
  }

  lemma HunkIdInjective(m: nat, n: nat)
    requires HunkId(m) == HunkId(n)
    ensures m == n
  {
    assert HunkId(m)[1..] == Decimal.Show(m);
    assert HunkId(n)[1..] == Decimal.Show(n);
    Decimal.ShowInjective(m, n);
  }

  /** The number of displayed lines of a hunk. */
  function Size<Line>(h: Hunk<Line>): nat {
    h.oldCount + |h.newLines|
  }

  // ---- Runs of changes ----

  /** Operation `k` is the first of a run of changes. */
  predicate StartsRun<Line>(ops: seq<Op<Line>>, k: nat)
    requires k < |ops|
  {
    !ops[k].Eq? && (k == 0 || ops[k - 1].Eq?)
  }

  /** How many runs start before operation `k`. */
  function RunsBefore<Line>(ops: seq<Op<Line>>, k: nat): nat
    requires k <= |ops|
  {
    if k == 0 then 0 else RunsBefore(ops, k - 1) + (if StartsRun(ops, k - 1) then 1 else 0)
  }

  /** Where the changes that start at `k` end. */
  function RunEnd<Line>(ops: seq<Op<Line>>, k: nat): (end: nat)
    requires k <= |ops|
    ensures k <= end <= |ops|
    ensures forall j :: k <= j < end ==> !ops[j].Eq?
    ensures end < |ops| ==> ops[end].Eq?
    decreases |ops| - k
  {
    if k == |ops| || ops[k].Eq? then k else RunEnd(ops, k + 1)
  }

  /** No run has operations on both sides of `k`. */
  ghost predicate Between<Line>(ops: seq<Op<Line>>, k: nat)
    requires k <= |ops|
  {
    k == 0 || k == |ops| || ops[k - 1].Eq? || ops[k].Eq?
  }

  lemma {:induction false} RunsBeforeMonotone<Line>(ops: seq<Op<Line>>, j: nat, k: nat)
    requires j <= k <= |ops|
    ensures RunsBefore(ops, j) <= RunsBefore(ops, k)
  {
    if j < k {
      RunsBeforeMonotone(ops, j, k - 1);
    }
  }

  /** The number of the run that change `k` belongs to. */
  function RunIndex<Line>(ops: seq<Op<Line>>, k: nat): nat
    requires k < |ops| && !ops[k].Eq?
  {
    if StartsRun(ops, k) then RunsBefore(ops, k) else RunIndex(ops, k - 1)
  }

  lemma {:induction false} WithinRun<Line>(ops: seq<Op<Line>>, start: nat, k: nat)
    requires start <= k < |ops| && StartsRun(ops, start)
    requires forall j :: start <= j <= k ==> !ops[j].Eq?
    ensures RunIndex(ops, k) == RunsBefore(ops, start)
    ensures RunsBefore(ops, k + 1) == RunsBefore(ops, start) + 1
  {
    if k > start {
      WithinRun(ops, start, k - 1);
    }
  }

  // ---- What is to be displayed ----

  /** How many lines of the old file the first `k` operations consume. */
  function OldNo<Line>(ops: seq<Op<Line>>, k: nat): nat
    requires k <= |ops|
  {
    |OldRange(ops, 0, k)|
  }

  /** How many lines of the new file the first `k` operations produce. */
  function NewNo<Line>(ops: seq<Op<Line>>, k: nat): nat
    requires k <= |ops|
  {
    |NewRange(ops, 0, k)|
  }

  lemma NextNo<Line>(ops: seq<Op<Line>>, k: nat)
    requires k < |ops|
    ensures OldNo(ops, k + 1) == OldNo(ops, k) + (if ops[k].Ins? then 0 else 1)
    ensures NewNo(ops, k + 1) == NewNo(ops, k) + (if ops[k].Del? then 0 else 1)
  {
    OldRangeNext(ops, 0, k);
    NewRangeNext(ops, 0, k);
  }

  /** The display of operation `k`: its number in each file it belongs to, and its hunk. */
  function LineAt<Line>(ops: seq<Op<Line>>, k: nat): UnifiedLine<Line>
    requires k < |ops|
  {
    UnifiedLine(
      match ops[k] case Eq(_) => Context case Del(_) => Deletion case Ins(_) => Addition,
      ops[k].text,
      if ops[k].Ins? then None else Some(OldNo(ops, k) + 1),
      if ops[k].Del? then None else Some(NewNo(ops, k) + 1),
      if ops[k].Eq? then None else Some(HunkId(RunIndex(ops, k))))
  }

  /** The display of operations `lo` to `hi`. */
  function LinesFrom<Line>(ops: seq<Op<Line>>, lo: nat, hi: nat): (lines: seq<UnifiedLine<Line>>)
    requires lo <= hi <= |ops|
    ensures |lines| == hi - lo
  {
    if lo == hi then [] else LinesFrom(ops, lo, hi - 1) + [LineAt(ops, hi - 1)]
  }

  function LinesOf<Line>(ops: seq<Op<Line>>): seq<UnifiedLine<Line>> {
    LinesFrom(ops, 0, |ops|)
  }

  lemma {:induction false} LinesJoin<Line>(ops: seq<Op<Line>>, lo: nat, mid: nat, hi: nat)
    requires lo <= mid <= hi <= |ops|
    ensures LinesFrom(ops, lo, hi) == LinesFrom(ops, lo, mid) + LinesFrom(ops, mid, hi)
  {
    if mid == hi {
      ConcatEmpty(LinesFrom(ops, lo, mid));
    } else {
      LinesJoin(ops, lo, mid, hi - 1);
      ConcatAssociates(LinesFrom(ops, lo, mid), LinesFrom(ops, mid, hi - 1), [LineAt(ops, hi - 1)]);
    }
  }

  /** Line `k` of the view displays operation `k`. */
  lemma {:induction false} LineIsDisplay<Line>(ops: seq<Op<Line>>, hi: nat, k: nat)
    requires k < hi <= |ops|
    ensures LinesFrom(ops, 0, hi)[k] == LineAt(ops, k)
  {
    if k < hi - 1 {
      LineIsDisplay(ops, hi - 1, k);
    }
  }

  /** The hunk of the run that starts at operation `k`. */
  function HunkAt<Line>(ops: seq<Op<Line>>, k: nat): Hunk<Line>
    requires k < |ops|
  {
    var end := RunEnd(ops, k);
    Hunk(HunkId(RunsBefore(ops, k)), OldNo(ops, k), |OldRange(ops, k, end)|, NewRange(ops, k, end), k)
  }

  function HunksFrom<Line>(ops: seq<Op<Line>>, k: nat): seq<Hunk<Line>>
    requires k <= |ops|
    decreases |ops| - k
  {
    if k == |ops| then []
    else if ops[k].Eq? then HunksFrom(ops, k + 1)
    else [HunkAt(ops, k)] + HunksFrom(ops, RunEnd(ops, k))
  }

  function HunksOf<Line>(ops: seq<Op<Line>>): seq<Hunk<Line>> {
    HunksFrom(ops, 0)
  }

  // ---- The loops of the source ----

  /** How one change of a run is displayed, and what it adds to the counters and to the hunk. */
  lemma RunLine<Line>(ops: seq<Op<Line>>, start: nat, k: nat, oldNo: nat, newNo: nat, id: string)
    requires start <= k < |ops| && StartsRun(ops, start) && forall j :: start <= j <= k ==> !ops[j].Eq?
    requires oldNo == OldNo(ops, k) && newNo == NewNo(ops, k) && id == HunkId(RunsBefore(ops, start))
    ensures LineAt(ops, k)
            == if ops[k].Del? then UnifiedLine(Deletion, ops[k].text, Some(oldNo + 1), None, Some(id))
               else UnifiedLine(Addition, ops[k].text, None, Some(newNo + 1), Some(id))
    ensures OldNo(ops, k + 1) == if ops[k].Del? then oldNo + 1 else oldNo
    ensures NewNo(ops, k + 1) == if ops[k].Del? then newNo else newNo + 1
    ensures NewRange(ops, start, k + 1)
            == if ops[k].Del? then NewRange(ops, start, k) else NewRange(ops, start, k) + [ops[k].text]
  {
    NextNo(ops, k);
    NewRangeNext(ops, start, k);
    WithinRun(ops, start, k);
  }

  /** Coalesces the run of changes that starts at the cursor into one hunk. */
  method CoalesceRun<Line(==)>(ops: seq<Op<Line>>, start: nat, oldStart: nat, newStart: nat, id: string)
    returns (k: nat, lines: seq<UnifiedLine<Line>>, oldCount: nat, replacement: seq<Line>)
    requires start < |ops| && StartsRun(ops, start)
    requires oldStart == OldNo(ops, start) && newStart == NewNo(ops, start) && id == HunkId(RunsBefore(ops, start))
    ensures k == RunEnd(ops, start)
    ensures lines == LinesFrom(ops, start, k)
    ensures oldCount == |OldRange(ops, start, k)| && replacement == NewRange(ops, start, k)
    ensures oldStart + oldCount == OldNo(ops, k) && newStart + |replacement| == NewNo(ops, k)
  {
    k := start;
    lines, replacement, oldCount := [], [], 0;
    var oldNo, newNo := oldStart, newStart;
    while k < |ops| && !ops[k].Eq?
      invariant start <= k <= RunEnd(ops, start)
      invariant oldNo == OldNo(ops, k) == oldStart + oldCount
      invariant newNo == NewNo(ops, k) == newStart + |replacement|
      invariant replacement == NewRange(ops, start, k)
      invariant lines == LinesFrom(ops, start, k)
    {
      RunLine(ops, start, k, oldNo, newNo, id);
      var cur := ops[k];
      if cur.Del? {
        lines := lines + [UnifiedLine(Deletion, cur.text, Some(oldNo + 1), None, Some(id))];
        oldNo, oldCount := oldNo + 1, oldCount + 1;
      } else {
        lines := lines + [UnifiedLine(Addition, cur.text, None, Some(newNo + 1), Some(id))];
        newNo := newNo + 1;
        replacement := replacement + [cur.text];
      }
      k := k + 1;
    }
    OldRangeSplit(ops, 0, start, k);
  }

  /** The display loop of `computeDiff`. */
  method Display<Line(==)>(ops: seq<Op<Line>>) returns (lines: seq<UnifiedLine<Line>>, hunks: seq<Hunk<Line>>)
    ensures lines == LinesOf(ops)
    ensures hunks == HunksOf(ops)
  {
    lines, hunks := [], [];
    var oldNo: nat, newNo: nat, k: nat := 0, 0, 0;
    ConcatEmpty(HunksOf(ops));
    while k < |ops|
      invariant 0 <= k <= |ops| && Between(ops, k)
      invariant oldNo == OldNo(ops, k) && newNo == NewNo(ops, k)
      invariant lines == LinesFrom(ops, 0, k)
      invariant |hunks| == RunsBefore(ops, k)
      invariant hunks + HunksFrom(ops, k) == HunksOf(ops)
    {
      var op := ops[k];
      if op.Eq? {
        NextNo(ops, k);
        lines := lines + [UnifiedLine(Context, op.text, Some(oldNo + 1), Some(newNo + 1), None)];
        oldNo, newNo, k := oldNo + 1, newNo + 1, k + 1;
      } else {
        var hunkId := HunkId(|hunks|);
        var firstLineIndex := |lines|;
        var end, runLines, oldCount, replacement := CoalesceRun(ops, k, oldNo, newNo, hunkId);
        WithinRun(ops, k, end - 1);
        LinesJoin(ops, 0, k, end);
        lines := lines + runLines;
        hunks := Push(hunks, Hunk(hunkId, oldNo, oldCount, replacement, firstLineIndex), HunksFrom(ops, end));
        oldNo, newNo, k := oldNo + oldCount, newNo + |replacement|, end;
      }
    }
    ConcatEmpty(hunks);
  }

  datatype DiffResult = DiffResult(lines: seq<UnifiedLine<string>>, hunks: seq<Hunk<string>>)

  function OpsOf(oldContent: string, newContent: string): seq<Op<string>> {
    Script(SplitLines(oldContent), SplitLines(newContent))
  }

  function DiffOf(oldContent: string, newContent: string): DiffResult {
    var ops := OpsOf(oldContent, newContent);
    DiffResult(LinesOf(ops), HunksOf(ops))
  }

  method ComputeDiff(oldContent: string, newContent: string) returns (r: DiffResult)
    ensures r == DiffOf(oldContent, newContent)
  {
    var oldLines := SplitLines(oldContent);
    var newLines := SplitLines(newContent);
    var ops := ComputeScript(oldLines, newLines);
    var lines, hunks := Display(ops);
    r := DiffResult(lines, hunks);
  }

  // ---- What the unified lines show ----

  datatype Side = OldFile | NewFile

  function NumberIn<Line>(l: UnifiedLine<Line>, side: Side): Option<nat> {
    if side == OldFile then l.oldLine else l.newLine
  }

  /** The displayed lines of one file with their numbers there: the context and deleted
      lines for the old file, the context and added ones for the new. */
  function Numbered<Line>(lines: seq<UnifiedLine<Line>>, side: Side): seq<(nat, Line)> {
    if lines == [] then []
    else
      var last, before := lines[|lines| - 1], Numbered(lines[..|lines| - 1], side);
      var no := NumberIn(last, side);
      if no.Some? then before + [(no.value, last.text)] else before
  }

  lemma NumberedNext<Line>(lines: seq<UnifiedLine<Line>>, l: UnifiedLine<Line>, side: Side)
    ensures Numbered(lines + [l], side)
            == if NumberIn(l, side).Some? then Numbered(lines, side) + [(NumberIn(l, side).value, l.text)]
               else Numbered(lines, side)
  {
    assert (lines + [l])[..|lines|] == lines;
  }

  /** `ls` as lines 1, 2, ... of a file. */
  function FromOne<Line>(ls: seq<Line>): seq<(nat, Line)> {
    seq(|ls|, i requires 0 <= i < |ls| => (i + 1, ls[i]))
  }

  lemma FromOneNext<Line>(ls: seq<Line>, l: Line)
    ensures FromOne(ls + [l]) == FromOne(ls) + [(|ls| + 1, l)]
  {
  }

  lemma {:induction false} OldLinesProject<Line>(ops: seq<Op<Line>>, k: nat)
    requires k <= |ops|
    ensures Numbered(LinesFrom(ops, 0, k), OldFile) == FromOne(OldRange(ops, 0, k))
  {
    if k > 0 {
      OldLinesProject(ops, k - 1);
      OldRangeNext(ops, 0, k - 1);
      NumberedNext(LinesFrom(ops, 0, k - 1), LineAt(ops, k - 1), OldFile);
      FromOneNext(OldRange(ops, 0, k - 1), ops[k - 1].text);
    }
  }

  lemma {:induction false} NewLinesProject<Line>(ops: seq<Op<Line>>, k: nat)
    requires k <= |ops|
    ensures Numbered(LinesFrom(ops, 0, k), NewFile) == FromOne(NewRange(ops, 0, k))
  {
    if k > 0 {
      NewLinesProject(ops, k - 1);
      NewRangeNext(ops, 0, k - 1);
      NumberedNext(LinesFrom(ops, 0, k - 1), LineAt(ops, k - 1), NewFile);
      FromOneNext(NewRange(ops, 0, k - 1), ops[k - 1].text);
    }
  }

  /** The view shows the old file as lines 1..n and the new file as lines 1..m, in order. */
  lemma DiffShowsBothFiles(oldContent: string, newContent: string)
    ensures var lines := DiffOf(oldContent, newContent).lines;
            && Numbered(lines, OldFile) == FromOne(SplitLines(oldContent))
            && Numbered(lines, NewFile) == FromOne(SplitLines(newContent))
  {
    var ops := OpsOf(oldContent, newContent);
    ScriptTransforms(SplitLines(oldContent), SplitLines(newContent));
    OldLinesProject(ops, |ops|);
    NewLinesProject(ops, |ops|);
    SidesAreRanges(ops);
  }

  // ---- What the hunks are ----

  lemma {:induction false} RunSize<Line>(ops: seq<Op<Line>>, lo: nat, hi: nat)
    requires lo <= hi <= |ops| && forall k :: lo <= k < hi ==> !ops[k].Eq?
    ensures |OldRange(ops, lo, hi)| + |NewRange(ops, lo, hi)| == hi - lo
    decreases hi - lo
  {
    if lo < hi {
      RunSize(ops, lo + 1, hi);
    }
  }

  /** Operations `first` to `end` are a non-empty maximal run of changes. */
  ghost predicate MaximalRun<Line>(ops: seq<Op<Line>>, first: nat, end: nat) {
    && first < end <= |ops|
    && (forall k :: first <= k < end ==> !ops[k].Eq?)
    && (first > 0 ==> ops[first - 1].Eq?)
    && (end < |ops| ==> ops[end].Eq?)
  }

  /** A hunk's displayed range is a maximal run of changes; the hunk replaces the old lines
      of that run, found at `oldStart`, by its new lines. */
  ghost predicate CoversRun<Line>(ops: seq<Op<Line>>, h: Hunk<Line>) {
    var first, end := h.firstLineIndex, h.firstLineIndex + Size(h);
    && MaximalRun(ops, first, end)
    && h.oldStart == OldNo(ops, first)
    && h.oldCount == |OldRange(ops, first, end)|
    && h.newLines == NewRange(ops, first, end)
    && h.id == HunkId(RunsBefore(ops, first))
  }

  lemma HunkAtCoversRun<Line>(ops: seq<Op<Line>>, k: nat)
    requires k < |ops| && StartsRun(ops, k)
    ensures CoversRun(ops, HunkAt(ops, k))
    ensures k + Size(HunkAt(ops, k)) == RunEnd(ops, k) > k
  {
    RunSize(ops, k, RunEnd(ops, k));
  }

  /** Some old line lies between any two hunks. */
  ghost predicate Separated<Line>(hs: seq<Hunk<Line>>) {
    forall i, j :: 0 <= i < j < |hs| ==> hs[i].oldStart + hs[i].oldCount < hs[j].oldStart
  }

  lemma {:induction false} HunksCoverRuns<Line>(ops: seq<Op<Line>>, k: nat, h: Hunk<Line>)
    requires k <= |ops| && Between(ops, k) && h in HunksFrom(ops, k)
    ensures CoversRun(ops, h) && k <= h.firstLineIndex < |ops|
    decreases |ops| - k
  {
    if ops[k].Eq? {
      HunksCoverRuns(ops, k + 1, h);
    } else if h == HunkAt(ops, k) {
      HunkAtCoversRun(ops, k);
    } else {
      assert h in HunksFrom(ops, RunEnd(ops, k));
      HunksCoverRuns(ops, RunEnd(ops, k), h);
    }
  }

  lemma {:induction false} HunksAreNumbered<Line>(ops: seq<Op<Line>>, k: nat, i: nat)
    requires k <= |ops| && Between(ops, k) && i < |HunksFrom(ops, k)|
    ensures HunksFrom(ops, k)[i].id == HunkId(RunsBefore(ops, k) + i)
    decreases |ops| - k
  {
    if ops[k].Eq? {
      HunksAreNumbered(ops, k + 1, i);
    } else if i > 0 {
      var end := RunEnd(ops, k);
      HunksAreNumbered(ops, end, i - 1);
      WithinRun(ops, k, end - 1);
    }
  }

  /** A hunk after the run that ends at `end` starts after at least one more old line. */
  lemma LaterHunkStartsLater<Line>(ops: seq<Op<Line>>, end: nat, h: Hunk<Line>)
    requires end < |ops| && ops[end].Eq? && h in HunksFrom(ops, end)
    ensures OldNo(ops, end) < h.oldStart
  {
    HunksCoverRuns(ops, end, h);
    NextNo(ops, end);
    OldRangeSplit(ops, 0, end + 1, h.firstLineIndex);
  }

  lemma {:induction false} HunksAreSeparated<Line>(ops: seq<Op<Line>>, k: nat)
    requires k <= |ops| && Between(ops, k)
    ensures Separated(HunksFrom(ops, k))
    decreases |ops| - k
  {
    if k == |ops| {
    } else if ops[k].Eq? {
      HunksAreSeparated(ops, k + 1);
    } else {
      var end := RunEnd(ops, k);
      HunksAreSeparated(ops, end);
      OldRangeSplit(ops, 0, k, end);
      var hs, rest := HunksFrom(ops, k), HunksFrom(ops, end);
      forall j | 1 <= j < |hs| ensures OldNo(ops, end) < hs[j].oldStart {
        assert hs[j] == rest[j - 1] && rest[j - 1] in rest;
        LaterHunkStartsLater(ops, end, rest[j - 1]);
      }
      assert hs == [HunkAt(ops, k)] + rest;
    }
  }

  /** Every change is displayed inside a hunk, the one its line names. */
  lemma {:induction false} ChangeIsCovered<Line>(ops: seq<Op<Line>>, k: nat, c: nat)
    requires k <= c < |ops| && Between(ops, k) && !ops[c].Eq?
    ensures exists h :: h in HunksFrom(ops, k) && LineAt(ops, c).hunkId == Some(h.id) &&
                        h.firstLineIndex <= c < h.firstLineIndex + Size(h)
    decreases |ops| - k
  {
    if ops[k].Eq? {
      ChangeIsCovered(ops, k + 1, c);
    } else {
      var end := RunEnd(ops, k);
      HunkAtCoversRun(ops, k);
      var hs, rest := HunksFrom(ops, k), HunksFrom(ops, end);
      assert hs[0] == HunkAt(ops, k) && hs[0] in hs;
      if c < end {
        WithinRun(ops, k, c);
      } else {
        ChangeIsCovered(ops, end, c);
        assert forall h :: h in rest ==> h in hs;
      }
    }
  }

  lemma HunksInOrder(oldContent: string, newContent: string)
    ensures var ops, d := OpsOf(oldContent, newContent), DiffOf(oldContent, newContent);
            forall i :: 0 <= i < |d.hunks| ==> d.hunks[i].id == HunkId(i) && CoversRun(ops, d.hunks[i])
  {
    var ops, hunks := OpsOf(oldContent, newContent), DiffOf(oldContent, newContent).hunks;
    forall i | 0 <= i < |hunks| ensures hunks[i].id == HunkId(i) && CoversRun(ops, hunks[i]) {
      HunksAreNumbered(ops, 0, i);
      HunksCoverRuns(ops, 0, hunks[i]);
    }
  }

  /** A changed line is displayed inside the hunk it names. */
  ghost predicate ShownInItsHunk(d: DiffResult, k: nat)
    requires k < |d.lines|
  {
    exists h :: h in d.hunks && d.lines[k].hunkId == Some(h.id) &&
                h.firstLineIndex <= k < h.firstLineIndex + Size(h)
  }

  lemma ChangeIsShown(oldContent: string, newContent: string, k: nat)
    requires k < |DiffOf(oldContent, newContent).lines| && DiffOf(oldContent, newContent).lines[k].kind != Context
    ensures ShownInItsHunk(DiffOf(oldContent, newContent), k)
  {
    var ops := OpsOf(oldContent, newContent);
    LineIsDisplay(ops, |ops|, k);
    ChangeIsCovered(ops, 0, k);
  }

  /** Hunks are non-empty, maximal, numbered in order and strictly separated; every changed
      line is displayed inside the hunk it names. */
  lemma HunksPartitionTheChanges(oldContent: string, newContent: string)
    ensures var ops, d := OpsOf(oldContent, newContent), DiffOf(oldContent, newContent);
            && (forall i :: 0 <= i < |d.hunks| ==> d.hunks[i].id == HunkId(i) && CoversRun(ops, d.hunks[i]))
            && Separated(d.hunks)
            && (forall k :: 0 <= k < |d.lines| && d.lines[k].kind != Context ==> ShownInItsHunk(d, k))
  {
    var ops, d := OpsOf(oldContent, newContent), DiffOf(oldContent, newContent);
    HunksInOrder(oldContent, newContent);
    HunksAreSeparated(ops, 0);
    forall k | 0 <= k < |d.lines| && d.lines[k].kind != Context ensures ShownInItsHunk(d, k) {
      ChangeIsShown(oldContent, newContent, k);
    }
  }
}
