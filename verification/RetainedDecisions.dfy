/** Applying again and again: the store keeps the decisions of a file while the hunks of its next diff
    are numbered anew. */
module RetainedDecisions {
  import opened Common
  import opened EditScript
  import opened Hunks
  import opened Lines
  import opened PartialApply
  import opened Reconstruct

  function Iterate<T>(step: T -> T, x: T, n: nat): T
    decreases n
  {
    if n == 0 then x else Iterate(step, step(x), n - 1)
  }

  /** One apply towards a proposal. */
  function Step(newContent: string, d: Decisions): string -> string {
    c => Applied(c, newContent, d)
  }

  /** The content after `n` applies under the same decisions. */
  function Reapplied(oldContent: string, newContent: string, d: Decisions, n: nat): string {
    Iterate(Step(newContent, d), oldContent, n)
  }

  lemma ReappliedNext(oldContent: string, newContent: string, d: Decisions, n: nat)
    ensures Reapplied(oldContent, newContent, d, n + 1)
            == Reapplied(Applied(oldContent, newContent, d), newContent, d, n)
  {
    assert Step(newContent, d)(oldContent) == Applied(oldContent, newContent, d);
  }

  // ---- Which hunks count as accepted ----

  /** While the lines differ there is a first hunk. */
  lemma DifferenceIsShown(current: string, newContent: string)
    requires SplitLines(current) != SplitLines(newContent)
    ensures DiffOf(current, newContent).hunks != []
  {
    var ops := OpsOf(current, newContent);
    OpsTransform(current, newContent);
    if forall k :: 0 <= k < |ops| ==> ops[k].Eq? {
      AllEqCostsNothing(ops);
      FreeScriptKeepsAll(ops);
    } else {
      var k :| 0 <= k < |ops| && !ops[k].Eq?;
      ChangeIsCovered(ops, 0, k);
    }
  }

  lemma AcceptedByNumber<Line>(hunks: seq<Hunk<Line>>, d: Decisions)
    requires forall i :: 0 <= i < |hunks| ==> hunks[i].id == HunkId(i)
    ensures (exists h :: h in hunks && IsAccepted(d, h.id))
            <==> exists i :: 0 <= i < |hunks| && IsAccepted(d, HunkId(i))
  {
    forall i | 0 <= i < |hunks| && IsAccepted(d, HunkId(i)) ensures exists h :: h in hunks && IsAccepted(d, h.id) {
      assert hunks[i] in hunks;
    }
  }

  /** Decisions outlive an apply while hunk ids are positional: a hunk of the next diff counts as
      accepted exactly when a hunk of its number was ever accepted, whoever decided on what. While the
      lines differ there is a first hunk, so once h0 was accepted some hunk always is. */
  lemma StaleDecisionAcceptsNextHunk(current: string, newContent: string, d: Decisions)
    ensures var hunks := DiffOf(current, newContent).hunks;
            && ((exists h :: h in hunks && IsAccepted(d, h.id))
                <==> exists i :: 0 <= i < |hunks| && IsAccepted(d, HunkId(i)))
            && (SplitLines(current) != SplitLines(newContent) ==> hunks != [] && hunks[0].id == HunkId(0))
  {
    HunksInOrder(current, newContent);
    AcceptedByNumber(DiffOf(current, newContent).hunks, d);
    if SplitLines(current) != SplitLines(newContent) {
      DifferenceIsShown(current, newContent);
    }
  }

  // ---- One apply with the first hunk accepted ----

  /** Nothing can be lost at the end of the file: what is written ends in a newline, or not in an empty line. */
  predicate Safe(oldContent: string, newContent: string) {
    EndsWithNewline(oldContent) || Last(SplitLines(newContent)) != Some("")
  }

  /** Rejoined lines end in a newline if one is added, or if the last of several is empty. */
  lemma UnlinesEnd(ls: seq<string>, trailing: bool)
    requires NoNewlines(ls) && ls != []
    ensures EndsWithNewline(Unlines(ls, trailing)) <==> trailing || (ls[|ls| - 1] == "" && |ls| > 1)
  {
    var joined := Join(ls);
    if !trailing {
      SplitJoin(ls);
      SplitPieces(joined);
      assert joined == "" <==> ls == [""] by {
        if joined == "" {
          assert Split("") == [""];
        }
      }
      ConcatEmpty(joined);
    }
  }

  lemma {:induction false} EmptyReplayKeepsNothing<Line>(ops: seq<Op<Line>>, flags: seq<bool>, lo: nat)
    requires lo <= |ops| == |flags| && Replay(ops, flags, lo, |ops|) == []
    ensures forall k :: lo <= k < |ops| ==> !ops[k].Eq?
    decreases |ops| - lo
  {
    if lo < |ops| {
      EmptyReplayKeepsNothing(ops, flags, lo + 1);
    }
  }

  /** With the first hunk accepted an apply only leaves no lines when nothing is proposed. */
  lemma NothingLeftMeansNothingProposed(oldContent: string, newContent: string, d: Decisions)
    requires IsAccepted(d, HunkId(0)) && Resolved(OpsOf(oldContent, newContent), d) == []
    ensures newContent == ""
  {
    var ops := OpsOf(oldContent, newContent);
    OpsTransform(oldContent, newContent);
    EmptyReplayKeepsNothing(ops, Flags(ops, d), 0);
    ChangesOnlyIsOneHunk(ops, d);
    UnlinesSplitLines(newContent);
  }

  lemma ResolvedHasNoNewlines(oldContent: string, newContent: string, d: Decisions)
    ensures NoNewlines(Resolved(OpsOf(oldContent, newContent), d))
  {
    var ops := OpsOf(oldContent, newContent);
    OpsTransform(oldContent, newContent);
    UnlinesSplitLines(oldContent);
    UnlinesSplitLines(newContent);
    forall l | l in Resolved(ops, d) ensures '\n' !in l {
      ReplayLines(ops, Flags(ops, d), 0, l);
      assert ops[0..] == ops;
    }
  }

  /** The first hunk, once accepted, takes the content closer, unless an empty last line is lost. */
  lemma ApplyGetsCloser(oldContent: string, newContent: string, d: Decisions)
    requires IsAccepted(d, HunkId(0)) && SplitLines(oldContent) != SplitLines(newContent)
    requires KeepsLastLine(oldContent, newContent, d)
    ensures LineDistance(Applied(oldContent, newContent, d), newContent) < LineDistance(oldContent, newContent)
  {
    DistanceZero(SplitLines(oldContent), SplitLines(newContent));
    if WithinGuard(oldContent, newContent) {
      var hunks := DiffOf(oldContent, newContent).hunks;
      LostLineIff(oldContent, newContent, d);
      AppliedDistance(oldContent, newContent, d);
      StaleDecisionAcceptsNextHunk(oldContent, newContent, d);
      HunksHaveLines(OpsOf(oldContent, newContent));
      FreeMeansNoneAccepted(hunks, d);
      assert hunks[0] in hunks;
    } else {
      ReplaceAllIsOneHunk(oldContent, newContent, d);
      AppliedLines(oldContent, newContent, d);
      DistanceZero(SplitLines(newContent), SplitLines(newContent));
    }
  }

  /** What is safe keeps its last line and its kind of ending, until nothing is left. */
  lemma SafeStaysSafe(oldContent: string, newContent: string, d: Decisions)
    requires IsAccepted(d, HunkId(0)) && Safe(oldContent, newContent)
    ensures KeepsLastLine(oldContent, newContent, d) && Safe(Applied(oldContent, newContent, d), newContent)
    ensures newContent != "" ==> EndsWithNewline(Applied(oldContent, newContent, d)) == EndsWithNewline(oldContent)
  {
    LostLineIff(oldContent, newContent, d);
    var ls := Resolved(OpsOf(oldContent, newContent), d);
    UnlinesSplitLines(newContent);
    if ls == [] {
      NothingLeftMeansNothingProposed(oldContent, newContent, d);
    } else {
      ResolvedHasNoNewlines(oldContent, newContent, d);
      UnlinesEnd(ls, EndsWithNewline(oldContent));
    }
  }

  /** Where the lines agree already, an apply changes nothing. */
  lemma SameLinesStay(oldContent: string, newContent: string, d: Decisions)
    requires SplitLines(oldContent) == SplitLines(newContent)
    ensures Applied(oldContent, newContent, d) == oldContent
  {
    ApplyActsIffAccepted(oldContent, newContent, d);
    UnlinesSplitLines(oldContent);
  }

  // ---- When the last line is lost ----

  /** How many of the first `k` operations keep a line. */
  function KeptBefore<Line>(ops: seq<Op<Line>>, k: nat): nat
    requires k <= |ops|
  {
    if k == 0 then 0 else KeptBefore(ops, k - 1) + (if ops[k - 1].Eq? then 1 else 0)
  }

  /** Two runs are separated by a line that stays. */
  lemma {:induction false} RunsAreSeparated<Line>(ops: seq<Op<Line>>, k: nat)
    requires k <= |ops|
    ensures RunsBefore(ops, k) <= KeptBefore(ops, k) + (if k > 0 && !ops[k - 1].Eq? then 1 else 0)
    ensures KeptBefore(ops, k) <= |NewRange(ops, 0, k)|
  {
    if k > 0 {
      RunsAreSeparated(ops, k - 1);
      NewRangeNext(ops, 0, k - 1);
    }
  }

  lemma FirstAndLastAreAll<Line>(hunks: seq<Hunk<Line>>, d: Decisions)
    requires 1 <= |hunks| <= 2 && IsAccepted(d, hunks[0].id) && IsAccepted(d, hunks[|hunks| - 1].id)
    ensures forall h :: h in hunks ==> IsAccepted(d, h.id)
  {
  }

  /** A proposal of one line has at most two hunks: accepting the first and the last accepts all. */
  lemma OneLineAcceptsAll(oldContent: string, newContent: string, d: Decisions)
    requires |SplitLines(newContent)| == 1 && IsAccepted(d, HunkId(0))
    requires var last := Last(DiffOf(oldContent, newContent).hunks); last.Some? && IsAccepted(d, last.value.id)
    ensures Resolved(OpsOf(oldContent, newContent), d) == SplitLines(newContent)
  {
    var ops, hunks := OpsOf(oldContent, newContent), DiffOf(oldContent, newContent).hunks;
    OpsTransform(oldContent, newContent);
    SidesAreRanges(ops);
    RunsAreSeparated(ops, |ops|);
    HunkCount(ops, 0);
    HunksInOrder(oldContent, newContent);
    FirstAndLastAreAll(hunks, d);
    AcceptAllGivesProposal(oldContent, newContent, d);
  }

  lemma OneLineLosesAll(oldContent: string, newContent: string, d: Decisions)
    requires IsAccepted(d, HunkId(0)) && LosesLastLine(oldContent, newContent, d)
    ensures |SplitLines(newContent)| == 1 ==> Resolved(OpsOf(oldContent, newContent), d) == SplitLines(newContent)
  {
    if |SplitLines(newContent)| == 1 {
      OneLineAcceptsAll(oldContent, newContent, d);
    }
  }

  /** What is written when the empty last line is lost: nothing at all, or lines that now end in a newline,
      which nothing will be lost of any more. */
  lemma AfterTheLoss(oldContent: string, newContent: string, d: Decisions)
    requires IsAccepted(d, HunkId(0)) && LosesLastLine(oldContent, newContent, d)
    ensures var next := Applied(oldContent, newContent, d);
            && (next == "" || (EndsWithNewline(next) && |SplitLines(newContent)| > 1))
            && LineDistance(next, newContent) <= LineDistance(oldContent, newContent)
  {
    LostLineIff(oldContent, newContent, d);
    OneLineLosesAll(oldContent, newContent, d);
    ResolvedHasNoNewlines(oldContent, newContent, d);
    ApplyNeverMovesAway(oldContent, newContent, d);
    var ls := Resolved(OpsOf(oldContent, newContent), d);
    UnlinesEnd(ls, false);
    if |ls| == 1 {
      ConcatEmpty(ls[0]);
    }
  }

  lemma DistanceFromNothing<Line>(b: seq<Line>)
    ensures Distance([], b) == |b|
  {
  }

  /** From an empty file all the proposed lines are resolved at once. */
  lemma NothingResolves(empty: string, newContent: string, d: Decisions)
    requires empty == "" && IsAccepted(d, HunkId(0))
    ensures Resolved(OpsOf(empty, newContent), d) == SplitLines(newContent)
    ensures LineDistance(empty, newContent) == |SplitLines(newContent)|
  {
    OpsTransform(empty, newContent);
    NothingOldNothingKept(OpsOf(empty, newContent));
    ChangesOnlyIsOneHunk(OpsOf(empty, newContent), d);
    DistanceFromNothing(SplitLines(newContent));
  }

  /** From an empty file everything but the empty last line is written at once. */
  lemma FromNothing(empty: string, newContent: string, d: Decisions)
    requires empty == "" && IsAccepted(d, HunkId(0)) && Last(SplitLines(newContent)) == Some("")
    ensures LineDistance(empty, newContent) == |SplitLines(newContent)|
    ensures var next := Applied(empty, newContent, d);
            if |SplitLines(newContent)| == 1 then next == ""
            else EndsWithNewline(next) && LineDistance(next, newContent) <= 1
  {
    var ls := SplitLines(newContent);
    NothingResolves(empty, newContent, d);
    UnlinesSplitLines(newContent);
    SplitLinesUnlines(ls, false);
    UnlinesEnd(ls, false);
    LastLineIsOneChange(ls);
    if |ls| == 1 {
      ConcatEmpty(ls[0]);
    }
  }

  /** An unsafe content stays so while no last line is lost. */
  lemma UnsafeStaysUnsafe(oldContent: string, newContent: string, d: Decisions)
    requires IsAccepted(d, HunkId(0)) && !Safe(oldContent, newContent) && KeepsLastLine(oldContent, newContent, d)
    ensures !Safe(Applied(oldContent, newContent, d), newContent)
  {
    var ls := Resolved(OpsOf(oldContent, newContent), d);
    if ls != [] {
      ResolvedHasNoNewlines(oldContent, newContent, d);
      UnlinesEnd(ls, false);
    }
  }

  lemma UnsafeDiffers(oldContent: string, newContent: string)
    requires !Safe(oldContent, newContent)
    ensures SplitLines(oldContent) != SplitLines(newContent)
  {
    UnlinesSplitLines(oldContent);
  }

  /** Before it is lost the lines get closer. */
  lemma UnsafeGetsCloser(oldContent: string, newContent: string, d: Decisions)
    requires IsAccepted(d, HunkId(0)) && !Safe(oldContent, newContent) && !LosesLastLine(oldContent, newContent, d)
    ensures LineDistance(Applied(oldContent, newContent, d), newContent) < LineDistance(oldContent, newContent)
    ensures !Safe(Applied(oldContent, newContent, d), newContent)
  {
    UnsafeDiffers(oldContent, newContent);
    LostLineIff(oldContent, newContent, d);
    ApplyGetsCloser(oldContent, newContent, d);
    UnsafeStaysUnsafe(oldContent, newContent, d);
  }

  // ---- Where it ends ----

  /** Whether the last content ends in a newline beyond its lines: as the first one did, or because the
      loss of an empty last line put one there. */
  predicate EndsTerminated(oldContent: string, newContent: string) {
    EndsWithNewline(oldContent)
    || (|SplitLines(newContent)| > 1 && Last(SplitLines(newContent)) == Some(""))
  }

  /** The proposed lines, as they end up. */
  function Target(oldContent: string, newContent: string): string {
    Unlines(SplitLines(newContent), EndsTerminated(oldContent, newContent))
  }

  /** A bound on the applies that are needed: one for every line that differs, and one for a lost line. */
  ghost function AppliesNeeded(oldContent: string, newContent: string): (n: nat)
    ensures n <= LineDistance(oldContent, newContent) + 1
    ensures Safe(oldContent, newContent) ==> n == LineDistance(oldContent, newContent)
  {
    if Safe(oldContent, newContent) then LineDistance(oldContent, newContent)
    else if oldContent != "" then LineDistance(oldContent, newContent) + 1
    else
      DistanceFromNothing(SplitLines(newContent));
      if |SplitLines(newContent)| == 1 then 0 else 2
  }

  ghost predicate Settled(content: string, newContent: string, next: string) {
    next == content == Target(content, newContent)
  }

  ghost predicate GetsCloser(content: string, newContent: string, next: string) {
    && Target(next, newContent) == Target(content, newContent)
    && AppliesNeeded(next, newContent) < AppliesNeeded(content, newContent)
  }

  lemma SameLinesAreSettled(content: string, newContent: string, d: Decisions)
    requires SplitLines(content) == SplitLines(newContent)
    ensures Settled(content, newContent, Applied(content, newContent, d))
  {
    SameLinesStay(content, newContent, d);
    UnlinesSplitLines(content);
  }

  lemma SafeStep(content: string, newContent: string, d: Decisions)
    requires IsAccepted(d, HunkId(0)) && Safe(content, newContent) && SplitLines(content) != SplitLines(newContent)
    ensures GetsCloser(content, newContent, Applied(content, newContent, d))
  {
    SafeStaysSafe(content, newContent, d);
    ApplyGetsCloser(content, newContent, d);
  }

  lemma UnsafeStep(content: string, newContent: string, d: Decisions)
    requires IsAccepted(d, HunkId(0)) && !Safe(content, newContent) && !LosesLastLine(content, newContent, d)
    requires content != ""
    ensures GetsCloser(content, newContent, Applied(content, newContent, d))
  {
    UnsafeGetsCloser(content, newContent, d);
  }

  lemma LossStep(content: string, newContent: string, d: Decisions)
    requires IsAccepted(d, HunkId(0)) && LosesLastLine(content, newContent, d) && content != ""
    ensures GetsCloser(content, newContent, Applied(content, newContent, d))
  {
    AfterTheLoss(content, newContent, d);
    DistanceFromNothing(SplitLines(newContent));
  }

  lemma StepFromNothing(content: string, newContent: string, d: Decisions)
    requires content == "" && IsAccepted(d, HunkId(0)) && !Safe(content, newContent)
    ensures var next := Applied(content, newContent, d);
            Settled(content, newContent, next) || GetsCloser(content, newContent, next)
  {
    FromNothing(content, newContent, d);
    if |SplitLines(newContent)| == 1 {
      ConcatEmpty(SplitLines(newContent)[0]);
    }
  }

  /** One apply with the first hunk accepted: it gets closer to the proposed lines, or all is done. */
  lemma ApplyStep(content: string, newContent: string, d: Decisions)
    requires IsAccepted(d, HunkId(0))
    ensures var next := Applied(content, newContent, d);
            Settled(content, newContent, next) || GetsCloser(content, newContent, next)
  {
    if SplitLines(content) == SplitLines(newContent) {
      SameLinesAreSettled(content, newContent, d);
    } else if Safe(content, newContent) {
      SafeStep(content, newContent, d);
    } else if content == "" {
      StepFromNothing(content, newContent, d);
    } else if LosesLastLine(content, newContent, d) {
      LossStep(content, newContent, d);
    } else {
      UnsafeStep(content, newContent, d);
    }
  }

  // ---- Many applies ----

  lemma {:induction false} FixedStays<T>(step: T -> T, x: T, n: nat)
    requires step(x) == x
    ensures Iterate(step, x, n) == x
    decreases n
  {
    if n > 0 {
      FixedStays(step, x, n - 1);
    }
  }

  ghost predicate Descends<T>(step: T -> T, target: T -> T, measure: T -> nat, x: T) {
    || step(x) == x == target(x)
    || (target(step(x)) == target(x) && measure(step(x)) < measure(x))
  }

  lemma {:induction false} Descent<T(!new)>(step: T -> T, target: T -> T, measure: T -> nat, x: T, n: nat)
    requires n >= measure(x) && forall y :: Descends(step, target, measure, y)
    ensures Iterate(step, x, n) == target(x)
    decreases n
  {
    assert Descends(step, target, measure, x);
    if step(x) == x == target(x) {
      FixedStays(step, x, n);
    } else {
      Descent(step, target, measure, step(x), n - 1);
    }
  }

  /** Once the first hunk of a file was accepted, applying again and again writes the whole proposal,
      whatever else was rejected: after more applies than lines differ, the content is exactly the proposed
      lines, and stays it. */
  lemma RetainedDecisionsApplyAll(oldContent: string, newContent: string, d: Decisions, n: nat)
    requires IsAccepted(d, HunkId(0)) && n > LineDistance(oldContent, newContent)
    ensures Reapplied(oldContent, newContent, d, n) == Target(oldContent, newContent)
  {
    var step, target := Step(newContent, d), (c: string) => Target(c, newContent);
    ghost var measure := (c: string) => AppliesNeeded(c, newContent);
    forall c ensures Descends(step, target, measure, c) {
      ApplyStep(c, newContent, d);
    }
    Descent(step, target, measure, oldContent, n);
  }

  lemma LinesOfNewline()
    ensures SplitLines("\n") == [""]
  {
    SplitLinesUnlines([""], true);
    assert Unlines([""], true) == "\n";
  }

  lemma OnlyNewlineIsOneEmptyLine(content: string)
    ensures SplitLines(content) == [""] <==> content == "\n"
  {
    LinesOfNewline();
    UnlinesSplitLines(content);
    assert Unlines([""], true) == "\n" && Unlines([""], false) == "";
  }

  lemma TargetHasTheLines(oldContent: string, newContent: string)
    ensures SplitLines(Target(oldContent, newContent)) == SplitLines(newContent)
            <==> !(newContent == "\n" && !EndsWithNewline(oldContent))
  {
    UnlinesSplitLines(newContent);
    SplitLinesUnlines(SplitLines(newContent), EndsTerminated(oldContent, newContent));
    OnlyNewlineIsOneEmptyLine(newContent);
  }

  lemma TargetIsProposal(oldContent: string, newContent: string)
    ensures Target(oldContent, newContent) == newContent
            <==> newContent == "" || EndsWithNewline(newContent) == EndsTerminated(oldContent, newContent)
  {
    var ls, end := SplitLines(newContent), EndsTerminated(oldContent, newContent);
    UnlinesSplitLines(newContent);
    if ls != [] {
      UnlinesEnd(ls, end);
      UnlinesEnd(ls, EndsWithNewline(newContent));
    }
  }

  /** The proposed lines are reached in every case but one: a proposal of one empty line for a file that
      does not end in a newline. The proposed text is reached exactly if the endings agree. */
  lemma RetainedDecisionsReach(oldContent: string, newContent: string, d: Decisions, n: nat)
    requires IsAccepted(d, HunkId(0)) && n > LineDistance(oldContent, newContent)
    ensures SplitLines(Reapplied(oldContent, newContent, d, n)) == SplitLines(newContent)
            <==> !(newContent == "\n" && !EndsWithNewline(oldContent))
    ensures Reapplied(oldContent, newContent, d, n) == newContent
            <==> newContent == "" || EndsWithNewline(newContent) == EndsTerminated(oldContent, newContent)
  {
    RetainedDecisionsApplyAll(oldContent, newContent, d, n);
    TargetHasTheLines(oldContent, newContent);
    TargetIsProposal(oldContent, newContent);
  }

  // ---- A rejected hunk that is written ----

  lemma OneLineLcs(x: string, s: string, y: string)
    ensures Lcs([s], [y]) <= 1 && Lcs([x, s], [y]) <= 1
  {
    assert [x, s][1..] == [s] && [s][1..] == [] && [y][1..] == [];
    assert Lcs([s], []) == 0 && Lcs([x, s], []) == 0 && Lcs([], [y]) == 0;
    assert Lcs([s], [y]) <= 1;
  }

  lemma TwoHunksScript(x: string, s: string, y: string)
    requires x != s && s != y
    ensures Script([x, s], [s, y]) == [Del(x), Eq(s), Ins(y)]
    ensures Script([s], [s, y]) == [Eq(s), Ins(y)]
  {
    assert [x, s][1..] == [s] && [s, y][1..] == [y] && [s][1..] == [] && [y][1..] == [];
    OneLineLcs(x, s, y);
    assert Lcs([s], [s, y]) == 1;
    assert Walk([], [y]) == [Ins(y)];
    assert Walk([s], [s, y]) == [Eq(s), Ins(y)];
  }

  /** A change that stands alone is the hunk of its own line. */
  lemma LoneHunk<Line>(ops: seq<Op<Line>>, k: nat)
    requires k < |ops| && StartsRun(ops, k) && (k + 1 < |ops| ==> ops[k + 1].Eq?)
    ensures HunksFrom(ops, k)
            == [Hunk(HunkId(RunsBefore(ops, k)), OldNo(ops, k), if ops[k].Del? then 1 else 0,
                     if ops[k].Ins? then [ops[k].text] else [], k)] + HunksFrom(ops, k + 1)
  {
    assert RunEnd(ops, k) == k + 1;
    var text := [ops[k].text];
    assert OldRange(ops, k + 1, k + 1) == [] && NewRange(ops, k + 1, k + 1) == [];
    assert OldRange(ops, k, k + 1) == if ops[k].Ins? then [] else text;
    assert NewRange(ops, k, k + 1) == if ops[k].Del? then [] else text;
  }

  lemma OneHunk(s: string, y: string)
    ensures HunksOf([Eq(s), Ins(y)]) == [Hunk(HunkId(0), 1, 0, [y], 1)]
  {
    var ops := [Eq(s), Ins(y)];
    LoneHunk(ops, 1);
    assert RunsBefore(ops, 0) == 0 && RunsBefore(ops, 1) == 0;
    assert OldRange(ops, 1, 1) == [] && OldRange(ops, 0, 1) == [s];
    assert HunksFrom(ops, 2) == [] && HunksFrom(ops, 0) == HunksFrom(ops, 1);
  }

  lemma TwoHunks(x: string, s: string, y: string)
    ensures HunksOf([Del(x), Eq(s), Ins(y)]) == [Hunk(HunkId(0), 0, 1, [], 0), Hunk(HunkId(1), 2, 0, [y], 2)]
  {
    var ops := [Del(x), Eq(s), Ins(y)];
    LoneHunk(ops, 0);
    LoneHunk(ops, 2);
    assert RunsBefore(ops, 0) == 0 && RunsBefore(ops, 1) == 1 && RunsBefore(ops, 2) == 1;
    assert OldRange(ops, 2, 2) == [] && OldRange(ops, 1, 2) == [s] && OldRange(ops, 0, 2) == [x, s];
    assert OldRange(ops, 0, 0) == [];
    assert HunksFrom(ops, 3) == [] && HunksFrom(ops, 1) == HunksFrom(ops, 2);
  }

  lemma TwoHunksReplay(x: string, s: string, y: string, d: Decisions)
    requires IsAccepted(d, HunkId(0)) && !IsAccepted(d, HunkId(1))
    ensures Resolved([Del(x), Eq(s), Ins(y)], d) == [s]
  {
    var ops := [Del(x), Eq(s), Ins(y)];
    var flags := Flags(ops, d);
    assert RunsBefore(ops, 0) == 0 && RunsBefore(ops, 1) == 1 && RunsBefore(ops, 2) == 1;
    assert RunIndex(ops, 0) == 0 && RunIndex(ops, 2) == 1;
    assert flags[0] && !flags[2];
    assert Replay(ops, flags, 3, 3) == [] && Replay(ops, flags, 2, 3) == [] && Replay(ops, flags, 1, 3) == [s];
  }

  /** A file of two lines whose first is to be deleted (h0, accepted) and that is to get a third (h1,
      rejected). The apply deletes the first line and leaves the rejected hunk, which now is h0 and counts
      as accepted: the next apply writes it. */
  lemma RejectedHunkIsWritten(x: string, s: string, y: string, d: Decisions)
    requires NoNewlines([x, s, y]) && x != s && s != y
    requires IsAccepted(d, HunkId(0)) && HunkId(1) in d && d[HunkId(1)] == Rejected
    ensures var current, proposal := Unlines([x, s], true), Unlines([s, y], true);
            var next := Applied(current, proposal, d);
            && DiffOf(current, proposal).hunks == [Hunk(HunkId(0), 0, 1, [], 0), Hunk(HunkId(1), 2, 0, [y], 2)]
            && next == Unlines([s], true)
            && DiffOf(next, proposal).hunks == [Hunk(HunkId(0), 1, 0, [y], 1)]
            && Applied(next, proposal, d) == proposal
  {
    var current, proposal := Unlines([x, s], true), Unlines([s, y], true);
    assert x in [x, s, y] && s in [x, s, y] && y in [x, s, y];
    SplitLinesUnlines([x, s], true);
    SplitLinesUnlines([s, y], true);
    SplitLinesUnlines([s], true);
    UnlinesEnd([x, s], true);
    UnlinesEnd([s, y], true);
    UnlinesEnd([s], true);
    TwoHunksScript(x, s, y);
    TwoHunks(x, s, y);
    TwoHunksReplay(x, s, y, d);
    OneHunk(s, y);
    var next := Unlines([s], true);
    assert Applied(current, proposal, d) == next;
    AcceptAllGivesProposal(next, proposal, d);
  }
}
