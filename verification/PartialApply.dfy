/** What applying some of the hunks does to the distance that is left to the proposal. */
module PartialApply {
  import opened Common
  import opened EditScript
  import opened Hunks
  import opened Lines
  import opened Reconstruct

  /** The deleted and inserted lines of the accepted hunks. */
  function AcceptedCost<Line>(hs: seq<Hunk<Line>>, d: Decisions): nat {
    if hs == [] then 0
    else (if IsAccepted(d, hs[0].id) then Size(hs[0]) else 0) + AcceptedCost(hs[1..], d)
  }

  /** How many changes from operation `k` on are accepted. */
  function AcceptedChanges<Line>(ops: seq<Op<Line>>, flags: seq<bool>, k: nat): nat
    requires k <= |ops| == |flags|
    decreases |ops| - k
  {
    if k == |ops| then 0
    else (if !ops[k].Eq? && flags[k] then 1 else 0) + AcceptedChanges(ops, flags, k + 1)
  }

  /** The part of the script that an apply carries out. */
  ghost function Done<Line>(ops: seq<Op<Line>>, flags: seq<bool>, k: nat): (s: seq<Op<Line>>)
    requires k <= |ops| == |flags|
    ensures Transforms(s, OldSide(ops[k..]), Replay(ops, flags, k, |ops|))
    ensures Cost(s) == AcceptedChanges(ops, flags, k)
    decreases |ops| - k
  {
    if k == |ops| then []
    else
      assert ops[k..] == Prepend(ops[k], ops[k + 1..]);
      var rest := Done(ops, flags, k + 1);
      match ops[k]
      case Eq(x) => Prepend(Eq(x), rest)
      case Del(x) => Prepend(if flags[k] then Del(x) else Eq(x), rest)
      case Ins(x) => if flags[k] then Prepend(Ins(x), rest) else rest
  }

  /** The part of the script that an apply leaves to be done. */
  ghost function Todo<Line>(ops: seq<Op<Line>>, flags: seq<bool>, k: nat): (s: seq<Op<Line>>)
    requires k <= |ops| == |flags|
    ensures Transforms(s, Replay(ops, flags, k, |ops|), NewSide(ops[k..]))
    ensures Cost(s) + AcceptedChanges(ops, flags, k) == Cost(ops[k..])
    decreases |ops| - k
  {
    if k == |ops| then []
    else
      assert ops[k..] == Prepend(ops[k], ops[k + 1..]);
      var rest := Todo(ops, flags, k + 1);
      match ops[k]
      case Eq(x) => Prepend(Eq(x), rest)
      case Del(x) => if flags[k] then rest else Prepend(Del(x), rest)
      case Ins(x) => Prepend(if flags[k] then Eq(x) else Ins(x), rest)
  }

  lemma {:induction false} ChangesOfRun<Line>(ops: seq<Op<Line>>, flags: seq<bool>, k: nat, end: nat, accepted: bool)
    requires k <= end <= |ops| == |flags|
    requires forall j :: k <= j < end ==> !ops[j].Eq? && flags[j] == accepted
    ensures AcceptedChanges(ops, flags, k) == (if accepted then end - k else 0) + AcceptedChanges(ops, flags, end)
    decreases end - k
  {
    if k < end {
      ChangesOfRun(ops, flags, k + 1, end, accepted);
    }
  }

  lemma {:induction false} AcceptedChangesAreHunks<Line>(ops: seq<Op<Line>>, d: Decisions, k: nat)
    requires k <= |ops| && Between(ops, k)
    ensures AcceptedChanges(ops, Flags(ops, d), k) == AcceptedCost(HunksFrom(ops, k), d)
    decreases |ops| - k
  {
    if k == |ops| {
    } else if ops[k].Eq? {
      AcceptedChangesAreHunks(ops, d, k + 1);
    } else {
      var end, h := RunEnd(ops, k), HunkAt(ops, k);
      HunkAtCoversRun(ops, k);
      AcceptedChangesAreHunks(ops, d, end);
      forall j | k <= j < end ensures Flags(ops, d)[j] == IsAccepted(d, h.id) {
        WithinRun(ops, k, j);
      }
      ChangesOfRun(ops, Flags(ops, d), k, end, IsAccepted(d, h.id));
      var hs := HunksFrom(ops, k);
      assert hs[0] == h && hs[1..] == HunksFrom(ops, end);
    }
  }

  /** Applying any subset of the hunks of an optimal script uses up exactly the cost of that
      subset: that much distance is covered, and the rest of the distance is left. */
  lemma PartialApplyIsExact<Line>(ops: seq<Op<Line>>, d: Decisions)
    requires Cost(ops) == Distance(OldSide(ops), NewSide(ops))
    ensures AcceptedCost(HunksOf(ops), d) <= Distance(OldSide(ops), NewSide(ops))
    ensures Distance(Resolved(ops, d), NewSide(ops))
            == Distance(OldSide(ops), NewSide(ops)) - AcceptedCost(HunksOf(ops), d)
    ensures Distance(OldSide(ops), Resolved(ops, d)) == AcceptedCost(HunksOf(ops), d)
  {
    var flags := Flags(ops, d);
    assert ops[0..] == ops;
    AcceptedChangesAreHunks(ops, d, 0);
    ScriptCostsAtLeastDistance(Done(ops, flags, 0), OldSide(ops), Resolved(ops, d));
    ScriptCostsAtLeastDistance(Todo(ops, flags, 0), Resolved(ops, d), NewSide(ops));
    TriangleInequality(OldSide(ops), Resolved(ops, d), NewSide(ops));
  }

  lemma {:induction false} FreeMeansNoneAccepted<Line>(hs: seq<Hunk<Line>>, d: Decisions)
    requires forall h :: h in hs ==> Size(h) > 0
    ensures AcceptedCost(hs, d) == 0 <==> forall h :: h in hs ==> !IsAccepted(d, h.id)
  {
    if hs != [] {
      FreeMeansNoneAccepted(hs[1..], d);
      assert hs == [hs[0]] + hs[1..];
    }
  }

  // ---- On file contents ----

  ghost function LineDistance(a: string, b: string): nat {
    Distance(SplitLines(a), SplitLines(b))
  }

  /** The content that an apply writes. */
  function Applied(oldContent: string, newContent: string, d: Decisions): string {
    Unlines(Resolved(OpsOf(oldContent, newContent), d), EndsWithNewline(oldContent))
  }

  ghost predicate WithinGuard(oldContent: string, newContent: string) {
    |SplitLines(oldContent)| <= SIZE_GUARD && |SplitLines(newContent)| <= SIZE_GUARD
  }

  /** Rejoining the applied lines keeps all of them as lines of the written file. */
  predicate KeepsLastLine(oldContent: string, newContent: string, d: Decisions) {
    var ls := Resolved(OpsOf(oldContent, newContent), d);
    ls == [] || EndsWithNewline(oldContent) || ls[|ls| - 1] != ""
  }

  lemma {:induction false} ReplayLines<Line>(ops: seq<Op<Line>>, flags: seq<bool>, lo: nat, l: Line)
    requires lo <= |ops| == |flags| && l in Replay(ops, flags, lo, |ops|)
    ensures l in OldSide(ops[lo..]) || l in NewSide(ops[lo..])
    decreases |ops| - lo
  {
    assert ops[lo..][1..] == ops[lo + 1..];
    if l in Replay(ops, flags, lo + 1, |ops|) {
      ReplayLines(ops, flags, lo + 1, l);
    }
  }

  lemma OpsTransform(oldContent: string, newContent: string)
    ensures Transforms(OpsOf(oldContent, newContent), SplitLines(oldContent), SplitLines(newContent))
  {
    ScriptTransforms(SplitLines(oldContent), SplitLines(newContent));
  }

  /** The lines of the written file: the applied lines, less an empty last one when the
      original had no trailing newline to terminate it with. */
  lemma AppliedLines(oldContent: string, newContent: string, d: Decisions)
    ensures var ls := Resolved(OpsOf(oldContent, newContent), d);
            SplitLines(Applied(oldContent, newContent, d))
            == if KeepsLastLine(oldContent, newContent, d) then ls else ls[..|ls| - 1]
  {
    var ops := OpsOf(oldContent, newContent);
    var ls := Resolved(ops, d);
    OpsTransform(oldContent, newContent);
    UnlinesSplitLines(oldContent);
    UnlinesSplitLines(newContent);
    forall l | l in ls ensures '\n' !in l {
      ReplayLines(ops, Flags(ops, d), 0, l);
      assert ops[0..] == ops;
    }
    SplitLinesUnlines(ls, EndsWithNewline(oldContent));
  }

  /** Rejecting every hunk gives back the original content, byte for byte. */
  lemma RejectAllIsIdentity(oldContent: string, newContent: string, d: Decisions)
    requires forall h :: h in DiffOf(oldContent, newContent).hunks ==> !IsAccepted(d, h.id)
    ensures Applied(oldContent, newContent, d) == oldContent
  {
    OpsTransform(oldContent, newContent);
    AcceptAllOrNone(OpsOf(oldContent, newContent), d, false);
    UnlinesSplitLines(oldContent);
  }

  ghost predicate AcceptsAll(oldContent: string, newContent: string, d: Decisions) {
    forall h :: h in DiffOf(oldContent, newContent).hunks ==> IsAccepted(d, h.id)
  }

  /** Accepting every hunk applies exactly the proposed lines; the written content is the
      proposal exactly when both files agree on the trailing newline, or the proposal is empty. */
  lemma AcceptAllGivesProposal(oldContent: string, newContent: string, d: Decisions)
    requires AcceptsAll(oldContent, newContent, d)
    ensures Resolved(OpsOf(oldContent, newContent), d) == SplitLines(newContent)
    ensures Applied(oldContent, newContent, d) == newContent
            <==> newContent == "" || EndsWithNewline(oldContent) == EndsWithNewline(newContent)
  {
    OpsTransform(oldContent, newContent);
    AcceptAllOrNone(OpsOf(oldContent, newContent), d, true);
    UnlinesSplitLines(newContent);
  }

  lemma {:induction false} KeepAll<Line>(a: seq<Line>) returns (ops: seq<Op<Line>>)
    ensures Transforms(ops, a, a) && Cost(ops) == 0
  {
    if a == [] {
      ops := [];
    } else {
      var rest := KeepAll(a[1..]);
      ops := [Eq(a[0])] + rest;
    }
  }

  lemma LastLineIsOneChange<Line>(a: seq<Line>)
    requires a != []
    ensures Distance(a[..|a| - 1], a) <= 1
  {
    var l := a[|a| - 1];
    var keep := KeepAll(a[..|a| - 1]);
    SidesAppend(keep, [Ins(l)]);
    assert [Ins(l)][1..] == [];
    assert a == a[..|a| - 1] + [l];
    ScriptCostsAtLeastDistance(keep + [Ins(l)], a[..|a| - 1], a);
  }

  /** Dropping a line moves the distance by one, up or down: parity forbids it to stay. */
  lemma LostLineDistance<Line>(a: seq<Line>, b: seq<Line>)
    requires a != []
    ensures Distance(a[..|a| - 1], b) <= Distance(a, b) + 1
    ensures Distance(a[..|a| - 1], b) != Distance(a, b)
  {
    LastLineIsOneChange(a);
    TriangleInequality(a[..|a| - 1], a, b);
  }

  lemma {:induction false} FreeScriptKeepsAll<Line>(ops: seq<Op<Line>>)
    requires Cost(ops) == 0
    ensures OldSide(ops) == NewSide(ops)
  {
    if ops != [] {
      FreeScriptKeepsAll(ops[1..]);
    }
  }

  lemma DistanceZero<Line>(a: seq<Line>, b: seq<Line>)
    ensures Distance(a, b) == 0 <==> a == b
  {
    WalkTransforms(a, b);
    KeptLines(Walk(a, b));
    if Distance(a, b) == 0 {
      FreeScriptKeepsAll(Walk(a, b));
    }
    if a == b {
      var ops := KeepAll(a);
      ScriptCostsAtLeastDistance(ops, a, b);
    }
  }

  // ---- When the last line is lost ----

  function Last<T>(s: seq<T>): Option<T> {
    if s == [] then None else Some(s[|s| - 1])
  }

  lemma LastOfConcat<T>(a: seq<T>, b: seq<T>)
    ensures Last(a + b) == if b == [] then Last(a) else Last(b)
  {
    if b == [] {
      ConcatEmpty(a);
    }
  }

  lemma {:induction false} HunkCount<Line>(ops: seq<Op<Line>>, k: nat)
    requires k <= |ops| && Between(ops, k)
    ensures |HunksFrom(ops, k)| + RunsBefore(ops, k) == RunsBefore(ops, |ops|)
    decreases |ops| - k
  {
    if k < |ops| {
      if ops[k].Eq? {
        HunkCount(ops, k + 1);
      } else {
        WithinRun(ops, k, RunEnd(ops, k) - 1);
        HunkCount(ops, RunEnd(ops, k));
      }
    }
  }

  /** When the last operation is a change, the last hunk reaches to the end. */
  lemma LastHunkEnds<Line>(ops: seq<Op<Line>>) returns (h: Hunk<Line>)
    requires ops != [] && !ops[|ops| - 1].Eq?
    ensures Last(HunksOf(ops)) == Some(h) && CoversRun(ops, h) && h.firstLineIndex + Size(h) == |ops|
  {
    var k := |ops| - 1;
    ChangeIsCovered(ops, 0, k);
    var g :| g in HunksOf(ops) && LineAt(ops, k).hunkId == Some(g.id) &&
             g.firstLineIndex <= k < g.firstLineIndex + Size(g);
    var i :| 0 <= i < |HunksOf(ops)| && HunksOf(ops)[i] == g;
    HunkOfRun(ops, i);
    assert LineAt(ops, k).hunkId == Some(HunkId(RunIndex(ops, k)));
    HunkIdInjective(i, RunIndex(ops, k));
    RunIndexBound(ops, k);
    HunkCount(ops, 0);
    h := g;
  }

  /** What is kept before a run ends alike on both sides and in every replay. */
  lemma EndsBeforeRun<Line>(ops: seq<Op<Line>>, flags: seq<bool>, first: nat)
    requires first <= |ops| == |flags| && (first > 0 ==> ops[first - 1].Eq?)
    ensures Last(Replay(ops, flags, 0, first)) == Last(OldRange(ops, 0, first)) == Last(NewRange(ops, 0, first))
  {
    if first > 0 {
      ReplaySplit(ops, flags, 0, first - 1, first);
      OldRangeSplit(ops, 0, first - 1, first);
      NewRangeSplit(ops, 0, first - 1, first);
      var x := [ops[first - 1].text];
      assert Replay(ops, flags, first - 1, first) == x;
      assert OldRange(ops, first - 1, first) == x && NewRange(ops, first - 1, first) == x;
      LastOfConcat(Replay(ops, flags, 0, first - 1), x);
      LastOfConcat(OldRange(ops, 0, first - 1), x);
      LastOfConcat(NewRange(ops, 0, first - 1), x);
    }
  }

  lemma SameEnd<T>(a: seq<T>, b: seq<T>, end: seq<T>)
    requires Last(a) == Last(b)
    ensures Last(a + end) == Last(b + end)
  {
    LastOfConcat(a, end);
    LastOfConcat(b, end);
  }

  lemma EndsLikeNew<Line>(ops: seq<Op<Line>>, flags: seq<bool>, first: nat)
    requires first <= |ops| == |flags| && (first > 0 ==> ops[first - 1].Eq?)
    requires Replay(ops, flags, first, |ops|) == NewRange(ops, first, |ops|)
    ensures Last(Replay(ops, flags, 0, |ops|)) == Last(NewSide(ops))
  {
    EndsBeforeRun(ops, flags, first);
    ReplaySplit(ops, flags, 0, first, |ops|);
    NewRangeSplit(ops, 0, first, |ops|);
    SidesAreRanges(ops);
    SameEnd(Replay(ops, flags, 0, first), NewRange(ops, 0, first), NewRange(ops, first, |ops|));
  }

  lemma EndsLikeOld<Line>(ops: seq<Op<Line>>, flags: seq<bool>, first: nat)
    requires first <= |ops| == |flags| && (first > 0 ==> ops[first - 1].Eq?)
    requires Replay(ops, flags, first, |ops|) == OldRange(ops, first, |ops|)
    ensures Last(Replay(ops, flags, 0, |ops|)) == Last(OldSide(ops))
  {
    EndsBeforeRun(ops, flags, first);
    ReplaySplit(ops, flags, 0, first, |ops|);
    OldRangeSplit(ops, 0, first, |ops|);
    SidesAreRanges(ops);
    SameEnd(Replay(ops, flags, 0, first), OldRange(ops, 0, first), OldRange(ops, first, |ops|));
  }

  lemma LastRunReplay<Line>(ops: seq<Op<Line>>, d: Decisions, h: Hunk<Line>)
    requires CoversRun(ops, h) && h.firstLineIndex + Size(h) == |ops|
    ensures Replay(ops, Flags(ops, d), h.firstLineIndex, |ops|)
            == if IsAccepted(d, h.id) then NewRange(ops, h.firstLineIndex, |ops|)
               else OldRange(ops, h.firstLineIndex, |ops|)
  {
    RunReplay(ops, d, h, |ops|);
  }

  /** The resolved lines end like the new side if the last hunk reaches to the end and is accepted,
      and like the old side if it is not. */
  lemma ResolvedEndsLikeASide<Line>(ops: seq<Op<Line>>, d: Decisions, h: Hunk<Line>)
    requires CoversRun(ops, h) && h.firstLineIndex + Size(h) == |ops|
    ensures IsAccepted(d, h.id) ==> Last(Resolved(ops, d)) == Last(NewSide(ops))
    ensures !IsAccepted(d, h.id) ==> Last(Resolved(ops, d)) == Last(OldSide(ops))
  {
    var first, flags := h.firstLineIndex, Flags(ops, d);
    LastRunReplay(ops, d, h);
    if IsAccepted(d, h.id) {
      EndsLikeNew(ops, flags, first);
    } else {
      EndsLikeOld(ops, flags, first);
    }
  }

  lemma KeptLastEverywhere<Line>(ops: seq<Op<Line>>, d: Decisions)
    requires ops != [] && ops[|ops| - 1].Eq?
    ensures Last(Resolved(ops, d)) == Last(OldSide(ops)) == Last(NewSide(ops))
  {
    EndsBeforeRun(ops, Flags(ops, d), |ops|);
    SidesAreRanges(ops);
  }

  /** The proposal ends in an empty line that nothing will terminate, and its last hunk is accepted. */
  predicate LosesLastLine(oldContent: string, newContent: string, d: Decisions) {
    var last := Last(DiffOf(oldContent, newContent).hunks);
    && !EndsWithNewline(oldContent) && Last(SplitLines(newContent)) == Some("")
    && last.Some? && IsAccepted(d, last.value.id)
  }

  /** Which line is lost can be told from the two contents and one decision. */
  lemma LostLineIff(oldContent: string, newContent: string, d: Decisions)
    ensures KeepsLastLine(oldContent, newContent, d) <==> !LosesLastLine(oldContent, newContent, d)
  {
    var ops := OpsOf(oldContent, newContent);
    OpsTransform(oldContent, newContent);
    UnlinesSplitLines(oldContent);
    if ops != [] && !ops[|ops| - 1].Eq? {
      var h := LastHunkEnds(ops);
      ResolvedEndsLikeASide(ops, d, h);
    } else if ops != [] {
      KeptLastEverywhere(ops, d);
    }
  }

  /** Within the guard, the distance left after an apply is the old distance less the cost of
      the accepted hunks, exactly when no empty last line is lost in the written file. */
  lemma AppliedDistance(oldContent: string, newContent: string, d: Decisions)
    requires WithinGuard(oldContent, newContent)
    ensures LineDistance(Applied(oldContent, newContent, d), newContent)
            == LineDistance(oldContent, newContent) - AcceptedCost(DiffOf(oldContent, newContent).hunks, d)
            <==> !LosesLastLine(oldContent, newContent, d)
    ensures LineDistance(Applied(oldContent, newContent, d), newContent)
            <= LineDistance(oldContent, newContent) - AcceptedCost(DiffOf(oldContent, newContent).hunks, d) + 1
  {
    var a, b := SplitLines(oldContent), SplitLines(newContent);
    var ops := OpsOf(oldContent, newContent);
    var ls := Resolved(ops, d);
    OpsTransform(oldContent, newContent);
    ScriptIsOptimal(a, b);
    PartialApplyIsExact(ops, d);
    AppliedLines(oldContent, newContent, d);
    LostLineIff(oldContent, newContent, d);
    if !KeepsLastLine(oldContent, newContent, d) {
      LostLineDistance(ls, b);
    }
  }

  /** A script of changes only is one hunk, so an apply is all or nothing. */
  lemma ChangesOnlyIsOneHunk<Line>(ops: seq<Op<Line>>, d: Decisions)
    requires forall k :: 0 <= k < |ops| ==> !ops[k].Eq?
    ensures Resolved(ops, d) == if IsAccepted(d, HunkId(0)) then NewSide(ops) else OldSide(ops)
    ensures |HunksOf(ops)| == if ops == [] then 0 else 1
    ensures forall h :: h in HunksOf(ops) ==> h.id == HunkId(0)
  {
    forall k | 0 <= k < |ops| ensures Flags(ops, d)[k] == IsAccepted(d, HunkId(0)) {
      WithinRun(ops, 0, k);
    }
    ReplayUniform(ops, Flags(ops, d), 0, |ops|, IsAccepted(d, HunkId(0)));
    SidesAreRanges(ops);
    HunkCount(ops, 0);
    if ops != [] {
      WithinRun(ops, 0, |ops| - 1);
      HunksAreNumbered(ops, 0, 0);
    }
  }

  /** Past the guard there is one hunk at most, so an apply is all or nothing. */
  lemma ReplaceAllIsOneHunk(oldContent: string, newContent: string, d: Decisions)
    requires !WithinGuard(oldContent, newContent)
    ensures Resolved(OpsOf(oldContent, newContent), d)
            == if IsAccepted(d, HunkId(0)) then SplitLines(newContent) else SplitLines(oldContent)
    ensures |DiffOf(oldContent, newContent).hunks| == 1 && DiffOf(oldContent, newContent).hunks[0].id == HunkId(0)
  {
    OpsTransform(oldContent, newContent);
    ChangesOnlyIsOneHunk(OpsOf(oldContent, newContent), d);
  }

  lemma HunksHaveLines<Line>(ops: seq<Op<Line>>)
    ensures forall h :: h in HunksOf(ops) ==> Size(h) > 0
  {
    forall h | h in HunksOf(ops) ensures Size(h) > 0 {
      HunksCoverRuns(ops, 0, h);
    }
  }

  lemma GuardedNeverMovesAway(oldContent: string, newContent: string, d: Decisions)
    requires WithinGuard(oldContent, newContent)
    ensures LineDistance(Applied(oldContent, newContent, d), newContent) <= LineDistance(oldContent, newContent)
  {
    AppliedDistance(oldContent, newContent, d);
    HunksHaveLines(OpsOf(oldContent, newContent));
    FreeMeansNoneAccepted(DiffOf(oldContent, newContent).hunks, d);
    if AcceptedCost(DiffOf(oldContent, newContent).hunks, d) == 0 {
      RejectAllIsIdentity(oldContent, newContent, d);
    }
  }

  /** Losing an empty last line of the proposal costs one line, which the original lacked. */
  lemma WholeProposalIsClose<Line>(a: seq<Line>, b: seq<Line>, keepsLast: bool)
    requires !keepsLast ==> b != [] && a != b
    ensures Distance(if keepsLast then b else b[..|b| - 1], b) <= Distance(a, b)
  {
    if keepsLast {
      DistanceZero(b, b);
    } else {
      LastLineIsOneChange(b);
      DistanceZero(a, b);
    }
  }

  lemma WholeProposalNeverMovesAway(oldContent: string, newContent: string, d: Decisions)
    requires Resolved(OpsOf(oldContent, newContent), d) == SplitLines(newContent) != SplitLines(oldContent)
    ensures LineDistance(Applied(oldContent, newContent, d), newContent) <= LineDistance(oldContent, newContent)
  {
    AppliedLines(oldContent, newContent, d);
    WholeProposalIsClose(SplitLines(oldContent), SplitLines(newContent), KeepsLastLine(oldContent, newContent, d));
  }

  lemma UnguardedNeverMovesAway(oldContent: string, newContent: string, d: Decisions)
    requires !WithinGuard(oldContent, newContent)
    ensures LineDistance(Applied(oldContent, newContent, d), newContent) <= LineDistance(oldContent, newContent)
  {
    ReplaceAllIsOneHunk(oldContent, newContent, d);
    if Resolved(OpsOf(oldContent, newContent), d) == SplitLines(oldContent) {
      UnlinesSplitLines(oldContent);
    } else {
      WholeProposalNeverMovesAway(oldContent, newContent, d);
    }
  }

  /** Whatever is decided, and whatever the size, an apply never moves away from the proposal. */
  lemma ApplyNeverMovesAway(oldContent: string, newContent: string, d: Decisions)
    ensures LineDistance(Applied(oldContent, newContent, d), newContent) <= LineDistance(oldContent, newContent)
  {
    if WithinGuard(oldContent, newContent) {
      GuardedNeverMovesAway(oldContent, newContent, d);
    } else {
      UnguardedNeverMovesAway(oldContent, newContent, d);
    }
  }

  /** A run of applies, each under fresh decisions. */
  function AppliedRun(oldContent: string, newContent: string, ds: seq<Decisions>): string
    decreases |ds|
  {
    if ds == [] then oldContent else AppliedRun(Applied(oldContent, newContent, ds[0]), newContent, ds[1..])
  }

  lemma {:induction false} RunNeverMovesAway(oldContent: string, newContent: string, ds: seq<Decisions>)
    ensures LineDistance(AppliedRun(oldContent, newContent, ds), newContent) <= LineDistance(oldContent, newContent)
    decreases |ds|
  {
    if ds != [] {
      ApplyNeverMovesAway(oldContent, newContent, ds[0]);
      RunNeverMovesAway(Applied(oldContent, newContent, ds[0]), newContent, ds[1..]);
    }
  }

  lemma {:induction false} RunThenOne(oldContent: string, newContent: string, ds: seq<Decisions>, d: Decisions)
    ensures AppliedRun(oldContent, newContent, ds + [d])
            == Applied(AppliedRun(oldContent, newContent, ds), newContent, d)
    decreases |ds|
  {
    if ds == [] {
      assert [d][1..] == [];
    } else {
      assert (ds + [d])[1..] == ds[1..] + [d];
      RunThenOne(Applied(oldContent, newContent, ds[0]), newContent, ds[1..], d);
    }
  }

  /** After any run of partial applies, one apply that accepts everything still shown reaches
      the proposal, exactly under the trailing-newline condition on the content then current. */
  lemma FinalAcceptAllReaches(oldContent: string, newContent: string, ds: seq<Decisions>, d: Decisions)
    requires AcceptsAll(AppliedRun(oldContent, newContent, ds), newContent, d)
    ensures var current := AppliedRun(oldContent, newContent, ds);
            AppliedRun(oldContent, newContent, ds + [d]) == newContent
            <==> newContent == "" || EndsWithNewline(current) == EndsWithNewline(newContent)
  {
    RunThenOne(oldContent, newContent, ds, d);
    AcceptAllGivesProposal(AppliedRun(oldContent, newContent, ds), newContent, d);
  }

  lemma GuardedApplyActs(oldContent: string, newContent: string, d: Decisions)
    requires WithinGuard(oldContent, newContent)
    ensures Resolved(OpsOf(oldContent, newContent), d) == SplitLines(oldContent)
            <==> forall h :: h in DiffOf(oldContent, newContent).hunks ==> !IsAccepted(d, h.id)
    ensures SplitLines(oldContent) == SplitLines(newContent) ==>
              forall h :: h in DiffOf(oldContent, newContent).hunks ==> !IsAccepted(d, h.id)
  {
    var ops := OpsOf(oldContent, newContent);
    OpsTransform(oldContent, newContent);
    ScriptIsOptimal(SplitLines(oldContent), SplitLines(newContent));
    PartialApplyIsExact(ops, d);
    HunksHaveLines(ops);
    FreeMeansNoneAccepted(HunksOf(ops), d);
    DistanceZero(SplitLines(oldContent), Resolved(ops, d));
    DistanceZero(SplitLines(oldContent), SplitLines(newContent));
  }

  /** An apply leaves the lines as they were exactly when no hunk is accepted, or the proposal has the
      same lines anyway (past the guard, equal files still show one hunk). */
  lemma ApplyActsIffAccepted(oldContent: string, newContent: string, d: Decisions)
    ensures Resolved(OpsOf(oldContent, newContent), d) == SplitLines(oldContent)
            <==> SplitLines(oldContent) == SplitLines(newContent)
                 || forall h :: h in DiffOf(oldContent, newContent).hunks ==> !IsAccepted(d, h.id)
  {
    if WithinGuard(oldContent, newContent) {
      GuardedApplyActs(oldContent, newContent, d);
    } else {
      ReplaceAllIsOneHunk(oldContent, newContent, d);
      var hunks := DiffOf(oldContent, newContent).hunks;
      assert hunks[0] in hunks;
      assert hunks == [hunks[0]];
    }
  }

  lemma {:induction false} NothingOldNothingKept<Line>(ops: seq<Op<Line>>)
    requires OldSide(ops) == []
    ensures forall k :: 0 <= k < |ops| ==> ops[k].Ins?
  {
    if ops != [] {
      NothingOldNothingKept(ops[1..]);
      forall k | 0 <= k < |ops| ensures ops[k].Ins? {
        if k > 0 {
          assert ops[k] == ops[1..][k - 1];
        }
      }
    }
  }

  /** A new file never gets its trailing newline, whatever is decided. */
  lemma NewFileLosesTrailingNewline(newContent: string, d: Decisions)
    requires EndsWithNewline(newContent)
    ensures Applied("", newContent, d) != newContent
    ensures AcceptsAll("", newContent, d) ==> Applied("", newContent, d) + "\n" == newContent
  {
    var ops := OpsOf("", newContent);
    OpsTransform("", newContent);
    NothingOldNothingKept(ops);
    ChangesOnlyIsOneHunk(ops, d);
    UnlinesSplitLines(newContent);
    if AcceptsAll("", newContent, d) {
      AcceptAllGivesProposal("", newContent, d);
    }
  }

  lemma {:induction false} AllEqCostsNothing<Line>(ops: seq<Op<Line>>)
    requires forall k :: 0 <= k < |ops| ==> ops[k].Eq?
    ensures Cost(ops) == 0
  {
    if ops != [] {
      AllEqCostsNothing(ops[1..]);
    }
  }
}
