/** The line-level edit script behind the patch preview: a longest-common-subsequence
    table filled backwards and walked forwards. */
module EditScript {
  import opened Common

  datatype Op<+Line> = Eq(text: Line) | Del(text: Line) | Ins(text: Line)

  /** Above this many lines on a side the script replaces everything. */
  const SIZE_GUARD: nat := 4000

  /** The lines a script consumes. */
  function OldSide<Line>(ops: seq<Op<Line>>): seq<Line> {
    if ops == [] then []
    else if ops[0].Ins? then OldSide(ops[1..])
    else [ops[0].text] + OldSide(ops[1..])
  }

  /** The lines a script produces. */
  function NewSide<Line>(ops: seq<Op<Line>>): seq<Line> {
    if ops == [] then []
    else if ops[0].Del? then NewSide(ops[1..])
    else [ops[0].text] + NewSide(ops[1..])
  }

  /** The lines a script keeps. */
  function Kept<Line>(ops: seq<Op<Line>>): seq<Line> {
    if ops == [] then []
    else if ops[0].Eq? then [ops[0].text] + Kept(ops[1..])
    else Kept(ops[1..])
  }

  /** The number of insertions and deletions of a script. */
  function Cost<Line>(ops: seq<Op<Line>>): nat {
    if ops == [] then 0 else (if ops[0].Eq? then 0 else 1) + Cost(ops[1..])
  }

  ghost predicate Transforms<Line>(ops: seq<Op<Line>>, a: seq<Line>, b: seq<Line>) {
    OldSide(ops) == a && NewSide(ops) == b
  }

  /** The recurrence the table is filled with. */
  function Lcs<Line(==)>(a: seq<Line>, b: seq<Line>): nat
    decreases |a| + |b|
  {
    if a == [] || b == [] then 0
    else if a[0] == b[0] then Lcs(a[1..], b[1..]) + 1
    else Max(Lcs(a[1..], b), Lcs(a, b[1..]))
  }

  /** The walk through the table, from its top left corner. */
  function Walk<Line(==)>(a: seq<Line>, b: seq<Line>): seq<Op<Line>>
    decreases |a| + |b|
  {
    if a == [] && b == [] then []
    else if b == [] then [Del(a[0])] + Walk(a[1..], b)
    else if a == [] then [Ins(b[0])] + Walk(a, b[1..])
    else if a[0] == b[0] then [Eq(a[0])] + Walk(a[1..], b[1..])
    else if Lcs(a[1..], b) >= Lcs(a, b[1..]) then [Del(a[0])] + Walk(a[1..], b)
    else [Ins(b[0])] + Walk(a, b[1..])
  }

  function DelAll<Line>(a: seq<Line>): seq<Op<Line>> {
    seq(|a|, i requires 0 <= i < |a| => Del(a[i]))
  }

  function InsAll<Line>(b: seq<Line>): seq<Op<Line>> {
    seq(|b|, i requires 0 <= i < |b| => Ins(b[i]))
  }

  function Script<Line(==)>(a: seq<Line>, b: seq<Line>): seq<Op<Line>> {
    if |a| > SIZE_GUARD || |b| > SIZE_GUARD then DelAll(a) + InsAll(b) else Walk(a, b)
  }

  /** One step of the recurrence, in terms of the table's indices. */
  lemma LcsSuffix<Line>(a: seq<Line>, b: seq<Line>, i: nat, j: nat)
    requires i < |a| && j < |b|
    ensures Lcs(a[i..], b[j..])
            == if a[i] == b[j] then Lcs(a[i + 1..], b[j + 1..]) + 1
               else Max(Lcs(a[i + 1..], b[j..]), Lcs(a[i..], b[j + 1..]))
  {
    assert a[i..][1..] == a[i + 1..];
    assert b[j..][1..] == b[j + 1..];
  }

  method FillTable<Line(==)>(oldLines: seq<Line>, newLines: seq<Line>) returns (dp: array2<nat>)
    ensures fresh(dp) && dp.Length0 == |oldLines| + 1 && dp.Length1 == |newLines| + 1
    ensures forall p, q :: 0 <= p <= |oldLines| && 0 <= q <= |newLines| ==>
              dp[p, q] == Lcs(oldLines[p..], newLines[q..])
  {
    var n, m := |oldLines|, |newLines|;
    dp := new nat[n + 1, m + 1]((_, _) => 0);
    var i := n;
    while i > 0
      invariant 0 <= i <= n
      invariant forall p, q :: i <= p <= n && 0 <= q <= m ==> dp[p, q] == Lcs(oldLines[p..], newLines[q..])
      invariant forall p :: 0 <= p < i ==> dp[p, m] == 0
    {
      i := i - 1;
      var j := m;
      while j > 0
        invariant 0 <= j <= m
        invariant forall p, q :: i < p <= n && 0 <= q <= m ==> dp[p, q] == Lcs(oldLines[p..], newLines[q..])
        invariant forall q :: j <= q <= m ==> dp[i, q] == Lcs(oldLines[i..], newLines[q..])
        invariant forall p :: 0 <= p < i ==> dp[p, m] == 0
      {
        j := j - 1;
        LcsSuffix(oldLines, newLines, i, j);
        dp[i, j] := if oldLines[i] == newLines[j] then dp[i + 1, j + 1] + 1
        else Max(dp[i + 1, j], dp[i, j + 1]);
      }
    }
  }

  method ReplaceAll<Line(==)>(oldLines: seq<Line>, newLines: seq<Line>) returns (ops: seq<Op<Line>>)
    ensures ops == DelAll(oldLines) + InsAll(newLines)
  {
    ops := [];
    for k := 0 to |oldLines|
      invariant ops == DelAll(oldLines)[..k]
    {
      ops := ops + [Del(oldLines[k])];
    }
    for k := 0 to |newLines|
      invariant ops == DelAll(oldLines) + InsAll(newLines)[..k]
    {
      ops := ops + [Ins(newLines[k])];
    }
  }

  /** One step of the walk, in terms of the cursors. */
  lemma WalkSuffix<Line>(a: seq<Line>, b: seq<Line>, i: nat, j: nat)
    requires i <= |a| && j <= |b| && (i < |a| || j < |b|)
    ensures Walk(a[i..], b[j..]) ==
            if j == |b| then [Del(a[i])] + Walk(a[i + 1..], b[j..])
            else if i == |a| then [Ins(b[j])] + Walk(a[i..], b[j + 1..])
            else if a[i] == b[j] then [Eq(a[i])] + Walk(a[i + 1..], b[j + 1..])
            else if Lcs(a[i + 1..], b[j..]) >= Lcs(a[i..], b[j + 1..]) then [Del(a[i])] + Walk(a[i + 1..], b[j..])
            else [Ins(b[j])] + Walk(a[i..], b[j + 1..])
  {
    if i < |a| {
      assert a[i..][1..] == a[i + 1..];
    }
    if j < |b| {
      assert b[j..][1..] == b[j + 1..];
    }
  }

  /** `ops.push(op)`, remembering what is still to be pushed. */
  function Push<T>(ops: seq<T>, op: T, ghost rest: seq<T>): (r: seq<T>)
    ensures r == ops + [op]
    ensures r + rest == ops + ([op] + rest)
  {
    ops + [op]
  }

  method WalkTable<Line(==)>(oldLines: seq<Line>, newLines: seq<Line>, dp: array2<nat>) returns (ops: seq<Op<Line>>)
    requires dp.Length0 == |oldLines| + 1 && dp.Length1 == |newLines| + 1
    requires forall p, q :: 0 <= p <= |oldLines| && 0 <= q <= |newLines| ==>
               dp[p, q] == Lcs(oldLines[p..], newLines[q..])
    ensures ops == Walk(oldLines, newLines)
  {
    var n, m := |oldLines|, |newLines|;
    ops := [];
    var i, j := 0, 0;
    ghost var goal := Walk(oldLines, newLines);
    assert oldLines[0..] == oldLines && newLines[0..] == newLines;
    while i < n && j < m
      invariant 0 <= i <= n && 0 <= j <= m
      invariant ops + Walk(oldLines[i..], newLines[j..]) == goal
      decreases n - i + m - j
    {
      WalkSuffix(oldLines, newLines, i, j);
      if oldLines[i] == newLines[j] {
        ops := Push(ops, Eq(oldLines[i]), Walk(oldLines[i + 1..], newLines[j + 1..]));
        i, j := i + 1, j + 1;
      } else if dp[i + 1, j] >= dp[i, j + 1] {
        ops := Push(ops, Del(oldLines[i]), Walk(oldLines[i + 1..], newLines[j..]));
        i := i + 1;
      } else {
        ops := Push(ops, Ins(newLines[j]), Walk(oldLines[i..], newLines[j + 1..]));
        j := j + 1;
      }
    }
    while i < n
      invariant 0 <= i <= n && 0 <= j <= m && (i < n ==> j == m)
      invariant ops + Walk(oldLines[i..], newLines[j..]) == goal
    {
      WalkSuffix(oldLines, newLines, i, j);
      ops := Push(ops, Del(oldLines[i]), Walk(oldLines[i + 1..], newLines[j..]));
      i := i + 1;
    }
    while j < m
      invariant i == n && 0 <= j <= m
      invariant ops + Walk(oldLines[i..], newLines[j..]) == goal
    {
      WalkSuffix(oldLines, newLines, i, j);
      ops := Push(ops, Ins(newLines[j]), Walk(oldLines[i..], newLines[j + 1..]));
      j := j + 1;
    }
  }

  /** The edit script as the source computes it. */
  method ComputeScript<Line(==)>(oldLines: seq<Line>, newLines: seq<Line>) returns (ops: seq<Op<Line>>)
    ensures ops == Script(oldLines, newLines)
  {
    var n, m := |oldLines|, |newLines|;
    if n > SIZE_GUARD || m > SIZE_GUARD {
      ops := ReplaceAll(oldLines, newLines);
      return;
    }
    var dp := FillTable(oldLines, newLines);
    ops := WalkTable(oldLines, newLines, dp);
  }

  /** One more operation in front of a script. */
  function Prepend<Line>(op: Op<Line>, rest: seq<Op<Line>>): (r: seq<Op<Line>>)
    ensures r == [op] + rest
    ensures OldSide(r) == if op.Ins? then OldSide(rest) else [op.text] + OldSide(rest)
    ensures NewSide(r) == if op.Del? then NewSide(rest) else [op.text] + NewSide(rest)
    ensures Cost(r) == (if op.Eq? then 0 else 1) + Cost(rest)
  {
    var r := [op] + rest;
    assert r[1..] == rest;
    r
  }

  // ---- Longest common subsequences ----

  ghost predicate Subseq<Line>(c: seq<Line>, a: seq<Line>) {
    c == [] ||
    (a != [] && ((c[0] == a[0] && Subseq(c[1..], a[1..])) || Subseq(c, a[1..])))
  }

  lemma {:induction false} SubseqCons<Line>(c: seq<Line>, a: seq<Line>)
    requires a != [] && Subseq(c, a[1..])
    ensures Subseq(c, a)
  {
  }

  lemma {:induction false} SubseqTail<Line>(c: seq<Line>, a: seq<Line>)
    requires c != [] && Subseq(c, a)
    ensures Subseq(c[1..], a[1..])
  {
    if !(c[0] == a[0] && Subseq(c[1..], a[1..])) {
      SubseqTail(c, a[1..]);
      SubseqCons(c[1..], a[1..]);
    }
  }

  /** No common subsequence is longer than the table's value. */
  lemma {:induction false} LcsIsUpperBound<Line>(c: seq<Line>, a: seq<Line>, b: seq<Line>)
    requires Subseq(c, a) && Subseq(c, b)
    ensures |c| <= Lcs(a, b)
    decreases |a| + |b|
  {
    if c != [] {
      if a[0] == b[0] {
        SubseqTail(c, a);
        SubseqTail(c, b);
        LcsIsUpperBound(c[1..], a[1..], b[1..]);
      } else if c[0] != a[0] {
        LcsIsUpperBound(c, a[1..], b);
      } else {
        LcsIsUpperBound(c, a, b[1..]);
      }
    }
  }

  /** What a script keeps is a common subsequence, and its cost is what it does not keep. */
  lemma {:induction false} KeptLines<Line>(ops: seq<Op<Line>>)
    ensures Subseq(Kept(ops), OldSide(ops)) && Subseq(Kept(ops), NewSide(ops))
    ensures Cost(ops) + 2 * |Kept(ops)| == |OldSide(ops)| + |NewSide(ops)|
  {
    if ops != [] {
      KeptLines(ops[1..]);
      var a, b, c := OldSide(ops), NewSide(ops), Kept(ops);
      match ops[0]
      case Eq(x) =>
        assert a[1..] == OldSide(ops[1..]) && b[1..] == NewSide(ops[1..]) && c[1..] == Kept(ops[1..]);
      case Del(x) =>
        assert a[1..] == OldSide(ops[1..]) && b == NewSide(ops[1..]) && c == Kept(ops[1..]);
        SubseqCons(c, a);
      case Ins(x) =>
        assert a == OldSide(ops[1..]) && b[1..] == NewSide(ops[1..]) && c == Kept(ops[1..]);
        SubseqCons(c, b);
    }
  }

  /** The walk is an edit script from `a` to `b` that keeps as many lines as the table says. */
  lemma {:induction false} WalkTransforms<Line>(a: seq<Line>, b: seq<Line>)
    ensures Transforms(Walk(a, b), a, b)
    ensures |Kept(Walk(a, b))| == Lcs(a, b)
    decreases |a| + |b|
  {
    var ops := Walk(a, b);
    if a == [] && b == [] {
    } else {
      if b == [] || (a != [] && a[0] != b[0] && Lcs(a[1..], b) >= Lcs(a, b[1..])) {
        WalkTransforms(a[1..], b);
        assert ops[1..] == Walk(a[1..], b);
        assert a == [a[0]] + a[1..];
      } else if a == [] || a[0] != b[0] {
        WalkTransforms(a, b[1..]);
        assert ops[1..] == Walk(a, b[1..]);
        assert b == [b[0]] + b[1..];
      } else {
        WalkTransforms(a[1..], b[1..]);
        assert ops[1..] == Walk(a[1..], b[1..]);
        assert a == [a[0]] + a[1..] && b == [b[0]] + b[1..];
      }
    }
  }

  lemma {:induction false} SidesAppend<Line>(s: seq<Op<Line>>, t: seq<Op<Line>>)
    ensures OldSide(s + t) == OldSide(s) + OldSide(t)
    ensures NewSide(s + t) == NewSide(s) + NewSide(t)
    ensures Cost(s + t) == Cost(s) + Cost(t)
  {
    if s == [] {
      ConcatEmpty(t);
      ConcatEmpty(OldSide(t));
      ConcatEmpty(NewSide(t));
    } else {
      assert s + t == Prepend(s[0], s[1..] + t);
      SidesAppend(s[1..], t);
      ConcatAssociates([s[0].text], OldSide(s[1..]), OldSide(t));
      ConcatAssociates([s[0].text], NewSide(s[1..]), NewSide(t));
    }
  }

  lemma {:induction false} DelAllSides<Line>(a: seq<Line>)
    ensures Transforms(DelAll(a), a, []) && Cost(DelAll(a)) == |a|
  {
    if a != [] {
      assert DelAll(a)[1..] == DelAll(a[1..]);
      DelAllSides(a[1..]);
    }
  }

  lemma {:induction false} InsAllSides<Line>(b: seq<Line>)
    ensures Transforms(InsAll(b), [], b) && Cost(InsAll(b)) == |b|
  {
    if b != [] {
      assert InsAll(b)[1..] == InsAll(b[1..]);
      InsAllSides(b[1..]);
    }
  }

  /** On every input, guarded or not, the script turns the old lines into the new ones. */
  lemma ScriptTransforms<Line>(a: seq<Line>, b: seq<Line>)
    ensures Transforms(Script(a, b), a, b)
  {
    WalkTransforms(a, b);
    DelAllSides(a);
    InsAllSides(b);
    SidesAppend(DelAll(a), InsAll(b));
  }

  // ---- Edit distance ----

  /** Insert/delete distance, in closed form; `DistanceIsLeastCost` says what it means. */
  ghost function Distance<Line>(a: seq<Line>, b: seq<Line>): nat {
    WalkTransforms(a, b);
    KeptLines(Walk(a, b));
    |a| + |b| - 2 * Lcs(a, b)
  }

  lemma ScriptCostsAtLeastDistance<Line>(ops: seq<Op<Line>>, a: seq<Line>, b: seq<Line>)
    requires Transforms(ops, a, b)
    ensures Cost(ops) >= Distance(a, b)
    ensures Cost(ops) % 2 == Distance(a, b) % 2
  {
    KeptLines(ops);
    LcsIsUpperBound(Kept(ops), a, b);
  }

  /** The distance is attained by a script and undercut by none. */
  lemma DistanceIsLeastCost<Line>(a: seq<Line>, b: seq<Line>)
    ensures exists ops :: Transforms(ops, a, b) && Cost(ops) == Distance(a, b)
    ensures forall ops :: Transforms(ops, a, b) ==> Cost(ops) >= Distance(a, b)
  {
    WalkTransforms(a, b);
    KeptLines(Walk(a, b));
    assert Transforms(Walk(a, b), a, b) && Cost(Walk(a, b)) == Distance(a, b);
    forall ops | Transforms(ops, a, b) ensures Cost(ops) >= Distance(a, b) {
      ScriptCostsAtLeastDistance(ops, a, b);
    }
  }

  /** Optimality below the size guard: as many kept lines as any common subsequence has,
      and no edit script from old to new with fewer insertions and deletions. */
  lemma ScriptIsOptimal<Line>(a: seq<Line>, b: seq<Line>)
    requires |a| <= SIZE_GUARD && |b| <= SIZE_GUARD
    ensures |Kept(Script(a, b))| == Lcs(a, b)
    ensures Subseq(Kept(Script(a, b)), a) && Subseq(Kept(Script(a, b)), b)
    ensures forall c :: Subseq(c, a) && Subseq(c, b) ==> |c| <= |Kept(Script(a, b))|
    ensures Cost(Script(a, b)) == Distance(a, b)
    ensures forall ops :: Transforms(ops, a, b) ==> Cost(ops) >= Cost(Script(a, b))
  {
    WalkTransforms(a, b);
    KeptLines(Walk(a, b));
    DistanceIsLeastCost(a, b);
    forall c | Subseq(c, a) && Subseq(c, b) ensures |c| <= |Kept(Script(a, b))| {
      LcsIsUpperBound(c, a, b);
    }
  }

  lemma {:induction false} SingletonSubseq<Line>(x: Line, a: seq<Line>)
    requires x in a
    ensures Subseq([x], a)
  {
    if x != a[0] {
      SingletonSubseq(x, a[1..]);
    }
  }

  lemma {:induction false} SubseqHead<Line>(c: seq<Line>, a: seq<Line>)
    requires c != [] && Subseq(c, a)
    ensures c[0] in a
  {
    if !(c[0] == a[0] && Subseq(c[1..], a[1..])) {
      SubseqHead(c, a[1..]);
    }
  }

  /** Above the guard the script keeps nothing, so it is optimal exactly when
      the two sides have no line in common. */
  lemma GuardedScriptCost<Line>(a: seq<Line>, b: seq<Line>)
    requires |a| > SIZE_GUARD || |b| > SIZE_GUARD
    ensures Cost(Script(a, b)) == |a| + |b|
    ensures Cost(Script(a, b)) == Distance(a, b) <==> forall x :: x in a ==> x !in b
  {
    DelAllSides(a);
    InsAllSides(b);
    SidesAppend(DelAll(a), InsAll(b));
    WalkTransforms(a, b);
    KeptLines(Walk(a, b));
    var c := Kept(Walk(a, b));
    if x :| x in a && x in b {
      SingletonSubseq(x, a);
      SingletonSubseq(x, b);
      LcsIsUpperBound([x], a, b);
    } else if c != [] {
      SubseqHead(c, a);
      SubseqHead(c, b);
    }
  }

  /** Two scripts in a row as one script, never dearer than the two. */
  ghost function Compose<Line>(s: seq<Op<Line>>, t: seq<Op<Line>>): (r: seq<Op<Line>>)
    requires NewSide(s) == OldSide(t)
    ensures OldSide(r) == OldSide(s) && NewSide(r) == NewSide(t)
    ensures Cost(r) <= Cost(s) + Cost(t)
    decreases |s| + |t|
  {
    if s == [] && t == [] then []
    else if s != [] && s[0].Del? then [s[0]] + Compose(s[1..], t)
    else if t != [] && t[0].Ins? then [t[0]] + Compose(s, t[1..])
    else
      assert s != [] && t != [];
      assert NewSide(s)[1..] == NewSide(s[1..]) && OldSide(t)[1..] == OldSide(t[1..]);
      assert s[0].text == NewSide(s)[0] == OldSide(t)[0] == t[0].text;
      var rest := Compose(s[1..], t[1..]);
      if s[0].Eq? then [t[0]] + rest
      else if t[0].Eq? then [s[0]] + rest
      else rest
  }

  lemma TriangleInequality<Line>(a: seq<Line>, b: seq<Line>, c: seq<Line>)
    ensures Distance(a, c) <= Distance(a, b) + Distance(b, c)
  {
    WalkTransforms(a, b);
    WalkTransforms(b, c);
    KeptLines(Walk(a, b));
    KeptLines(Walk(b, c));
    var r := Compose(Walk(a, b), Walk(b, c));
    ScriptCostsAtLeastDistance(r, a, c);
  }

  // ---- The two sides of a range of operations ----

  /** The lines that operations `lo` to `hi` consume. */
  function OldRange<Line>(ops: seq<Op<Line>>, lo: nat, hi: nat): seq<Line>
    requires lo <= hi <= |ops|
    decreases hi - lo
  {
    if lo == hi then []
    else if ops[lo].Ins? then OldRange(ops, lo + 1, hi)
    else [ops[lo].text] + OldRange(ops, lo + 1, hi)
  }

  /** The lines that operations `lo` to `hi` produce. */
  function NewRange<Line>(ops: seq<Op<Line>>, lo: nat, hi: nat): seq<Line>
    requires lo <= hi <= |ops|
    decreases hi - lo
  {
    if lo == hi then []
    else if ops[lo].Del? then NewRange(ops, lo + 1, hi)
    else [ops[lo].text] + NewRange(ops, lo + 1, hi)
  }

  lemma {:induction false} OldRangeSplit<Line>(ops: seq<Op<Line>>, lo: nat, mid: nat, hi: nat)
    requires lo <= mid <= hi <= |ops|
    ensures OldRange(ops, lo, hi) == OldRange(ops, lo, mid) + OldRange(ops, mid, hi)
    decreases mid - lo
  {
    if lo == mid {
      ConcatEmpty(OldRange(ops, mid, hi));
    } else {
      OldRangeSplit(ops, lo + 1, mid, hi);
      ConcatAssociates([ops[lo].text], OldRange(ops, lo + 1, mid), OldRange(ops, mid, hi));
    }
  }

  lemma {:induction false} NewRangeSplit<Line>(ops: seq<Op<Line>>, lo: nat, mid: nat, hi: nat)
    requires lo <= mid <= hi <= |ops|
    ensures NewRange(ops, lo, hi) == NewRange(ops, lo, mid) + NewRange(ops, mid, hi)
    decreases mid - lo
  {
    if lo == mid {
      ConcatEmpty(NewRange(ops, mid, hi));
    } else {
      NewRangeSplit(ops, lo + 1, mid, hi);
      ConcatAssociates([ops[lo].text], NewRange(ops, lo + 1, mid), NewRange(ops, mid, hi));
    }
  }

  lemma OldRangeNext<Line>(ops: seq<Op<Line>>, lo: nat, hi: nat)
    requires lo <= hi < |ops|
    ensures OldRange(ops, lo, hi + 1)
            == if ops[hi].Ins? then OldRange(ops, lo, hi) else OldRange(ops, lo, hi) + [ops[hi].text]
  {
    OldRangeSplit(ops, lo, hi, hi + 1);
  }

  lemma NewRangeNext<Line>(ops: seq<Op<Line>>, lo: nat, hi: nat)
    requires lo <= hi < |ops|
    ensures NewRange(ops, lo, hi + 1)
            == if ops[hi].Del? then NewRange(ops, lo, hi) else NewRange(ops, lo, hi) + [ops[hi].text]
  {
    NewRangeSplit(ops, lo, hi, hi + 1);
  }

  lemma {:induction false} WholeRange<Line>(ops: seq<Op<Line>>, lo: nat)
    requires lo <= |ops|
    ensures OldRange(ops, lo, |ops|) == OldSide(ops[lo..])
    ensures NewRange(ops, lo, |ops|) == NewSide(ops[lo..])
    decreases |ops| - lo
  {
    if lo < |ops| {
      WholeRange(ops, lo + 1);
      assert ops[lo..] == Prepend(ops[lo], ops[lo + 1..]);
    }
  }

  /** The sides of a script are those of its full range. */
  lemma SidesAreRanges<Line>(ops: seq<Op<Line>>)
    ensures OldRange(ops, 0, |ops|) == OldSide(ops) && NewRange(ops, 0, |ops|) == NewSide(ops)
  {
    WholeRange(ops, 0);
    assert ops[0..] == ops;
  }
}
