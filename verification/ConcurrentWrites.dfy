/** Several writes of one remote path at once. Their commands share the temporary file: each opens it, which
    empties it, lets the decoder write into the file it opened, and renames whatever has that name then. */
module ConcurrentWrites {
  import opened Common

  /** A file behind its names. */
  type Inode = nat

  /** Where a command is: the decoder writes at its own position of the file that was opened. */
  datatype Phase = Waiting | Writing(file: Inode, at: nat) | Decoded | Renamed | Refused | Dead

  /** The directory with the two names that matter, and the commands. */
  datatype State = State(tmp: Option<Inode>, path: Option<Inode>, files: map<Inode, seq<byte>>, commands: seq<Phase>)

  datatype Step = Open(w: nat, inode: Inode) | Put(w: nat) | Finish(w: nat) | Move(w: nat) | Die(w: nat)

  /** Writing behind the end leaves a hole of zeros. */
  function PutByte(data: seq<byte>, at: nat, b: byte): seq<byte> {
    if at < |data| then data[at := b] else data + seq(at - |data|, _ => 0) + [b]
  }

  predicate Enabled(s: State, contents: seq<seq<byte>>, step: Step) {
    && step.w < |s.commands| == |contents|
    && var phase := s.commands[step.w];
       match step
       case Open(_, inode) => phase.Waiting? && inode !in s.files && (s.tmp.Some? ==> s.tmp.value in s.files)
       case Put(w) => phase.Writing? && phase.file in s.files && phase.at < |contents[w]|
       case Finish(w) => phase.Writing? && phase.at == |contents[w]|
       case Move(_) => phase.Decoded?
       case Die(_) => !phase.Renamed? && !phase.Refused?
  }

  function SetPhase(s: State, w: nat, phase: Phase): State
    requires w < |s.commands|
  {
    s.(commands := s.commands[w := phase])
  }

  function Apply(s: State, contents: seq<seq<byte>>, step: Step): State
    requires Enabled(s, contents, step)
  {
    match step
    case Open(w, inode) =>
      var file := if s.tmp.Some? then s.tmp.value else inode;
      SetPhase(s, w, Writing(file, 0)).(tmp := Some(file), files := s.files[file := []])
    case Put(w) =>
      var p := s.commands[w];
      SetPhase(s, w, Writing(p.file, p.at + 1))
      .(files := s.files[p.file := PutByte(s.files[p.file], p.at, contents[w][p.at])])
    case Finish(w) => SetPhase(s, w, Decoded)
    case Move(w) =>
      if s.tmp.Some? then SetPhase(s, w, Renamed).(tmp := None, path := s.tmp) else SetPhase(s, w, Refused)
    case Die(w) => SetPhase(s, w, Dead)
  }

  predicate CanRun(s: State, contents: seq<seq<byte>>, steps: seq<Step>)
    decreases |steps|
  {
    steps == [] || (Enabled(s, contents, steps[0]) && CanRun(Apply(s, contents, steps[0]), contents, steps[1..]))
  }

  function Run(s: State, contents: seq<seq<byte>>, steps: seq<Step>): State
    requires CanRun(s, contents, steps)
    decreases |steps|
  {
    if steps == [] then s else Run(Apply(s, contents, steps[0]), contents, steps[1..])
  }

  // ---- Whatever the interleaving ----

  ghost predicate Written(b: byte, contents: seq<seq<byte>>, i: nat) {
    exists w :: 0 <= w < |contents| && i < |contents[w]| && contents[w][i] == b
  }

  /** Every byte is one that some command writes at that position, or a hole. */
  ghost predicate Mixed(data: seq<byte>, contents: seq<seq<byte>>) {
    forall i :: 0 <= i < |data| ==> data[i] == 0 || Written(data[i], contents, i)
  }

  /** The file is the left-over temporary one, or was not there at the start. */
  predicate Opened(start: State, f: Inode) {
    f !in start.files || start.tmp == Some(f)
  }

  ghost predicate IsMixed(s: State, contents: seq<seq<byte>>, f: Inode) {
    f in s.files && Mixed(s.files[f], contents)
  }

  /** From the first opening on the temporary file is mixed. */
  ghost predicate CommandInv(s: State, start: State, contents: seq<seq<byte>>, phase: Phase) {
    && (phase.Writing? ==> Opened(start, phase.file) && IsMixed(s, contents, phase.file))
    && (!phase.Waiting? && !phase.Dead? && s.tmp.Some? ==> IsMixed(s, contents, s.tmp.value))
  }

  /** All files but a left-over temporary one are kept; what was opened is mixed, and only that is written. */
  ghost predicate Inv(s: State, start: State, contents: seq<seq<byte>>) {
    && (forall f :: f in start.files && start.tmp != Some(f) ==> f in s.files && s.files[f] == start.files[f])
    && (s.tmp.Some? ==> s.tmp.value in s.files && Opened(start, s.tmp.value))
    && (s.path == start.path || (s.path.Some? && IsMixed(s, contents, s.path.value) && Opened(start, s.path.value)))
    && (forall w :: 0 <= w < |s.commands| ==> CommandInv(s, start, contents, s.commands[w]))
  }

  ghost predicate Initial(s: State) {
    && (s.tmp.Some? ==> s.tmp.value in s.files && s.path != s.tmp)
    && (s.path.Some? ==> s.path.value in s.files)
    && forall w :: 0 <= w < |s.commands| ==> s.commands[w].Waiting?
  }

  lemma PutKeepsMixed(data: seq<byte>, contents: seq<seq<byte>>, w: nat, at: nat)
    requires Mixed(data, contents) && w < |contents| && at < |contents[w]|
    ensures Mixed(PutByte(data, at, contents[w][at]), contents)
  {
    var more := PutByte(data, at, contents[w][at]);
    forall i | 0 <= i < |more| ensures more[i] == 0 || Written(more[i], contents, i) {
      if i == at {
        assert contents[w][i] == more[i];
      } else if i < |data| {
        assert more[i] == data[i];
      }
    }
  }

  lemma StepKeepsInv(s: State, start: State, contents: seq<seq<byte>>, step: Step)
    requires Inv(s, start, contents) && Enabled(s, contents, step)
    ensures Inv(Apply(s, contents, step), start, contents)
  {
    if step.Put? {
      var p := s.commands[step.w];
      assert CommandInv(s, start, contents, p);
      PutKeepsMixed(s.files[p.file], contents, step.w, p.at);
    } else if step.Move? {
      assert CommandInv(s, start, contents, s.commands[step.w]);
    }
  }

  lemma {:induction false} RunKeepsInv(s: State, start: State, contents: seq<seq<byte>>, steps: seq<Step>)
    requires Inv(s, start, contents) && CanRun(s, contents, steps)
    ensures Inv(Run(s, contents, steps), start, contents)
    decreases |steps|
  {
    if steps != [] {
      StepKeepsInv(s, start, contents, steps[0]);
      RunKeepsInv(Apply(s, contents, steps[0]), start, contents, steps[1..]);
    }
  }

  /** However many writes of the path overlap, and wherever each of them stops: at every moment the path is as
      it was, or holds at every position a byte that one of the writes has there, or a hole; and no other
      file is touched. */
  lemma PathIsOldOrMixed(start: State, contents: seq<seq<byte>>, steps: seq<Step>, s: State)
    requires Initial(start) && CanRun(start, contents, steps) && s == Run(start, contents, steps)
    ensures || (s.path == start.path
                && (s.path.Some? ==> s.path.value in s.files && s.files[s.path.value] == start.files[s.path.value]))
            || (s.path.Some? && IsMixed(s, contents, s.path.value))
    ensures forall f :: f in start.files && start.tmp != Some(f) ==> f in s.files && s.files[f] == start.files[f]
  {
    RunKeepsInv(start, start, contents, steps);
  }

  // ---- A write that nobody disturbs ----

  /** What command `w` has written so far is all that is in the temporary file. */
  predicate Undisturbed(s: State, contents: seq<seq<byte>>, w: nat) {
    && w < |s.commands| == |contents| && s.tmp.Some? && s.tmp.value in s.files
    && match s.commands[w]
       case Writing(file, at) => s.tmp == Some(file) && at <= |contents[w]| && s.files[file] == contents[w][..at]
       case Decoded => s.files[s.tmp.value] == contents[w]
       case _ => false
  }

  /** Opening, writing and renaming are what disturbs others. */
  predicate Disturbs(step: Step, w: nat) {
    if step.w == w then step.Move? || step.Die? else step.Open? || step.Put? || step.Move?
  }

  lemma StepKeepsUndisturbed(s: State, contents: seq<seq<byte>>, step: Step, w: nat)
    requires Undisturbed(s, contents, w) && Enabled(s, contents, step) && !Disturbs(step, w)
    ensures Undisturbed(Apply(s, contents, step), contents, w)
  {
    if step == Put(w) {
      var at := s.commands[w].at;
      assert contents[w][..at + 1] == contents[w][..at] + [contents[w][at]];
    } else if step == Finish(w) {
      assert contents[w][..|contents[w]|] == contents[w];
    }
  }

  lemma {:induction false} RunKeepsUndisturbed(s: State, contents: seq<seq<byte>>, steps: seq<Step>, w: nat)
    requires Undisturbed(s, contents, w) && CanRun(s, contents, steps)
    requires forall j :: 0 <= j < |steps| ==> !Disturbs(steps[j], w)
    ensures Undisturbed(Run(s, contents, steps), contents, w)
    decreases |steps|
  {
    if steps != [] {
      StepKeepsUndisturbed(s, contents, steps[0], w);
      forall j | 0 <= j < |steps[1..]| ensures !Disturbs(steps[1..][j], w) {
        assert steps[1..][j] == steps[j + 1];
      }
      RunKeepsUndisturbed(Apply(s, contents, steps[0]), contents, steps[1..], w);
    }
  }

  /** A write puts exactly its content under the path if no other write opens, writes or renames between its
      own opening and its rename, wherever the others are. */
  lemma UndisturbedWriteIsExact(s: State, contents: seq<seq<byte>>, w: nat, inode: Inode, steps: seq<Step>)
    requires Enabled(s, contents, Open(w, inode)) && CanRun(Apply(s, contents, Open(w, inode)), contents, steps)
    requires forall j :: 0 <= j < |steps| ==> !Disturbs(steps[j], w)
    requires Enabled(Run(Apply(s, contents, Open(w, inode)), contents, steps), contents, Move(w))
    ensures var t := Apply(Run(Apply(s, contents, Open(w, inode)), contents, steps), contents, Move(w));
            t.tmp.None? && t.path.Some? && t.path.value in t.files && t.files[t.path.value] == contents[w]
  {
    assert contents[w][..0] == [];
    RunKeepsUndisturbed(Apply(s, contents, Open(w, inode)), contents, steps, w);
  }

  // ---- Two writes that overlap ----

  lemma RunStep(s: State, contents: seq<seq<byte>>, step: Step, rest: seq<Step>)
    requires Enabled(s, contents, step) && CanRun(Apply(s, contents, step), contents, rest)
    ensures CanRun(s, contents, [step] + rest)
    ensures Run(s, contents, [step] + rest) == Run(Apply(s, contents, step), contents, rest)
  {
    assert ([step] + rest)[1..] == rest;
  }

  /** A write of one byte that is complete but not yet renamed, when another write opens the temporary file:
      the rename succeeds and leaves an empty file under the path. */
  lemma OverlapLosesContent(b: byte, other: seq<byte>) returns (steps: seq<Step>)
    ensures var contents, start := [[b], other], State(None, None, map[], [Waiting, Waiting]);
            && Initial(start) && CanRun(start, contents, steps)
            && var s := Run(start, contents, steps);
               |s.commands| == 2 && s.commands[0] == Renamed && s.path == Some(0) && 0 in s.files && s.files[0] == []
  {
    var contents, start := [[b], other], State(None, None, map[], [Waiting, Waiting]);
    var s1 := Apply(start, contents, Open(0, 0));
    assert s1.commands == [Writing(0, 0), Waiting] && s1.tmp == Some(0) && s1.files.Keys == {0};
    var s2 := Apply(s1, contents, Put(0));
    assert s2.commands == [Writing(0, 1), Waiting] && s2.tmp == Some(0) && s2.files.Keys == {0};
    var s3 := Apply(s2, contents, Finish(0));
    assert s3.commands == [Decoded, Waiting] && s3.tmp == Some(0) && s3.files.Keys == {0};
    var s4 := Apply(s3, contents, Open(1, 1));
    assert s4.commands == [Decoded, Writing(0, 0)] && s4.tmp == Some(0) && 0 in s4.files && s4.files[0] == [];
    var last := [Move(0)] + [];
    RunStep(s4, contents, Move(0), []);
    RunStep(s3, contents, Open(1, 1), last);
    var lastTwo := [Open(1, 1)] + last;
    RunStep(s2, contents, Finish(0), lastTwo);
    var lastThree := [Finish(0)] + lastTwo;
    RunStep(s1, contents, Put(0), lastThree);
    RunStep(start, contents, Open(0, 0), [Put(0)] + lastThree);
    steps := [Open(0, 0)] + ([Put(0)] + lastThree);
  }
}
