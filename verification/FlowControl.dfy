/** The watermark flow control of a session. */
module FlowControl {
  import opened Common

  const WATERMARK_HIGH: nat := 65536
  const WATERMARK_LOW: nat := 16384
  const READ_CHUNK_SIZE: nat := 65536

  /** `usize` arithmetic wraps. */
  const WORD: nat := 0x1_0000_0000_0000_0000

  type word = x: int | 0 <= x < WORD

  function WrapAdd(a: word, b: word): word {
    if a + b < WORD then a + b else a + b - WORD
  }

  function WrapSub(a: word, b: word): word {
    if b <= a then a - b else a - b + WORD
  }

  function SaturatingSub(a: nat, b: nat): nat {
    if a < b then 0 else a - b
  }

  datatype Flow = Flow(pending: word, paused: bool)

  function AfterAck(f: Flow, bytes: word): Flow {
    Flow(WrapSub(f.pending, bytes), f.paused && SaturatingSub(f.pending, bytes) > WATERMARK_LOW)
  }

  function AfterSent(f: Flow, bytes: word): Flow {
    var p := WrapAdd(f.pending, bytes);
    Flow(p, f.paused || p > WATERMARK_HIGH)
  }

  /** The counters of a session; each method of the source is one atomic step on them. */
  class Session {
    var seqCounter: nat
    var lastAckedSeq: nat
    var bytesPending: word
    var paused: bool

    constructor ()
      ensures seqCounter == 0 && lastAckedSeq == 0 && FlowState() == Flow(0, false)
    {
      seqCounter, lastAckedSeq, bytesPending, paused := 0, 0, 0, false;
    }

    function FlowState(): Flow
      reads this
    {
      Flow(bytesPending, paused)
    }

    method NextSeq() returns (seqNo: nat)
      modifies this`seqCounter
      ensures seqNo == old(seqCounter) && seqCounter == old(seqCounter) + 1
    {
      seqNo := seqCounter;
      seqCounter := seqCounter + 1;
    }

    /** The highest sequence number ever acknowledged is kept. */
    method Ack(seqNo: nat)
      modifies this`lastAckedSeq
      ensures lastAckedSeq == Max(old(lastAckedSeq), seqNo)
    {
      var prev := lastAckedSeq;
      if seqNo > prev {
        lastAckedSeq := seqNo;
      }
    }

    method RecordAck(bytes: word)
      modifies this`bytesPending, this`paused
      ensures FlowState() == AfterAck(old(FlowState()), bytes)
    {
      var pending := bytesPending;
      bytesPending := WrapSub(bytesPending, bytes);
      if SaturatingSub(pending, bytes) <= WATERMARK_LOW {
        paused := false;
      }
    }

    method RecordSent(bytes: word)
      modifies this`bytesPending, this`paused
      ensures FlowState() == AfterSent(old(FlowState()), bytes)
    {
      var pending := bytesPending;
      bytesPending := WrapAdd(bytesPending, bytes);
      if WrapAdd(pending, bytes) > WATERMARK_HIGH {
        paused := true;
      }
    }
  }

  // ---- Runs of reads and acknowledgements ----

  /** A read of the PTY reader, or an acknowledgement of consumed bytes. */
  datatype Step = Read(bytes: nat) | Acked(bytes: nat)

  /** The counters together with what has been sent and acknowledged in all. */
  datatype State = State(sent: nat, acked: nat, flow: Flow)

  predicate Initial(s: State) {
    s == State(0, 0, Flow(0, false))
  }

  /** Reads wait for the pause to end and are bounded by the read buffer; acknowledgements
      never exceed what is outstanding. */
  predicate Enabled(s: State, step: Step) {
    match step
    case Read(n) => !s.flow.paused && 1 <= n <= READ_CHUNK_SIZE
    case Acked(n) => n <= s.flow.pending
  }

  function Apply(s: State, step: Step): State
    requires Enabled(s, step)
  {
    match step
    case Read(n) => State(s.sent + n, s.acked, AfterSent(s.flow, n))
    case Acked(n) => State(s.sent, s.acked + n, AfterAck(s.flow, n))
  }

  predicate CanRun(s: State, steps: seq<Step>)
    decreases |steps|
  {
    steps == [] || (Enabled(s, steps[0]) && CanRun(Apply(s, steps[0]), steps[1..]))
  }

  function Run(s: State, steps: seq<Step>): State
    requires CanRun(s, steps)
    decreases |steps|
  {
    if steps == [] then s else Run(Apply(s, steps[0]), steps[1..])
  }

  ghost predicate Inv(s: State) {
    && s.acked <= s.sent
    && s.flow.pending == s.sent - s.acked
    && s.flow.pending <= WATERMARK_HIGH + READ_CHUNK_SIZE
    && (s.flow.pending > WATERMARK_HIGH ==> s.flow.paused)
    && (s.flow.paused ==> s.flow.pending > WATERMARK_LOW)
  }

  lemma {:induction false} RunKeepsInv(s: State, steps: seq<Step>)
    requires Inv(s) && CanRun(s, steps)
    ensures Inv(Run(s, steps))
    decreases |steps|
  {
    if steps != [] {
      RunKeepsInv(Apply(s, steps[0]), steps[1..]);
    }
  }

  /** Acknowledging everything outstanding ends the pause. */
  lemma FullAckResumes(s: State)
    requires Inv(s)
    ensures Enabled(s, Acked(s.flow.pending))
    ensures Apply(s, Acked(s.flow.pending)).flow == Flow(0, false)
  {
  }

  /** In every reachable state the books balance, memory is bounded, the pause is on above the
      high mark and off at or below the low mark; acknowledging everything outstanding always
      lets the reader read again. */
  lemma ReachableStates(start: State, steps: seq<Step>, s: State)
    requires Initial(start) && CanRun(start, steps) && s == Run(start, steps)
    ensures Inv(s)
    ensures Enabled(s, Acked(s.flow.pending)) && !Apply(s, Acked(s.flow.pending)).flow.paused
  {
    RunKeepsInv(start, steps);
    FullAckResumes(s);
  }

  /** As long as nothing is acknowledged, the pause is on exactly above the high mark. */
  ghost predicate Unacknowledged(s: State) {
    Inv(s) && s.acked == 0 && (s.flow.paused <==> s.sent > WATERMARK_HIGH)
  }

  predicate OnlyReads(steps: seq<Step>) {
    steps == [] || (steps[0].Read? && OnlyReads(steps[1..]))
  }

  lemma {:induction false} StaysUnacknowledged(s: State, steps: seq<Step>)
    requires Unacknowledged(s) && CanRun(s, steps) && OnlyReads(steps)
    ensures Unacknowledged(Run(s, steps))
    decreases |steps|
  {
    if steps != [] {
      StaysUnacknowledged(Apply(s, steps[0]), steps[1..]);
    }
  }

  lemma InitialUnacknowledged(start: State)
    requires Initial(start)
    ensures Unacknowledged(start)
  {
  }

  /** A read is possible exactly while at most the high mark has been sent. */
  ghost predicate ReadableWhileBelow(s: State) {
    forall n: nat :: Enabled(s, Read(n)) <==> s.sent <= WATERMARK_HIGH && 1 <= n <= READ_CHUNK_SIZE
  }

  lemma ReadsWhileBelow(s: State)
    requires Unacknowledged(s)
    ensures s.sent <= WATERMARK_HIGH + READ_CHUNK_SIZE && ReadableWhileBelow(s)
  {
  }

  /** The host never calls `record_ack` today. Without acknowledgements a session sends at most
      128 KiB in its whole life, and it can be read exactly as long as it has sent at most 64 KiB. */
  lemma WithoutAcksTheReaderStalls(start: State, steps: seq<Step>, s: State)
    requires Initial(start) && CanRun(start, steps) && s == Run(start, steps)
    requires OnlyReads(steps)
    ensures s.acked == 0 && s.sent <= WATERMARK_HIGH + READ_CHUNK_SIZE && ReadableWhileBelow(s)
  {
    InitialUnacknowledged(start);
    StaysUnacknowledged(start, steps);
    ReadsWhileBelow(s);
  }

  /** The bound on acknowledgements is needed: an acknowledgement keeps the books balanced
      exactly when it does not exceed what is outstanding. */
  lemma AckBalancesIffCovered(s: State, bytes: word)
    requires Inv(s)
    ensures AfterAck(s.flow, bytes).pending == s.sent - (s.acked + bytes) <==> bytes <= s.flow.pending
  {
  }
}
