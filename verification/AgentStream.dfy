/** Turning the lines of an agent CLI's stream-json output into protocol events. */
module AgentStream {
  import opened Common

  /** One content block of an assistant or user message. */
  datatype Block =
    | Thinking(text: string)
    | Text(text: string)
    | ToolUse(title: string, code: Option<string>)
    | ToolResult(text: string, isError: bool)
    | OtherBlock

  /** What a line says. Lines that are not UTF-8, not JSON objects or of no known shape are ignored. */
  datatype LineMeaning =
    | Assistant(blocks: seq<Block>)
    | User(blocks: seq<Block>)
    | Permission(requestId: string, scope: string, command: string)
    | Ignored

  datatype EventKind = Thought | Action | Observation

  datatype Event =
    | AgentEvent(kind: EventKind, text: string, code: Option<string>, title: Option<string>, status: Option<string>,
                 seqNo: nat)
    | ApprovalRequest(requestId: string, scope: string, command: string)

  /** The event of one assistant block, if it has one: empty texts have none. */
  function AssistantEvent(b: Block, seqNo: nat): Option<Event> {
    match b
    case Thinking(t) => if t == "" then None else Some(AgentEvent(Thought, t, None, None, None, seqNo))
    case Text(t) => if t == "" then None else Some(AgentEvent(Thought, t, None, None, None, seqNo))
    case ToolUse(l, c) => Some(AgentEvent(Action, "", c, Some(l), Some("running"), seqNo))
    case _ => None
  }

  /** The event of one user block: only tool results have one. */
  function UserEvent(b: Block, seqNo: nat): Option<Event> {
    match b
    case ToolResult(t, isError) =>
      Some(AgentEvent(Observation, t, None, None, Some(if isError then "error" else "done"), seqNo))
    case _ => None
  }

  function BlockEvent(b: Block, assistant: bool, seqNo: nat): Option<Event> {
    if assistant then AssistantEvent(b, seqNo) else UserEvent(b, seqNo)
  }

  /** The events of the first `n` blocks, numbered from `seqNo`. */
  function BlockEvents(blocks: seq<Block>, assistant: bool, seqNo: nat, n: nat): seq<Event>
    requires n <= |blocks|
  {
    if n == 0 then []
    else
      var before := BlockEvents(blocks, assistant, seqNo, n - 1);
      var e := BlockEvent(blocks[n - 1], assistant, seqNo + |before|);
      if e.Some? then before + [e.value] else before
  }

  /** The events of a line, and how many sequence numbers it uses. */
  function LineEvents(m: LineMeaning, seqNo: nat): seq<Event> {
    match m
    case Assistant(bs) => BlockEvents(bs, true, seqNo, |bs|)
    case User(bs) => BlockEvents(bs, false, seqNo, |bs|)
    case Permission(r, s, c) => [ApprovalRequest(r, s, c)]
    case Ignored => []
  }

  function SeqUsed(m: LineMeaning, seqNo: nat): nat {
    if m.Permission? then 0 else |LineEvents(m, seqNo)|
  }

  class AgentStreamParser {
    const interpret: seq<byte> -> LineMeaning
    var nextSeq: nat

    constructor (interpret: seq<byte> -> LineMeaning)
      ensures this.interpret == interpret && nextSeq == 0
    {
      this.interpret := interpret;
      nextSeq := 0;
    }

    method PushLine(line: seq<byte>) returns (out: seq<Event>)
      modifies this
      ensures out == LineEvents(interpret(line), old(nextSeq))
      ensures nextSeq == old(nextSeq) + SeqUsed(interpret(line), old(nextSeq))
    {
      match interpret(line) {
        case Assistant(blocks) => out := ParseBlocks(blocks, true);
        case User(blocks) => out := ParseBlocks(blocks, false);
        case Permission(r, s, c) => out := [ApprovalRequest(r, s, c)];
        case Ignored => out := [];
      }
    }

    method ParseBlocks(blocks: seq<Block>, assistant: bool) returns (out: seq<Event>)
      modifies this
      ensures out == BlockEvents(blocks, assistant, old(nextSeq), |blocks|)
      ensures nextSeq == old(nextSeq) + |out|
    {
      out := [];
      for i := 0 to |blocks|
        invariant out == BlockEvents(blocks, assistant, old(nextSeq), i)
        invariant nextSeq == old(nextSeq) + |out|
      {
        var e := BlockEvent(blocks[i], assistant, nextSeq);
        if e.Some? {
          out := out + [e.value];
          nextSeq := nextSeq + 1;
        }
      }
    }
  }

  /** The parser's counter after the first `n` lines. */
  function StreamSeq(interpret: seq<byte> -> LineMeaning, lines: seq<seq<byte>>, n: nat): nat
    requires n <= |lines|
  {
    if n == 0 then 0
    else StreamSeq(interpret, lines, n - 1) + SeqUsed(interpret(lines[n - 1]), StreamSeq(interpret, lines, n - 1))
  }

  /** The events of the first `n` lines of a stream, parsed from a fresh parser. */
  function StreamEvents(interpret: seq<byte> -> LineMeaning, lines: seq<seq<byte>>, n: nat): seq<Event>
    requires n <= |lines|
  {
    if n == 0 then []
    else StreamEvents(interpret, lines, n - 1) + LineEvents(interpret(lines[n - 1]), StreamSeq(interpret, lines, n - 1))
  }

  /** How many numbered events there are among the first `n`. */
  function NumberedBefore(events: seq<Event>, n: nat): nat
    requires n <= |events|
  {
    if n == 0 then 0 else NumberedBefore(events, n - 1) + (if events[n - 1].AgentEvent? then 1 else 0)
  }

  /** Numbered events carry `first`, `first + 1`, ... in order. */
  ghost predicate Consecutive(events: seq<Event>, first: nat) {
    forall i :: 0 <= i < |events| && events[i].AgentEvent? ==> events[i].seqNo == first + NumberedBefore(events, i)
  }

  lemma {:induction false} NumberedPrefix(a: seq<Event>, b: seq<Event>, i: nat)
    requires i <= |a|
    ensures NumberedBefore(a + b, i) == NumberedBefore(a, i)
  {
    if i > 0 {
      NumberedPrefix(a, b, i - 1);
    }
  }

  lemma {:induction false} NumberedAppend(a: seq<Event>, b: seq<Event>, i: nat)
    requires i <= |b|
    ensures NumberedBefore(a + b, |a| + i) == NumberedBefore(a, |a|) + NumberedBefore(b, i)
  {
    if i == 0 {
      NumberedPrefix(a, b, |a|);
    } else {
      NumberedAppend(a, b, i - 1);
    }
  }

  lemma ConsecutiveAppend(a: seq<Event>, b: seq<Event>, first: nat)
    requires Consecutive(a, first) && Consecutive(b, first + NumberedBefore(a, |a|))
    ensures Consecutive(a + b, first)
    ensures NumberedBefore(a + b, |a + b|) == NumberedBefore(a, |a|) + NumberedBefore(b, |b|)
  {
    NumberedAppend(a, b, |b|);
    forall i | 0 <= i < |a + b| && (a + b)[i].AgentEvent?
      ensures (a + b)[i].seqNo == first + NumberedBefore(a + b, i)
    {
      if i < |a| {
        NumberedPrefix(a, b, i);
      } else {
        NumberedAppend(a, b, i - |a|);
      }
    }
  }

  lemma SingleIsNumbered(e: Event, seqNo: nat)
    requires e.AgentEvent? && e.seqNo == seqNo
    ensures Consecutive([e], seqNo) && NumberedBefore([e], |[e]|) == 1
  {
    assert NumberedBefore([e], 0) == 0;
  }

  /** Agent events only, numbered from `first`. */
  predicate AllNumbered(events: seq<Event>, first: nat) {
    events == [] ||
    var last := |events| - 1;
    AllNumbered(events[..last], first) && events[last].AgentEvent? && events[last].seqNo == first + last
  }

  lemma EventAfterEvents(before: seq<Event>, e: Event, first: nat, events: seq<Event>)
    requires Consecutive(before, first) && NumberedBefore(before, |before|) == |before|
    requires e.AgentEvent? && e.seqNo == first + |before| && events == before + [e]
    ensures Consecutive(events, first) && NumberedBefore(events, |events|) == |events|
  {
    SingleIsNumbered(e, first + |before|);
    ConsecutiveAppend(before, [e], first);
  }

  lemma {:induction false} AllNumberedMeans(events: seq<Event>, first: nat)
    requires AllNumbered(events, first)
    ensures Consecutive(events, first) && NumberedBefore(events, |events|) == |events|
  {
    if events != [] {
      var last := |events| - 1;
      AllNumberedMeans(events[..last], first);
      EventAfterEvents(events[..last], events[last], first, events);
    }
  }

  /** One more block gives an event with the next number, or none. */
  lemma BlockEventsNext(blocks: seq<Block>, assistant: bool, seqNo: nat, n: nat) returns (e: Option<Event>)
    requires n < |blocks|
    ensures var before := BlockEvents(blocks, assistant, seqNo, n);
            && BlockEvents(blocks, assistant, seqNo, n + 1) == (if e.Some? then before + [e.value] else before)
            && (e.Some? ==> e.value.AgentEvent? && e.value.seqNo == seqNo + |before|)
  {
    e := BlockEvent(blocks[n], assistant, seqNo + |BlockEvents(blocks, assistant, seqNo, n)|);
  }

  lemma AllNumberedNext(before: seq<Event>, e: Option<Event>, first: nat, events: seq<Event>)
    requires AllNumbered(before, first) && (e.Some? ==> e.value.AgentEvent? && e.value.seqNo == first + |before|)
    requires events == if e.Some? then before + [e.value] else before
    ensures AllNumbered(events, first)
  {
    if e.Some? {
      assert events[..|before|] == before;
    }
  }

  lemma {:induction false} BlocksAreNumbered(blocks: seq<Block>, assistant: bool, seqNo: nat, n: nat)
    requires n <= |blocks|
    ensures AllNumbered(BlockEvents(blocks, assistant, seqNo, n), seqNo)
  {
    if n > 0 {
      BlocksAreNumbered(blocks, assistant, seqNo, n - 1);
      var e := BlockEventsNext(blocks, assistant, seqNo, n - 1);
      AllNumberedNext(BlockEvents(blocks, assistant, seqNo, n - 1), e, seqNo, BlockEvents(blocks, assistant, seqNo, n));
    }
  }

  lemma LineIsNumbered(m: LineMeaning, seqNo: nat)
    ensures Consecutive(LineEvents(m, seqNo), seqNo)
    ensures NumberedBefore(LineEvents(m, seqNo), |LineEvents(m, seqNo)|) == SeqUsed(m, seqNo)
  {
    match m
    case Assistant(bs) =>
      BlocksAreNumbered(bs, true, seqNo, |bs|);
      AllNumberedMeans(LineEvents(m, seqNo), seqNo);
    case User(bs) =>
      BlocksAreNumbered(bs, false, seqNo, |bs|);
      AllNumberedMeans(LineEvents(m, seqNo), seqNo);
    case Permission(_, _, _) => assert NumberedBefore(LineEvents(m, seqNo), 0) == 0;
    case Ignored =>
  }

  lemma LineAfterStream(before: seq<Event>, m: LineMeaning, seqNo: nat)
    requires Consecutive(before, 0) && NumberedBefore(before, |before|) == seqNo
    ensures var es := before + LineEvents(m, seqNo);
            Consecutive(es, 0) && NumberedBefore(es, |es|) == seqNo + SeqUsed(m, seqNo)
  {
    LineIsNumbered(m, seqNo);
    ConsecutiveAppend(before, LineEvents(m, seqNo), 0);
  }

  /** Over a whole stream the agent events are numbered 0, 1, 2, ... without gaps, whatever
      lines carry them; approval requests use no number. */
  lemma {:induction false} StreamIsNumbered(interpret: seq<byte> -> LineMeaning, lines: seq<seq<byte>>, n: nat)
    requires n <= |lines|
    ensures var es := StreamEvents(interpret, lines, n);
            Consecutive(es, 0) && NumberedBefore(es, |es|) == StreamSeq(interpret, lines, n)
  {
    if n > 0 {
      StreamIsNumbered(interpret, lines, n - 1);
      LineAfterStream(StreamEvents(interpret, lines, n - 1), interpret(lines[n - 1]),
                      StreamSeq(interpret, lines, n - 1));
    }
  }
}
