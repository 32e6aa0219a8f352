/** The reader loop of a PTY session: raw output is forwarded as terminal data, and its
    newline-delimited lines are fed to the agent-stream parser. */
module PtyReader {
  import opened Common
  import opened AgentStream
  import opened FlowControl

  const NEWLINE: byte := 10

  /** A partial line longer than this is dropped. */
  const LINE_CAP: nat := 1_048_576

  /** The complete lines of a stream, each with its newline, and the bytes after the last one. */
  datatype Split = Split(lines: seq<seq<byte>>, rest: seq<byte>)

  function SplitStream(s: seq<byte>): Split {
    if s == [] then Split([], [])
    else
      var p, b := SplitStream(s[..|s| - 1]), s[|s| - 1];
      if b == NEWLINE then Split(p.lines + [p.rest + [b]], []) else Split(p.lines, p.rest + [b])
  }

  predicate IsLine(l: seq<byte>) {
    l != [] && l[|l| - 1] == NEWLINE && forall i :: 0 <= i < |l| - 1 ==> l[i] != NEWLINE
  }

  lemma {:induction false} SplitNext(s: seq<byte>, b: byte)
    ensures SplitStream(s + [b])
            == var p := SplitStream(s);
               if b == NEWLINE then Split(p.lines + [p.rest + [b]], []) else Split(p.lines, p.rest + [b])
  {
    assert (s + [b])[..|s|] == s;
  }

  lemma FlattenOne<T>(part: seq<T>)
    ensures Flatten([part]) == part
  {
    assert [part][1..] == [];
    ConcatEmpty(part);
  }

  lemma LineIsClosed(lines: seq<seq<byte>>, rest: seq<byte>, b: byte)
    ensures Flatten(lines + [rest + [b]]) + [] == Flatten(lines) + rest + [b]
  {
    FlattenAppend(lines, [rest + [b]]);
    FlattenOne(rest + [b]);
    ConcatAssociates(Flatten(lines), rest, [b]);
    ConcatEmpty(Flatten(lines + [rest + [b]]));
  }

  /** Splitting loses nothing, and what it calls lines are lines. */
  lemma {:induction false} SplitIsExact(s: seq<byte>)
    ensures Flatten(SplitStream(s).lines) + SplitStream(s).rest == s
    ensures NEWLINE !in SplitStream(s).rest
    ensures forall l :: l in SplitStream(s).lines ==> IsLine(l)
  {
    if s != [] {
      var t, b := s[..|s| - 1], s[|s| - 1];
      SplitIsExact(t);
      var p := SplitStream(t);
      assert s == t + [b];
      if b == NEWLINE {
        LineIsClosed(p.lines, p.rest, b);
      } else {
        ConcatAssociates(Flatten(p.lines), p.rest, [b]);
      }
    }
  }

  lemma {:induction false} NoNewlineNoLine(s: seq<byte>)
    requires NEWLINE !in s
    ensures SplitStream(s) == Split([], s)
  {
    if s != [] {
      NoNewlineNoLine(s[..|s| - 1]);
      assert s == s[..|s| - 1] + [s[|s| - 1]];
    }
  }

  /** Splitting can be resumed from the rest. */
  lemma {:induction false} SplitAppend(a: seq<byte>, b: seq<byte>)
    ensures SplitStream(a + b)
            == var p := SplitStream(a); var q := SplitStream(p.rest + b);
               Split(p.lines + q.lines, q.rest)
    decreases |b|
  {
    var p := SplitStream(a);
    if b == [] {
      ConcatEmpty(a);
      ConcatEmpty(p.rest);
      SplitIsExact(a);
      NoNewlineNoLine(p.rest);
      ConcatEmpty(p.lines);
    } else {
      var c, x := b[..|b| - 1], b[|b| - 1];
      assert a + b == (a + c) + [x] && p.rest + b == (p.rest + c) + [x];
      SplitAppend(a, c);
      SplitNext(a + c, x);
      SplitNext(p.rest + c, x);
      if x == NEWLINE {
        var q := SplitStream(p.rest + c);
        ConcatAssociates(p.lines, q.lines, [q.rest + [x]]);
      }
    }
  }

  // ---- The loop ----

  function NewlinePos(s: seq<byte>): (pos: nat)
    ensures pos <= |s| && forall i :: 0 <= i < pos ==> s[i] != NEWLINE
    ensures pos < |s| ==> s[pos] == NEWLINE
  {
    if s == [] || s[0] == NEWLINE then 0 else 1 + NewlinePos(s[1..])
  }

  lemma LineIsOneLine(l: seq<byte>)
    requires IsLine(l)
    ensures SplitStream(l) == Split([l], [])
  {
    var x := l[..|l| - 1];
    NoNewlineNoLine(x);
    assert l == x + [NEWLINE];
  }

  /** Taking one line off the front of the buffer. */
  lemma TakeLine(buf: seq<byte>, pos: nat)
    requires pos < |buf| && IsLine(buf[..pos + 1])
    ensures SplitStream(buf)
            == Split([buf[..pos + 1]] + SplitStream(buf[pos + 1..]).lines, SplitStream(buf[pos + 1..]).rest)
  {
    var l, more := buf[..pos + 1], buf[pos + 1..];
    LineIsOneLine(l);
    assert buf == l + more;
    ConcatEmpty(more);
    SplitAppend(l, more);
  }

  /** What one read makes of the partial-line buffer: the lines it completes, and the new
      buffer, emptied if it has grown past the cap. */
  function FeedChunk(lineBuf: seq<byte>, chunk: seq<byte>): Split {
    var p := SplitStream(lineBuf + chunk);
    Split(p.lines, if |p.rest| > LINE_CAP then [] else p.rest)
  }

  function FeedAll(lineBuf: seq<byte>, chunks: seq<seq<byte>>): Split
    decreases |chunks|
  {
    if chunks == [] then Split([], lineBuf)
    else
      var p := FeedChunk(lineBuf, chunks[0]);
      var q := FeedAll(p.rest, chunks[1..]);
      Split(p.lines + q.lines, q.rest)
  }

  datatype Msg = Agent(event: Event) | TerminalData(data: seq<byte>, seqNo: nat)

  function Agents(msgs: seq<Msg>): seq<Event> {
    if msgs == [] then []
    else
      var before, m := Agents(msgs[..|msgs| - 1]), msgs[|msgs| - 1];
      if m.Agent? then before + [m.event] else before
  }

  function Terminals(msgs: seq<Msg>): seq<(seq<byte>, nat)> {
    if msgs == [] then []
    else
      var before, m := Terminals(msgs[..|msgs| - 1]), msgs[|msgs| - 1];
      if m.TerminalData? then before + [(m.data, m.seqNo)] else before
  }

  lemma ProjectNext(msgs: seq<Msg>, m: Msg)
    ensures Agents(msgs + [m]) == if m.Agent? then Agents(msgs) + [m.event] else Agents(msgs)
    ensures Terminals(msgs + [m]) == if m.TerminalData? then Terminals(msgs) + [(m.data, m.seqNo)] else Terminals(msgs)
  {
    assert (msgs + [m])[..|msgs|] == msgs;
  }

  function AsAgents(events: seq<Event>): (msgs: seq<Msg>)
    ensures |msgs| == |events| && forall i :: 0 <= i < |events| ==> msgs[i] == Agent(events[i])
  {
    seq(|events|, i requires 0 <= i < |events| => Agent(events[i]))
  }

  lemma AsAgentsAppend(a: seq<Event>, b: seq<Event>)
    ensures AsAgents(a + b) == AsAgents(a) + AsAgents(b)
  {
  }

  /** Forwards the events of one line. */
  method SendEvents(msgs: seq<Msg>, events: seq<Event>) returns (r: seq<Msg>)
    ensures r == msgs + AsAgents(events)
  {
    r := msgs;
    ConcatEmpty(msgs);
    for i := 0 to |events|
      invariant r == msgs + AsAgents(events)[..i]
    {
      assert AsAgents(events)[..i + 1] == AsAgents(events)[..i] + [Agent(events[i])];
      ConcatAssociates(msgs, AsAgents(events)[..i], [Agent(events[i])]);
      r := r + [Agent(events[i])];
    }
  }

  /** The events of a whole stream of lines. */
  function EventsOf(interpret: seq<byte> -> LineMeaning, lines: seq<seq<byte>>): seq<Event> {
    StreamEvents(interpret, lines, |lines|)
  }

  /** The parser has been fed exactly `lines`. */
  ghost predicate FedWith(parser: AgentStreamParser, lines: seq<seq<byte>>)
    reads parser
  {
    parser.nextSeq == StreamSeq(parser.interpret, lines, |lines|)
  }

  lemma {:induction false} StreamPrefix(interpret: seq<byte> -> LineMeaning, lines: seq<seq<byte>>, l: seq<byte>,
                                        n: nat)
    requires n <= |lines|
    ensures StreamEvents(interpret, lines + [l], n) == StreamEvents(interpret, lines, n)
    ensures StreamSeq(interpret, lines + [l], n) == StreamSeq(interpret, lines, n)
  {
    if n > 0 {
      StreamPrefix(interpret, lines, l, n - 1);
    }
  }

  lemma OneMoreLine(interpret: seq<byte> -> LineMeaning, lines: seq<seq<byte>>, l: seq<byte>)
    ensures EventsOf(interpret, lines + [l])
            == EventsOf(interpret, lines) + LineEvents(interpret(l), StreamSeq(interpret, lines, |lines|))
    ensures StreamSeq(interpret, lines + [l], |lines| + 1)
            == StreamSeq(interpret, lines, |lines|) + SeqUsed(interpret(l), StreamSeq(interpret, lines, |lines|))
  {
    StreamPrefix(interpret, lines, l, |lines|);
  }

  /** One line: what it adds to the events of the stream is what is sent. */
  method FeedLine(parser: AgentStreamParser, line: seq<byte>, msgs: seq<Msg>, ghost fed: seq<seq<byte>>)
    returns (r: seq<Msg>, ghost events: seq<Event>)
    requires FedWith(parser, fed)
    modifies parser
    ensures FedWith(parser, fed + [line])
    ensures r == msgs + AsAgents(events)
    ensures EventsOf(parser.interpret, fed + [line]) == EventsOf(parser.interpret, fed) + events
  {
    OneMoreLine(parser.interpret, fed, line);
    var derived := parser.PushLine(line);
    r := SendEvents(msgs, derived);
    events := derived;
  }

  /** The inner loop: every complete line is taken off the buffer and parsed. */
  method DrainLines(parser: AgentStreamParser, lineBuf: seq<byte>, msgs: seq<Msg>, ghost fed: seq<seq<byte>>)
    returns (rest: seq<byte>, r: seq<Msg>, ghost events: seq<Event>)
    requires FedWith(parser, fed)
    modifies parser
    ensures rest == SplitStream(lineBuf).rest
    ensures FedWith(parser, fed + SplitStream(lineBuf).lines)
    ensures r == msgs + AsAgents(events)
    ensures EventsOf(parser.interpret, fed + SplitStream(lineBuf).lines) == EventsOf(parser.interpret, fed) + events
  {
    rest, r, events := lineBuf, msgs, [];
    ghost var done := fed;
    ConcatEmpty(msgs);
    ConcatEmpty(EventsOf(parser.interpret, fed));
    var pos := NewlinePos(rest);
    while pos < |rest|
      invariant pos == NewlinePos(rest)
      invariant done + SplitStream(rest).lines == fed + SplitStream(lineBuf).lines
      invariant SplitStream(rest).rest == SplitStream(lineBuf).rest
      invariant FedWith(parser, done)
      invariant r == msgs + AsAgents(events)
      invariant EventsOf(parser.interpret, done) == EventsOf(parser.interpret, fed) + events
      decreases |rest|
    {
      TakeLine(rest, pos);
      var line := rest[..pos + 1];
      rest := rest[pos + 1..];
      ConcatAssociates(done, [line], SplitStream(rest).lines);
      ghost var more: seq<Event>;
      r, more := FeedLine(parser, line, r, done);
      done := done + [line];
      ConcatAssociates(msgs, AsAgents(events), AsAgents(more));
      AsAgentsAppend(events, more);
      ConcatAssociates(EventsOf(parser.interpret, fed), events, more);
      events := events + more;
      pos := NewlinePos(rest);
    }
    NoNewlineNoLine(rest);
    ConcatEmpty(done);
  }

  /** The terminal data of the first `n` reads, numbered from `first`. */
  function TerminalsOf(chunks: seq<seq<byte>>, first: nat, n: nat): seq<(seq<byte>, nat)>
    requires n <= |chunks|
  {
    if n == 0 then [] else TerminalsOf(chunks, first, n - 1) + [(chunks[n - 1], first + (n - 1))]
  }

  function Payloads(ts: seq<(seq<byte>, nat)>): seq<seq<byte>> {
    seq(|ts|, i requires 0 <= i < |ts| => ts[i].0)
  }

  /** The payloads, put together, are the bytes read; the sequence numbers have no gaps. */
  lemma {:induction false} TerminalsAreTheStream(chunks: seq<seq<byte>>, first: nat, n: nat)
    requires n <= |chunks|
    ensures var ts := TerminalsOf(chunks, first, n);
            && |ts| == n
            && (forall i :: 0 <= i < n ==> ts[i].1 == first + i)
            && Flatten(Payloads(ts)) == Flatten(chunks[..n])
  {
    if n > 0 {
      TerminalsAreTheStream(chunks, first, n - 1);
      var before, ts := TerminalsOf(chunks, first, n - 1), TerminalsOf(chunks, first, n);
      assert Payloads(ts) == Payloads(before) + [chunks[n - 1]];
      assert chunks[..n] == chunks[..n - 1] + [chunks[n - 1]];
      FlattenAppend(Payloads(before), [chunks[n - 1]]);
      FlattenAppend(chunks[..n - 1], [chunks[n - 1]]);
    }
  }

  /** The lines that the first `n` reads complete, and the partial line after them. */
  function FeedUpTo(chunks: seq<seq<byte>>, n: nat): Split
    requires n <= |chunks|
  {
    if n == 0 then Split([], [])
    else
      var p := FeedUpTo(chunks, n - 1);
      var q := FeedChunk(p.rest, chunks[n - 1]);
      Split(p.lines + q.lines, q.rest)
  }

  /** Everything that is sent for the first `n` reads: for each, the agent events that it adds, and
      then its bytes. */
  function Messages(added: seq<seq<Event>>, chunks: seq<seq<byte>>, first: nat, n: nat): seq<Msg>
    requires n <= |chunks| && n <= |added|
  {
    if n == 0 then []
    else Messages(added, chunks, first, n - 1) + AsAgents(added[n - 1]) + [TerminalData(chunks[n - 1], first + (n - 1))]
  }

  /** The events that the first `n` reads add. */
  function Joined(added: seq<seq<Event>>, n: nat): seq<Event>
    requires n <= |added|
  {
    if n == 0 then [] else Joined(added, n - 1) + added[n - 1]
  }

  /** Each of the first `n` reads adds the events of the lines that it completes. */
  ghost predicate AddsItsLines(added: seq<seq<Event>>, interpret: seq<byte> -> LineMeaning, chunks: seq<seq<byte>>,
                               n: nat)
    requires n <= |added| && n <= |chunks|
  {
    n == 0 ||
    (AddsItsLines(added, interpret, chunks, n - 1) &&
     EventsOf(interpret, FeedUpTo(chunks, n).lines)
     == EventsOf(interpret, FeedUpTo(chunks, n - 1).lines) + added[n - 1])
  }

  lemma {:induction false} AddsPrefix(added: seq<seq<Event>>, events: seq<Event>, interpret: seq<byte> -> LineMeaning,
                                      chunks: seq<seq<byte>>, n: nat)
    requires n <= |added| && n <= |chunks| && AddsItsLines(added, interpret, chunks, n)
    ensures AddsItsLines(added + [events], interpret, chunks, n)
  {
    if n > 0 {
      AddsPrefix(added, events, interpret, chunks, n - 1);
    }
  }

  lemma {:induction false} AddedAreTheEvents(added: seq<seq<Event>>, interpret: seq<byte> -> LineMeaning,
                                             chunks: seq<seq<byte>>, n: nat)
    requires n <= |added| && n <= |chunks| && AddsItsLines(added, interpret, chunks, n)
    ensures Joined(added, n) == EventsOf(interpret, FeedUpTo(chunks, n).lines)
  {
    if n > 0 {
      AddedAreTheEvents(added, interpret, chunks, n - 1);
    }
  }

  lemma {:induction false} MessagesPrefix(added: seq<seq<Event>>, events: seq<Event>, chunks: seq<seq<byte>>,
                                          first: nat, n: nat)
    requires n <= |added| && n <= |chunks|
    ensures Messages(added + [events], chunks, first, n) == Messages(added, chunks, first, n)
  {
    if n > 0 {
      MessagesPrefix(added, events, chunks, first, n - 1);
    }
  }

  /** The line part of one read. */
  method FeedParser(parser: AgentStreamParser, lineBuf: seq<byte>, data: seq<byte>, msgs: seq<Msg>,
                    ghost lines: seq<seq<byte>>)
    returns (rest: seq<byte>, r: seq<Msg>, ghost events: seq<Event>)
    requires FedWith(parser, lines)
    modifies parser
    ensures rest == FeedChunk(lineBuf, data).rest
    ensures FedWith(parser, lines + FeedChunk(lineBuf, data).lines)
    ensures r == msgs + AsAgents(events)
    ensures EventsOf(parser.interpret, lines + FeedChunk(lineBuf, data).lines)
            == EventsOf(parser.interpret, lines) + events
  {
    rest, r, events := DrainLines(parser, lineBuf + data, msgs, lines);
    if |rest| > LINE_CAP {
      rest := [];
    }
  }

  /** The parsing of one read, in terms of the reads so far. */
  method FeedRead(parser: AgentStreamParser, lineBuf: seq<byte>, chunks: seq<seq<byte>>, i: nat, msgs: seq<Msg>)
    returns (rest: seq<byte>, r: seq<Msg>, ghost events: seq<Event>)
    requires i < |chunks| && FedWith(parser, FeedUpTo(chunks, i).lines) && FeedUpTo(chunks, i).rest == lineBuf
    modifies parser
    ensures FedWith(parser, FeedUpTo(chunks, i + 1).lines) && FeedUpTo(chunks, i + 1).rest == rest
    ensures r == msgs + AsAgents(events)
    ensures EventsOf(parser.interpret, FeedUpTo(chunks, i + 1).lines)
            == EventsOf(parser.interpret, FeedUpTo(chunks, i).lines) + events
  {
    rest, r, events := FeedParser(parser, lineBuf, chunks[i], msgs, FeedUpTo(chunks, i).lines);
  }

  // ---- The gate before a read ----

  /** Every read gives some bytes, at most a buffer full. */
  predicate AreReads(chunks: seq<seq<byte>>) {
    forall i :: 0 <= i < |chunks| ==> 1 <= |chunks[i]| <= READ_CHUNK_SIZE
  }

  /** Some acknowledgements, one after the other. */
  function AckedAll(f: Flow, acks: seq<word>, n: nat): Flow
    requires n <= |acks|
  {
    if n == 0 then f else AfterAck(AckedAll(f, acks, n - 1), acks[n - 1])
  }

  /** The flow control after `n` reads, of which each was preceded by its acknowledgements. */
  function Gated(f: Flow, acks: seq<seq<word>>, chunks: seq<seq<byte>>, n: nat): Flow
    requires n <= |chunks| <= |acks| && AreReads(chunks)
    decreases n, 0
  {
    if n == 0 then f else AfterSent(AtGate(f, acks, chunks, n - 1), |chunks[n - 1]|)
  }

  /** What the reader finds when it looks at the pause before read `n`. */
  function AtGate(f: Flow, acks: seq<seq<word>>, chunks: seq<seq<byte>>, n: nat): Flow
    requires n < |chunks| <= |acks| && AreReads(chunks)
    decreases n, 1
  {
    AckedAll(Gated(f, acks, chunks, n), acks[n], |acks[n]|)
  }

  /** Acknowledgements that come in while the reader waits; it goes on if they end the pause. */
  method AwaitTurn(session: Session, acks: seq<word>) returns (open: bool)
    modifies session`bytesPending, session`paused
    ensures session.FlowState() == AckedAll(old(session.FlowState()), acks, |acks|)
    ensures open == !session.paused
  {
    for n := 0 to |acks|
      invariant session.FlowState() == AckedAll(old(session.FlowState()), acks, n)
    {
      session.RecordAck(acks[n]);
    }
    open := !session.paused;
  }

  /** How the reader ends: at the end of the stream, waiting for the pause to end, or because the transport
      did not take a message. */
  datatype End = Eof | Waits | Broken

  /** No read was made while the session was paused. */
  predicate GatesOpen(f: Flow, acks: seq<seq<word>>, chunks: seq<seq<byte>>, n: nat)
    requires n <= |chunks| <= |acks| && AreReads(chunks)
  {
    n == 0 || (GatesOpen(f, acks, chunks, n - 1) && !AtGate(f, acks, chunks, n - 1).paused)
  }

  /** The reads add the events of their lines, or none at all without a parser. */
  ghost predicate AddsEvents(added: seq<seq<Event>>, interpret: Option<seq<byte> -> LineMeaning>,
                             chunks: seq<seq<byte>>, n: nat)
    requires n <= |added| && n <= |chunks|
  {
    match interpret
    case Some(i) => AddsItsLines(added, i, chunks, n)
    case None => forall j :: 0 <= j < n ==> added[j] == []
  }

  ghost predicate ParserAt(parser: AgentStreamParser?, lineBuf: seq<byte>, chunks: seq<seq<byte>>, n: nat)
    requires n <= |chunks|
    reads parser
  {
    parser != null ==> FedWith(parser, FeedUpTo(chunks, n).lines) && FeedUpTo(chunks, n).rest == lineBuf
  }

  function InterpretOf(parser: AgentStreamParser?): Option<seq<byte> -> LineMeaning>
    reads parser
  {
    if parser == null then None else Some(parser.interpret)
  }

  /** What one more read adds to the events and to the messages. */
  lemma ReadNext(added: seq<seq<Event>>, events: seq<Event>, interpret: Option<seq<byte> -> LineMeaning>,
                 chunks: seq<seq<byte>>, first: nat, i: nat)
    requires i == |added| < |chunks| && AddsEvents(added, interpret, chunks, i)
    requires interpret.None? ==> events == []
    requires interpret.Some? ==>
               EventsOf(interpret.value, FeedUpTo(chunks, i + 1).lines)
               == EventsOf(interpret.value, FeedUpTo(chunks, i).lines) + events
    ensures AddsEvents(added + [events], interpret, chunks, i + 1)
    ensures Messages(added + [events], chunks, first, i) == Messages(added, chunks, first, i)
    ensures Messages(added + [events], chunks, first, i + 1)
            == Messages(added, chunks, first, i) + AsAgents(events) + [TerminalData(chunks[i], first + i)]
  {
    if interpret.Some? {
      AddsPrefix(added, events, interpret.value, chunks, i);
    }
    MessagesPrefix(added, events, chunks, first, i);
  }

  /** A read goes to the parser, if there is one. */
  method FeedIfParsed(parser: AgentStreamParser?, lineBuf: seq<byte>, chunks: seq<seq<byte>>, i: nat, sent: seq<Msg>)
      returns (rest: seq<byte>, more: seq<Msg>, ghost events: seq<Event>)
    requires i < |chunks| && ParserAt(parser, lineBuf, chunks, i)
    modifies parser
    ensures ParserAt(parser, rest, chunks, i + 1) && InterpretOf(parser) == old(InterpretOf(parser))
    ensures more == sent + AsAgents(events) && (parser == null ==> events == [])
    ensures parser != null ==>
              EventsOf(parser.interpret, FeedUpTo(chunks, i + 1).lines)
              == EventsOf(parser.interpret, FeedUpTo(chunks, i).lines) + events
  {
    if parser != null {
      rest, more, events := FeedRead(parser, lineBuf, chunks, i, sent);
    } else {
      rest, more, events := lineBuf, sent, [];
      ConcatEmpty(sent);
    }
  }

  /** One read: its events and then its bytes are handed to the transport. */
  method ReadOnce(session: Session, parser: AgentStreamParser?, lineBuf: seq<byte>, chunks: seq<seq<byte>>, i: nat,
                  sent: seq<Msg>, ghost added: seq<seq<Event>>, ghost first: nat)
      returns (rest: seq<byte>, more: seq<Msg>, ghost events: seq<Event>)
    requires i == |added| < |chunks| && |chunks[i]| <= READ_CHUNK_SIZE && ParserAt(parser, lineBuf, chunks, i)
    requires AddsEvents(added, InterpretOf(parser), chunks, i)
    requires sent == Messages(added, chunks, first, i) && session.seqCounter == first + i
    modifies session`seqCounter, session`bytesPending, session`paused, parser
    ensures session.seqCounter == first + i + 1 && InterpretOf(parser) == old(InterpretOf(parser))
    ensures session.FlowState() == AfterSent(old(session.FlowState()), |chunks[i]|)
    ensures ParserAt(parser, rest, chunks, i + 1)
    ensures AddsEvents(added + [events], InterpretOf(parser), chunks, i + 1)
    ensures more == Messages(added + [events], chunks, first, i + 1)
    ensures Messages(added + [events], chunks, first, i) == sent
  {
    var data := chunks[i];
    var seqNo := session.NextSeq();
    session.RecordSent(|data|);
    rest, more, events := FeedIfParsed(parser, lineBuf, chunks, i, sent);
    ReadNext(added, events, InterpretOf(parser), chunks, first, i);
    more := more + [TerminalData(data, seqNo)];
  }

  /** The gate, and the read behind it if the gate is open. */
  method GatedRead(session: Session, parser: AgentStreamParser?, lineBuf: seq<byte>, chunks: seq<seq<byte>>,
                   acks: seq<seq<word>>, i: nat, sent: seq<Msg>, ghost added: seq<seq<Event>>, ghost first: nat,
                   ghost flow: Flow)
      returns (open: bool, rest: seq<byte>, more: seq<Msg>, ghost events: seq<Event>)
    requires i == |added| < |chunks| <= |acks| && AreReads(chunks) && ParserAt(parser, lineBuf, chunks, i)
    requires AddsEvents(added, InterpretOf(parser), chunks, i)
    requires sent == Messages(added, chunks, first, i) && session.seqCounter == first + i
    requires session.FlowState() == Gated(flow, acks, chunks, i)
    modifies session`seqCounter, session`bytesPending, session`paused, parser
    ensures InterpretOf(parser) == old(InterpretOf(parser)) && open == !AtGate(flow, acks, chunks, i).paused
    ensures !open ==> session.seqCounter == first + i
    ensures open ==>
              && session.seqCounter == first + i + 1 && session.FlowState() == Gated(flow, acks, chunks, i + 1)
              && ParserAt(parser, rest, chunks, i + 1)
              && AddsEvents(added + [events], InterpretOf(parser), chunks, i + 1)
              && more == Messages(added + [events], chunks, first, i + 1)
              && Messages(added + [events], chunks, first, i) == sent
  {
    open := AwaitTurn(session, acks[i]);
    rest, more, events := lineBuf, sent, [];
    if open {
      rest, more, events := ReadOnce(session, parser, lineBuf, chunks, i, sent, added, first);
    }
  }

  /** The transport takes `room` messages, if it is ever closed. */
  predicate Fits(room: Option<nat>, messages: nat) {
    room.Some? ==> messages <= room.value
  }

  lemma MessagesGrow(added: seq<seq<Event>>, chunks: seq<seq<byte>>, first: nat, n: nat)
    requires n <= |chunks| && n <= |added|
    ensures n > 0 ==> |Messages(added, chunks, first, n - 1)| < |Messages(added, chunks, first, n)|
  {
  }

  /** The reader loop over the chunks it reads. `acks` are the acknowledgements before each read, and the
      transport takes `room` messages in all, if it is ever closed; what it does not take is lost. `added`
      are the agent events that each read adds; without a parser, for shells, there are none. */
  method ReadLoop(session: Session, parser: AgentStreamParser?, chunks: seq<seq<byte>>, acks: seq<seq<word>>,
                  room: Option<nat>)
      returns (sent: seq<Msg>, ghost added: seq<seq<Event>>, end: End)
    requires parser != null ==> parser.nextSeq == 0
    requires |acks| == |chunks| && AreReads(chunks)
    modifies session, parser
    ensures |added| <= |chunks| && sent == Messages(added, chunks, old(session.seqCounter), |added|)
    ensures AddsEvents(added, InterpretOf(parser), chunks, |added|)
    ensures session.seqCounter == old(session.seqCounter) + |added|
    ensures GatesOpen(old(session.FlowState()), acks, chunks, |added|)
    ensures added != [] ==> Fits(room, |Messages(added, chunks, old(session.seqCounter), |added| - 1)|)
    ensures match end
            case Eof => |added| == |chunks| && Fits(room, |sent|)
            case Waits => |added| < |chunks| && AtGate(old(session.FlowState()), acks, chunks, |added|).paused
            case Broken => !Fits(room, |sent|)
  {
    sent, added := [], [];
    var lineBuf := [];
    ghost var first, flow := session.seqCounter, session.FlowState();
    for i := 0 to |chunks|
      invariant session.seqCounter == first + i && session.FlowState() == Gated(flow, acks, chunks, i)
      invariant ParserAt(parser, lineBuf, chunks, i)
      invariant |added| == i && sent == Messages(added, chunks, first, i)
      invariant AddsEvents(added, InterpretOf(parser), chunks, i)
      invariant GatesOpen(flow, acks, chunks, i) && Fits(room, |sent|)
    {
      MessagesGrow(added, chunks, first, i);
      var open, rest, more, events := GatedRead(session, parser, lineBuf, chunks, acks, i, sent, added, first, flow);
      if !open {
        return sent, added, Waits;
      }
      added := added + [events];
      lineBuf, sent := rest, more;
      if !Fits(room, |sent|) {
        return sent, added, Broken;
      }
    }
    MessagesGrow(added, chunks, first, |chunks|);
    end := Eof;
  }

  // ---- What is sent, by kind ----

  lemma {:induction false} ProjectAgents(msgs: seq<Msg>, events: seq<Event>)
    ensures Agents(msgs + AsAgents(events)) == Agents(msgs) + events
    ensures Terminals(msgs + AsAgents(events)) == Terminals(msgs)
    decreases |events|
  {
    if events == [] {
      ConcatEmpty(msgs);
      ConcatEmpty(Agents(msgs));
    } else {
      var front, last := events[..|events| - 1], events[|events| - 1];
      assert AsAgents(events) == AsAgents(front) + [Agent(last)];
      ConcatAssociates(msgs, AsAgents(front), [Agent(last)]);
      ProjectAgents(msgs, front);
      ProjectNext(msgs + AsAgents(front), Agent(last));
      ConcatAssociates(Agents(msgs), front, [last]);
      assert events == front + [last];
    }
  }

  lemma SentForRead(before: seq<Msg>, events: seq<Event>, data: Msg)
    requires data.TerminalData?
    ensures Terminals(before + AsAgents(events) + [data]) == Terminals(before) + [(data.data, data.seqNo)]
    ensures Agents(before + AsAgents(events) + [data]) == Agents(before) + events
  {
    ProjectAgents(before, events);
    ProjectNext(before + AsAgents(events), data);
  }

  /** Of what is sent, the terminal data is every read under consecutive numbers, and the agent events
      are those that the reads add. */
  lemma {:induction false} SentByKind(added: seq<seq<Event>>, chunks: seq<seq<byte>>, first: nat, n: nat)
    requires n <= |chunks| && n <= |added|
    ensures Terminals(Messages(added, chunks, first, n)) == TerminalsOf(chunks, first, n)
    ensures Agents(Messages(added, chunks, first, n)) == Joined(added, n)
  {
    if n > 0 {
      SentByKind(added, chunks, first, n - 1);
      SentForRead(Messages(added, chunks, first, n - 1), added[n - 1], TerminalData(chunks[n - 1], first + (n - 1)));
    }
  }

  lemma {:induction false} FeedNext(lineBuf: seq<byte>, chunks: seq<seq<byte>>, c: seq<byte>)
    ensures FeedAll(lineBuf, chunks + [c])
            == var p := FeedAll(lineBuf, chunks); var q := FeedChunk(p.rest, c);
               Split(p.lines + q.lines, q.rest)
    decreases |chunks|
  {
    var all := chunks + [c];
    if chunks == [] {
      assert all[1..] == [];
      var q := FeedChunk(lineBuf, c);
      ConcatEmpty(q.lines);
    } else {
      assert all[1..] == chunks[1..] + [c];
      var p := FeedChunk(lineBuf, chunks[0]);
      FeedNext(p.rest, chunks[1..], c);
      var r := FeedAll(p.rest, chunks[1..]);
      ConcatAssociates(p.lines, r.lines, FeedChunk(r.rest, c).lines);
    }
  }

  lemma {:induction false} FeedUpToIsFeedAll(chunks: seq<seq<byte>>, n: nat)
    requires n <= |chunks|
    ensures FeedUpTo(chunks, n) == FeedAll([], chunks[..n])
  {
    if n > 0 {
      FeedUpToIsFeedAll(chunks, n - 1);
      assert chunks[..n] == chunks[..n - 1] + [chunks[n - 1]];
      FeedNext([], chunks[..n - 1], chunks[n - 1]);
    }
  }

  /** The partial-line buffer never holds more than 1 MiB between reads, nor more than 1 MiB
      plus one read while a chunk is being split. */
  lemma BufferIsBounded(chunks: seq<seq<byte>>, i: nat)
    requires i < |chunks| && forall k :: 0 <= k < |chunks| ==> |chunks[k]| <= READ_CHUNK_SIZE
    ensures |FeedUpTo(chunks, i).rest| <= LINE_CAP
    ensures |FeedUpTo(chunks, i).rest + chunks[i]| <= LINE_CAP + READ_CHUNK_SIZE
  {
  }

  // ---- When read sizes do not matter ----

  /** Every newline of the stream comes at most 1 MiB after the one before. */
  ghost predicate LinesWithinCap(s: seq<byte>) {
    forall l :: l in SplitStream(s).lines ==> |l| <= LINE_CAP + 1
  }

  ghost predicate IsReading(s: seq<byte>, chunks: seq<seq<byte>>) {
    Flatten(chunks) == s && AreReads(chunks)
  }

  lemma {:induction false} NoMoreLines(lineBuf: seq<byte>, chunks: seq<seq<byte>>)
    requires NEWLINE !in lineBuf && NEWLINE !in Flatten(chunks)
    ensures FeedAll(lineBuf, chunks).lines == []
    decreases |chunks|
  {
    if chunks != [] {
      assert Flatten(chunks) == chunks[0] + Flatten(chunks[1..]);
      assert forall x :: x in chunks[0] ==> x in Flatten(chunks);
      assert forall x :: x in Flatten(chunks[1..]) ==> x in Flatten(chunks);
      NoNewlineNoLine(lineBuf + chunks[0]);
      NoMoreLines(FeedChunk(lineBuf, chunks[0]).rest, chunks[1..]);
    }
  }

  lemma FirstLine(s: seq<byte>, pos: nat)
    requires pos < |s| && IsLine(s[..pos + 1])
    ensures s[..pos + 1] in SplitStream(s).lines
  {
    TakeLine(s, pos);
    assert SplitStream(s).lines[0] == s[..pos + 1];
  }

  /** After a newline-free run past the cap, a stream within the cap has no further newline. */
  lemma LongRestEndsTheLines(rest: seq<byte>, more: seq<byte>)
    requires NEWLINE !in rest && |rest| > LINE_CAP && LinesWithinCap(rest + more)
    ensures NEWLINE !in more && SplitStream(rest + more).lines == []
  {
    var s := rest + more;
    var pos := NewlinePos(s);
    assert pos >= |rest|;
    if pos < |s| {
      FirstLine(s, pos);
      assert false;
    }
    assert forall x :: x in more ==> x in s;
    NoNewlineNoLine(s);
  }

  lemma {:induction false} FeedIsSplit(lineBuf: seq<byte>, chunks: seq<seq<byte>>)
    requires NEWLINE !in lineBuf && LinesWithinCap(lineBuf + Flatten(chunks))
    ensures FeedAll(lineBuf, chunks).lines == SplitStream(lineBuf + Flatten(chunks)).lines
    decreases |chunks|
  {
    if chunks == [] {
      ConcatEmpty(lineBuf);
      NoNewlineNoLine(lineBuf);
    } else {
      var f := Flatten(chunks[1..]);
      var p := SplitStream(lineBuf + chunks[0]);
      SplitIsExact(lineBuf + chunks[0]);
      ConcatAssociates(lineBuf, chunks[0], f);
      SplitAppend(lineBuf + chunks[0], f);
      var q := SplitStream(p.rest + f);
      assert forall l :: l in q.lines ==> l in SplitStream(lineBuf + Flatten(chunks)).lines;
      if |p.rest| <= LINE_CAP {
        FeedIsSplit(p.rest, chunks[1..]);
      } else {
        LongRestEndsTheLines(p.rest, f);
        NoMoreLines([], chunks[1..]);
      }
    }
  }

  /** Reading one byte at a time. */
  function Bytewise(s: seq<byte>): seq<seq<byte>> {
    if s == [] then [] else [[s[0]]] + Bytewise(s[1..])
  }

  lemma {:induction false} BytewiseReads(s: seq<byte>)
    ensures IsReading(s, Bytewise(s))
  {
    if s != [] {
      BytewiseReads(s[1..]);
      assert Bytewise(s)[1..] == Bytewise(s[1..]);
      assert s == [s[0]] + s[1..];
    }
  }

  lemma {:induction false} BytewiseLinesAreShort(lineBuf: seq<byte>, s: seq<byte>)
    requires NEWLINE !in lineBuf && |lineBuf| <= LINE_CAP
    ensures forall l :: l in FeedAll(lineBuf, Bytewise(s)).lines ==> |l| <= LINE_CAP + 1
    decreases |s|
  {
    if s != [] {
      assert Bytewise(s)[1..] == Bytewise(s[1..]);
      NoNewlineNoLine(lineBuf);
      SplitNext(lineBuf, s[0]);
      BytewiseLinesAreShort(FeedChunk(lineBuf, [s[0]]).rest, s[1..]);
    }
  }

  /** The lines that reach the parser are those of the stream, for every way of reading it,
      exactly when no line of the stream exceeds the cap. */
  lemma ReadSizesDoNotMatterIff(s: seq<byte>)
    ensures (forall chunks :: IsReading(s, chunks) ==> FeedAll([], chunks).lines == SplitStream(s).lines)
            <==> LinesWithinCap(s)
  {
    if LinesWithinCap(s) {
      forall chunks | IsReading(s, chunks) ensures FeedAll([], chunks).lines == SplitStream(s).lines {
        ConcatEmpty(s);
        FeedIsSplit([], chunks);
      }
    } else {
      BytewiseReads(s);
      BytewiseLinesAreShort([], s);
      assert FeedAll([], Bytewise(s)).lines != SplitStream(s).lines;
    }
  }

  lemma ReadingGivesLines(s: seq<byte>, chunks: seq<seq<byte>>)
    requires LinesWithinCap(s) && IsReading(s, chunks)
    ensures FeedUpTo(chunks, |chunks|).lines == SplitStream(s).lines
  {
    FeedUpToIsFeedAll(chunks, |chunks|);
    assert chunks[..|chunks|] == chunks;
    ConcatEmpty(s);
    FeedIsSplit([], chunks);
  }

  /** The agent events of a stream that keeps its lines within the cap are those of its lines,
      however it was read. */
  lemma AgentEventsIgnoreReadSizes(s: seq<byte>, interpret: seq<byte> -> LineMeaning, chunks: seq<seq<byte>>,
                                   added: seq<seq<Event>>)
    requires LinesWithinCap(s) && IsReading(s, chunks)
    requires |added| == |chunks| && AddsItsLines(added, interpret, chunks, |chunks|)
    ensures Joined(added, |added|) == EventsOf(interpret, SplitStream(s).lines)
  {
    AddedAreTheEvents(added, interpret, chunks, |chunks|);
    ReadingGivesLines(s, chunks);
  }
}
