/** The visual blocks of an API exchange: content blocks assembled from streamed events, and the
    tool results of the request. */
module SseBlocks {
  import opened Common
  import Decimal

  // ---- Events and blocks ----

  datatype Kind = Text | ToolUse | Thinking | OtherKind

  /** A delta's text; a delta of an unknown type carries none that is used. */
  datatype Delta = TextDelta(text: string) | JsonDelta(partial: string) | ThinkingDelta(thinking: string) | OtherDelta

  /** A parsed event. `name` and `input` are those of a tool use, the input printed as JSON; `thinking`
      is the initial thinking. Events that carry nothing usable are `Ignored`. */
  datatype Event =
    | Start(index: int, kind: Kind, name: Option<string>, input: string, thinking: string)
    | Changed(index: int, delta: Delta)
    | Stop(index: int)
    | MessageStop
    | Failed(message: string)
    | Ignored

  /** A content block being assembled. */
  datatype ContentBlock = ContentBlock(index: int, kind: Kind, name: Option<string>, text: string, toolInput: string,
                                       thinking: string)

  datatype Content =
    | TextContent(text: string)
    | Action(name: string, input: string)
    | Thought(text: string)
    | ErrorContent(text: string)
    | ToolResult(text: string, isError: bool)

  /** Content put out, with the index it came from; errors come from none. */
  datatype Emission = Emission(source: Option<int>, content: Content)

  datatype AgentBlock<C> = AgentBlock(id: string, content: C, seqNo: nat)

  // ---- Assembly, one content block ----

  function Ensured(slot: Option<ContentBlock>, index: int, kind: Kind): ContentBlock {
    if slot.Some? then slot.value else ContentBlock(index, kind, None, "", "", "")
  }

  /** A start event on a block; a block that was already open keeps its kind and text. */
  function Started(b: ContentBlock, e: Event): ContentBlock
    requires e.Start?
  {
    if e.kind.ToolUse? then b.(name := e.name, toolInput := e.input)
    else if e.kind.Thinking? then b.(thinking := e.thinking)
    else b
  }

  function KindOf(d: Delta): Kind {
    match d
    case JsonDelta(_) => ToolUse
    case ThinkingDelta(_) => Thinking
    case _ => Text
  }

  function Extended(b: ContentBlock, d: Delta): ContentBlock {
    match d
    case TextDelta(t) => b.(text := b.text + t)
    case JsonDelta(p) => b.(toolInput := b.toolInput + p)
    case ThinkingDelta(t) => b.(thinking := b.thinking + t)
    case OtherDelta => b
  }

  /** What closing a block puts out. */
  function Outcome(b: ContentBlock): (c: Option<Content>)
    ensures c.Some? ==> !c.value.ToolResult?
  {
    match b.kind
    case Text => if b.text != "" then Some(TextContent(b.text)) else None
    case ToolUse => Some(Action(if b.name.Some? then b.name.value else "tool", b.toolInput))
    case Thinking => if b.thinking != "" then Some(Thought(b.thinking)) else None
    case OtherKind => None
  }

  // ---- The insertion-ordered map of open blocks ----

  predicate Unique(open: seq<ContentBlock>) {
    forall i, j :: 0 <= i < j < |open| ==> open[i].index != open[j].index
  }

  function Slot(open: seq<ContentBlock>, index: int): Option<ContentBlock> {
    if open == [] then None
    else if open[0].index == index then Some(open[0])
    else Slot(open[1..], index)
  }

  /** Setting a key keeps its place; a new key goes to the end. */
  function Put(open: seq<ContentBlock>, b: ContentBlock): seq<ContentBlock> {
    if open == [] then [b]
    else if open[0].index == b.index then [b] + open[1..]
    else [open[0]] + Put(open[1..], b)
  }

  function Delete(open: seq<ContentBlock>, index: int): seq<ContentBlock> {
    if open == [] then []
    else if open[0].index == index then open[1..]
    else [open[0]] + Delete(open[1..], index)
  }

  // ---- The loop over the events ----

  function Opened(open: seq<ContentBlock>, e: Event): seq<ContentBlock> {
    match e
    case Start(i, kind, _, _, _) => Put(open, Started(Ensured(Slot(open, i), i, kind), e))
    case Changed(i, d) => Put(open, Extended(Ensured(Slot(open, i), i, KindOf(d)), d))
    case Stop(i) => Delete(open, i)
    case MessageStop => []
    case _ => open
  }

  /** What is flushed of the open blocks, from the `j`-th on. */
  function Flush(open: seq<ContentBlock>, j: nat): seq<Emission>
    requires j <= |open|
    decreases |open| - j
  {
    if j == |open| then []
    else if Outcome(open[j]).Some? then
      [Emission(Some(open[j].index), Outcome(open[j]).value)] + Flush(open, j + 1)
    else Flush(open, j + 1)
  }

  function Emitted(open: seq<ContentBlock>, e: Event): seq<Emission> {
    match e
    case Stop(i) =>
      var slot := Slot(open, i);
      if slot.Some? && Outcome(slot.value).Some? then [Emission(Some(i), Outcome(slot.value).value)] else []
    case MessageStop => Flush(open, 0)
    case Failed(message) => [Emission(None, ErrorContent(message))]
    case _ => []
  }

  function Emissions(open: seq<ContentBlock>, events: seq<Event>, n: nat): seq<Emission>
    requires n <= |events|
    decreases |events| - n
  {
    if n == |events| then []
    else
      var rest := Emissions(Opened(open, events[n]), events, n + 1);
      var out := Emitted(open, events[n]);
      if out == [] then rest else out + rest
  }

  function Tag(c: Content): string {
    match c
    case TextContent(_) => "text"
    case Action(_, _) => "action"
    case Thought(_) => "thought"
    case ErrorContent(_) => "error"
    case ToolResult(_, _) => "obs"
  }

  function Id(sessionId: string, exchange: nat, tag: string, n: nat): string {
    "http:" + sessionId + ":" + Decimal.Show(exchange) + ":" + tag + ":" + Decimal.Show(n)
  }

  function BlockOf(sessionId: string, exchange: nat, c: Content, n: nat): AgentBlock<Content> {
    AgentBlock(Id(sessionId, exchange, Tag(c), n), c, exchange * 1000 + (n + 1))
  }

  /** The blocks show these contents in order, numbered from 0 within the exchange. */
  ghost predicate Numbered(blocks: seq<AgentBlock<Content>>, contents: seq<Content>, sessionId: string, exchange: nat) {
    && |blocks| == |contents|
    && forall k :: 0 <= k < |contents| ==> blocks[k] == BlockOf(sessionId, exchange, contents[k], k)
  }

  method Push(blocks: seq<AgentBlock<Content>>, ghost shown: seq<Content>, c: Content, sessionId: string, exchange: nat,
              seqNo: nat)
      returns (more: seq<AgentBlock<Content>>)
    requires Numbered(blocks, shown, sessionId, exchange) && seqNo == |blocks|
    ensures Numbered(more, shown + [c], sessionId, exchange) && |more| == seqNo + 1
  {
    more := blocks + [BlockOf(sessionId, exchange, c, seqNo)];
  }

  function ContentsOf(out: seq<Emission>): (contents: seq<Content>)
    ensures |contents| == |out| && forall k :: 0 <= k < |out| ==> contents[k] == out[k].content
  {
    seq(|out|, k requires 0 <= k < |out| => out[k].content)
  }

  /** The blocks are the contents put out, numbered from 0. */
  ghost predicate NumberedBlocks(blocks: seq<AgentBlock<Content>>, out: seq<Emission>, sessionId: string,
                                 exchange: nat)
  {
    Numbered(blocks, ContentsOf(out), sessionId, exchange)
  }

  method PushEmission(blocks: seq<AgentBlock<Content>>, ghost out: seq<Emission>, e: Emission, sessionId: string,
                      exchange: nat, seqNo: nat)
      returns (more: seq<AgentBlock<Content>>)
    requires NumberedBlocks(blocks, out, sessionId, exchange) && seqNo == |blocks|
    ensures NumberedBlocks(more, out + [e], sessionId, exchange) && |more| == seqNo + 1
  {
    more := Push(blocks, ContentsOf(out), e.content, sessionId, exchange, seqNo);
    assert ContentsOf(out + [e]) == ContentsOf(out) + [e.content];
  }

  /** The end of the message closes every block that is still open, in the order of opening. */
  method FlushOpen(open: seq<ContentBlock>, blocks: seq<AgentBlock<Content>>, ghost was: seq<Emission>,
                   sessionId: string, exchange: nat)
      returns (more: seq<AgentBlock<Content>>)
    requires NumberedBlocks(blocks, was, sessionId, exchange)
    ensures NumberedBlocks(more, was + Flush(open, 0), sessionId, exchange)
  {
    more := blocks;
    ghost var out := was;
    for j := 0 to |open|
      invariant was + Flush(open, 0) == out + Flush(open, j)
      invariant NumberedBlocks(more, out, sessionId, exchange)
    {
      var outcome := Outcome(open[j]);
      if outcome.Some? {
        more := PushEmission(more, out, Emission(Some(open[j].index), outcome.value), sessionId, exchange, |more|);
        ConcatAssociates(out, [Emission(Some(open[j].index), outcome.value)], Flush(open, j + 1));
        out := out + [Emission(Some(open[j].index), outcome.value)];
      }
    }
    ConcatEmpty(out);
  }

  function Extend(was: seq<Emission>, more: seq<Emission>): seq<Emission> {
    if more == [] then was else was + more
  }

  lemma EmissionsNext(was: seq<Emission>, open: seq<ContentBlock>, events: seq<Event>, n: nat)
    requires n < |events|
    ensures was + Emissions(open, events, n)
            == Extend(was, Emitted(open, events[n])) + Emissions(Opened(open, events[n]), events, n + 1)
  {
    ConcatAssociates(was, Emitted(open, events[n]), Emissions(Opened(open, events[n]), events, n + 1));
  }

  method BuildBlocks(events: seq<Event>, sessionId: string, exchange: nat)
      returns (blocks: seq<AgentBlock<Content>>)
    ensures NumberedBlocks(blocks, Emissions([], events, 0), sessionId, exchange)
  {
    blocks := [];
    var seqNo: nat := 0;
    var open: seq<ContentBlock> := [];
    ghost var out: seq<Emission> := [];
    ConcatEmpty(Emissions([], events, 0));
    for n := 0 to |events|
      invariant seqNo == |blocks| && NumberedBlocks(blocks, out, sessionId, exchange)
      invariant out + Emissions(open, events, n) == Emissions([], events, 0)
    {
      var e := events[n];
      ghost var before, was := open, out;
      EmissionsNext(was, before, events, n);
      match e {
        case Start(i, kind, _, _, _) =>
          var b := Ensured(Slot(open, i), i, kind);
          open := Put(open, Started(b, e));
        case Changed(i, d) =>
          var b := Ensured(Slot(open, i), i, KindOf(d));
          open := Put(open, Extended(b, d));
        case Stop(i) =>
          var slot := Slot(open, i);
          if slot.Some? && Outcome(slot.value).Some? {
            blocks := PushEmission(blocks, was, Emission(Some(i), Outcome(slot.value).value), sessionId, exchange,
                                   seqNo);
            seqNo := seqNo + 1;
            out := was + [Emission(Some(i), Outcome(slot.value).value)];
          }
          open := Delete(open, i);
        case MessageStop =>
          blocks := FlushOpen(open, blocks, was, sessionId, exchange);
          seqNo := |blocks|;
          out := Extend(was, Flush(before, 0));
          ConcatEmpty(was);
          open := [];
        case Failed(message) =>
          blocks := PushEmission(blocks, was, Emission(None, ErrorContent(message)), sessionId, exchange, seqNo);
          seqNo := seqNo + 1;
          out := was + [Emission(None, ErrorContent(message))];
        case Ignored =>
      }
      assert open == Opened(before, e) && out == Extend(was, Emitted(before, e));
    }
    ConcatEmpty(out);
  }

  // ---- Each index on its own ----

  /** The machine of one index: its open block, if any. */
  function SlotNext(slot: Option<ContentBlock>, e: Event, i: int): Option<ContentBlock> {
    match e
    case Start(j, kind, _, _, _) => if j == i then Some(Started(Ensured(slot, i, kind), e)) else slot
    case Changed(j, d) => if j == i then Some(Extended(Ensured(slot, i, KindOf(d)), d)) else slot
    case Stop(j) => if j == i then None else slot
    case MessageStop => None
    case _ => slot
  }

  predicate Closes(e: Event, i: int) {
    e == Stop(i) || e == MessageStop
  }

  function SlotOut(slot: Option<ContentBlock>, e: Event, i: int): seq<Content> {
    if Closes(e, i) && slot.Some? && Outcome(slot.value).Some? then [Outcome(slot.value).value] else []
  }

  function SlotRun(slot: Option<ContentBlock>, events: seq<Event>, i: int): seq<Content>
    decreases |events|
  {
    if events == [] then []
    else
      var rest := SlotRun(SlotNext(slot, events[0], i), events[1..], i);
      var out := SlotOut(slot, events[0], i);
      if out == [] then rest else out + rest
  }

  /** What was put out for one index. */
  function Selected(out: seq<Emission>, i: int): seq<Content> {
    if out == [] then []
    else if out[0].source == Some(i) then [out[0].content] + Selected(out[1..], i)
    else Selected(out[1..], i)
  }

  lemma {:induction false} SelectedAppend(a: seq<Emission>, b: seq<Emission>, i: int)
    ensures Selected(a + b, i) == Selected(a, i) + Selected(b, i)
  {
    if a == [] {
      ConcatEmpty(b);
      ConcatEmpty(Selected(b, i));
    } else {
      assert (a + b)[1..] == a[1..] + b;
      SelectedAppend(a[1..], b, i);
      if a[0].source == Some(i) {
        ConcatAssociates([a[0].content], Selected(a[1..], i), Selected(b, i));
      }
    }
  }

  lemma {:induction false} SlotHasIndex(open: seq<ContentBlock>, i: int)
    ensures Slot(open, i).Some? <==> exists k :: 0 <= k < |open| && open[k].index == i
    ensures Slot(open, i).Some? ==> Slot(open, i).value in open && Slot(open, i).value.index == i
  {
    if open != [] {
      SlotHasIndex(open[1..], i);
      if exists k :: 0 <= k < |open| && open[k].index == i {
        var k :| 0 <= k < |open| && open[k].index == i;
        if k > 0 {
          assert open[1..][k - 1].index == i;
        }
      }
    }
  }

  lemma {:induction false} SlotOfPut(open: seq<ContentBlock>, b: ContentBlock, i: int)
    ensures Slot(Put(open, b), i) == if i == b.index then Some(b) else Slot(open, i)
  {
    if open != [] && open[0].index != b.index {
      SlotOfPut(open[1..], b, i);
      assert Put(open, b)[1..] == Put(open[1..], b);
    } else if open == [] {
      assert Put(open, b)[1..] == [];
    } else {
      assert Put(open, b)[1..] == open[1..];
    }
  }

  lemma {:induction false} SlotOfDelete(open: seq<ContentBlock>, d: int, i: int)
    requires Unique(open)
    ensures Slot(Delete(open, d), i) == if i == d then None else Slot(open, i)
  {
    if open != [] {
      if open[0].index == d {
        SlotHasIndex(open[1..], d);
      } else {
        SlotOfDelete(open[1..], d, i);
        assert Delete(open, d)[1..] == Delete(open[1..], d);
      }
    }
  }

  /** Put and Delete keep every key at most once. */
  lemma {:induction false} StaysUnique(open: seq<ContentBlock>, b: ContentBlock)
    requires Unique(open)
    ensures Unique(Put(open, b)) && Unique(Delete(open, b.index))
    ensures forall k :: 0 <= k < |Put(open, b)| ==>
              Put(open, b)[k].index == b.index || exists m :: 0 <= m < |open| && open[m].index == Put(open, b)[k].index
    ensures forall k :: 0 <= k < |Delete(open, b.index)| ==> Delete(open, b.index)[k] in open
  {
    if open != [] && open[0].index != b.index {
      StaysUnique(open[1..], b);
    }
  }

  lemma PutSlot(open: seq<ContentBlock>, b: ContentBlock, i: int)
    requires Unique(open)
    ensures Unique(Put(open, b))
    ensures Slot(Put(open, b), i) == if i == b.index then Some(b) else Slot(open, i)
  {
    StaysUnique(open, b);
    SlotOfPut(open, b, i);
  }

  lemma OpenedSlot(open: seq<ContentBlock>, e: Event, i: int)
    requires Unique(open)
    ensures Unique(Opened(open, e))
    ensures Slot(Opened(open, e), i) == SlotNext(Slot(open, i), e, i)
  {
    match e
    case Start(j, kind, _, _, _) =>
      SlotHasIndex(open, j);
      PutSlot(open, Started(Ensured(Slot(open, j), j, kind), e), i);
    case Changed(j, d) =>
      SlotHasIndex(open, j);
      PutSlot(open, Extended(Ensured(Slot(open, j), j, KindOf(d)), d), i);
    case Stop(j) =>
      StaysUnique(open, Ensured(None, j, Text));
      SlotOfDelete(open, j, i);
    case _ =>
  }

  lemma {:induction false} FlushSelected(open: seq<ContentBlock>, j: nat, i: int)
    requires Unique(open) && j <= |open|
    ensures Selected(Flush(open, j), i) == SlotOut(Slot(open[j..], i), MessageStop, i)
    decreases |open| - j
  {
    if j < |open| {
      FlushSelected(open, j + 1, i);
      assert open[j..][1..] == open[j + 1..];
      var outcome := Outcome(open[j]);
      if outcome.Some? {
        assert Flush(open, j)[1..] == Flush(open, j + 1);
      }
      if open[j].index == i {
        SlotHasIndex(open[j + 1..], i);
        assert Slot(open[j + 1..], i).None?;
        if outcome.Some? {
          ConcatEmpty([outcome.value]);
        }
      }
    }
  }

  lemma EmittedSelected(open: seq<ContentBlock>, e: Event, i: int)
    requires Unique(open)
    ensures Selected(Emitted(open, e), i) == SlotOut(Slot(open, i), e, i)
  {
    if e.MessageStop? {
      FlushSelected(open, 0, i);
      assert open[0..] == open;
    } else if Emitted(open, e) != [] {
      assert Emitted(open, e)[1..] == [];
    }
  }

  /** However the events of other indices interleave, what is put out for an index is what its own
      machine, which sees nothing but its own events and the end of the message, puts out. */
  lemma {:induction false} SlotsAreIndependent(open: seq<ContentBlock>, events: seq<Event>, n: nat, i: int)
    requires Unique(open) && n <= |events|
    ensures Selected(Emissions(open, events, n), i) == SlotRun(Slot(open, i), events[n..], i)
    decreases |events| - n
  {
    if n < |events| {
      var e, next := events[n], Opened(open, events[n]);
      OpenedSlot(open, e, i);
      SlotsAreIndependent(next, events, n + 1, i);
      assert events[n..][1..] == events[n + 1..];
      EmittedSelected(open, e, i);
      if Emitted(open, e) != [] {
        SelectedAppend(Emitted(open, e), Emissions(next, events, n + 1), i);
        ConcatEmpty(Selected(Emissions(next, events, n + 1), i));
      }
    }
  }

  predicate Concerns(e: Event, i: int) {
    match e
    case Start(j, _, _, _, _) => j == i
    case Changed(j, _) => j == i
    case Stop(j) => j == i
    case MessageStop => true
    case _ => false
  }

  /** The events that concern an index. */
  function Own(events: seq<Event>, i: int): seq<Event> {
    if events == [] then []
    else if Concerns(events[0], i) then [events[0]] + Own(events[1..], i)
    else Own(events[1..], i)
  }

  lemma {:induction false} OwnEventsDecide(slot: Option<ContentBlock>, events: seq<Event>, i: int)
    ensures SlotRun(slot, events, i) == SlotRun(slot, Own(events, i), i)
    decreases |events|
  {
    if events != [] {
      OwnEventsDecide(SlotNext(slot, events[0], i), events[1..], i);
      if Concerns(events[0], i) {
        assert Own(events, i)[1..] == Own(events[1..], i);
      }
    }
  }

  // ---- Lives of a content block ----

  /** One life of a block: a start, any deltas, and a stop or the end of the message. `Quiet` is an
      end of message while the index is not open. */
  datatype Span =
    | Quiet
    | Life(kind: Kind, name: Option<string>, input: string, thinking: string, deltas: seq<Delta>, flushed: bool)

  function Changes(deltas: seq<Delta>, i: int): seq<Event> {
    if deltas == [] then [] else [Changed(i, deltas[0])] + Changes(deltas[1..], i)
  }

  function SpanEvents(span: Span, i: int): seq<Event> {
    match span
    case Quiet => [MessageStop]
    case Life(kind, name, input, thinking, deltas, flushed) =>
      [Start(i, kind, name, input, thinking)] + (Changes(deltas, i) + [if flushed then MessageStop else Stop(i)])
  }

  function History(spans: seq<Span>, i: int): seq<Event> {
    if spans == [] then [] else SpanEvents(spans[0], i) + History(spans[1..], i)
  }

  /** The texts of the deltas of one type, concatenated in order. */
  function TextOf(deltas: seq<Delta>): string {
    if deltas == [] then "" else
      (match deltas[0] case TextDelta(t) => t + TextOf(deltas[1..]) case _ => TextOf(deltas[1..]))
  }

  function JsonOf(deltas: seq<Delta>): string {
    if deltas == [] then "" else
      (match deltas[0] case JsonDelta(p) => p + JsonOf(deltas[1..]) case _ => JsonOf(deltas[1..]))
  }

  function ThinkingOf(deltas: seq<Delta>): string {
    if deltas == [] then "" else
      (match deltas[0] case ThinkingDelta(t) => t + ThinkingOf(deltas[1..]) case _ => ThinkingOf(deltas[1..]))
  }

  /** What a life shows: the concatenation of its own deltas, after its initial thinking or input. */
  function SpanContent(span: Span): seq<Content> {
    match span
    case Quiet => []
    case Life(kind, name, input, thinking, deltas, _) =>
      match kind
      case Text => if TextOf(deltas) != "" then [TextContent(TextOf(deltas))] else []
      case ToolUse => [Action(if name.Some? then name.value else "tool", input + JsonOf(deltas))]
      case Thinking => if thinking + ThinkingOf(deltas) != "" then [Thought(thinking + ThinkingOf(deltas))] else []
      case OtherKind => []
  }

  function Contents(spans: seq<Span>): seq<Content> {
    if spans == [] then [] else SpanContent(spans[0]) + Contents(spans[1..])
  }

  /** An open block after some deltas. */
  function After(b: ContentBlock, deltas: seq<Delta>): ContentBlock {
    b.(text := b.text + TextOf(deltas), toolInput := b.toolInput + JsonOf(deltas),
       thinking := b.thinking + ThinkingOf(deltas))
  }

  lemma AfterOne(b: ContentBlock, deltas: seq<Delta>)
    requires deltas != []
    ensures After(Extended(b, deltas[0]), deltas[1..]) == After(b, deltas)
  {
    match deltas[0]
    case TextDelta(t) => ConcatAssociates(b.text, t, TextOf(deltas[1..]));
    case JsonDelta(p) => ConcatAssociates(b.toolInput, p, JsonOf(deltas[1..]));
    case ThinkingDelta(t) => ConcatAssociates(b.thinking, t, ThinkingOf(deltas[1..]));
    case OtherDelta =>
  }

  lemma {:induction false} ChangesAccumulate(b: ContentBlock, deltas: seq<Delta>, rest: seq<Event>, i: int)
    ensures SlotRun(Some(b), Changes(deltas, i) + rest, i) == SlotRun(Some(After(b, deltas)), rest, i)
    decreases |deltas|
  {
    if deltas == [] {
      ConcatEmpty(rest);
      ConcatEmpty(b.text);
      ConcatEmpty(b.toolInput);
      ConcatEmpty(b.thinking);
    } else {
      ConcatAssociates([Changed(i, deltas[0])], Changes(deltas[1..], i), rest);
      var more := Changes(deltas[1..], i) + rest;
      assert ([Changed(i, deltas[0])] + more)[1..] == more;
      ChangesAccumulate(Extended(b, deltas[0]), deltas[1..], rest, i);
      AfterOne(b, deltas);
    }
  }

  lemma CloseEmits(b: ContentBlock, e: Event, rest: seq<Event>, i: int)
    requires Closes(e, i)
    ensures SlotRun(Some(b), [e] + rest, i)
            == if Outcome(b).Some? then [Outcome(b).value] + SlotRun(None, rest, i) else SlotRun(None, rest, i)
  {
    assert ([e] + rest)[1..] == rest;
  }

  lemma LifeOutcome(span: Span, b: ContentBlock)
    requires span.Life?
    requires b == Started(Ensured(None, b.index, span.kind),
                          Start(b.index, span.kind, span.name, span.input, span.thinking))
    ensures var outcome := Outcome(After(b, span.deltas));
            SpanContent(span) == if outcome.Some? then [outcome.value] else []
  {
    ConcatEmpty(TextOf(span.deltas));
  }

  lemma SpanEmits(span: Span, rest: seq<Event>, i: int)
    ensures SlotRun(None, SpanEvents(span, i) + rest, i) == SpanContent(span) + SlotRun(None, rest, i)
  {
    match span
    case Quiet =>
      assert ([MessageStop] + rest)[1..] == rest;
      ConcatEmpty(SlotRun(None, rest, i));
    case Life(kind, name, input, thinking, deltas, flushed) =>
      var start, close := Start(i, kind, name, input, thinking), if flushed then MessageStop else Stop(i);
      ConcatAssociates([start], Changes(deltas, i) + [close], rest);
      ConcatAssociates(Changes(deltas, i), [close], rest);
      var more := Changes(deltas, i) + ([close] + rest);
      assert ([start] + more)[1..] == more;
      var b := Started(Ensured(None, i, kind), start);
      ChangesAccumulate(b, deltas, [close] + rest, i);
      CloseEmits(After(b, deltas), close, rest, i);
      LifeOutcome(span, b);
      ConcatEmpty(SlotRun(None, rest, i));
  }

  lemma {:induction false} HistoryEmits(spans: seq<Span>, rest: seq<Event>, i: int)
    ensures SlotRun(None, History(spans, i) + rest, i) == Contents(spans) + SlotRun(None, rest, i)
  {
    if spans == [] {
      ConcatEmpty(rest);
      ConcatEmpty(SlotRun(None, rest, i));
    } else {
      HistoryEmits(spans[1..], rest, i);
      ConcatAssociates(SpanEvents(spans[0], i), History(spans[1..], i), rest);
      SpanEmits(spans[0], History(spans[1..], i) + rest, i);
      ConcatAssociates(SpanContent(spans[0]), Contents(spans[1..]), SlotRun(None, rest, i));
    }
  }

  /** The events of a life that has not ended: a start and any deltas, or nothing at all. */
  function OpenEvents(open: Span, i: int): seq<Event> {
    match open
    case Quiet => []
    case Life(kind, name, input, thinking, deltas, _) => [Start(i, kind, name, input, thinking)] + Changes(deltas, i)
  }

  lemma OpenEmitsNothing(open: Span, i: int)
    ensures SlotRun(None, OpenEvents(open, i), i) == []
  {
    match open
    case Quiet =>
    case Life(kind, name, input, thinking, deltas, _) =>
      var start := Start(i, kind, name, input, thinking);
      assert ([start] + Changes(deltas, i))[1..] == Changes(deltas, i);
      ChangesAccumulate(Started(Ensured(None, i, kind), start), deltas, [], i);
      ConcatEmpty(Changes(deltas, i));
  }

  /** When the events of an index are a series of lives, of which the last may still be open where the
      recording stopped, its blocks are, life by life, the in-order concatenation of that life's own deltas,
      whatever the other indices do in between; what is still open is not shown. */
  lemma LivesAreAssembled(events: seq<Event>, spans: seq<Span>, open: Span, i: int)
    requires Own(events, i) == History(spans, i) + OpenEvents(open, i)
    ensures Selected(Emissions([], events, 0), i) == Contents(spans)
  {
    SlotsAreIndependent([], events, 0, i);
    assert events[0..] == events;
    OwnEventsDecide(None, events, i);
    HistoryEmits(spans, OpenEvents(open, i), i);
    OpenEmitsNothing(open, i);
    ConcatEmpty(Contents(spans));
  }
}
