/** A whole exchange as visual blocks: the tool results its request carries, then the blocks of its
    streamed response. */
module HttpExchange {
  import opened Common
  import opened SseBlocks
  import Decimal
  import SseText

  // ---- Tool results of the request ----

  /** One part of a message's content; the text of a tool result is None if it cannot be extracted. */
  datatype Part = NullPart | Part(isToolResult: bool, text: Option<string>, isError: bool)

  /** A message; content that is not a list is None. */
  datatype Message = NullMessage | Message(role: string, content: Option<seq<Part>>)

  /** A request body: no JSON or no messages in it, messages that are no list, or a list. */
  datatype Request = NoMessages | NotIterable | Messages(messages: seq<Message>)

  // Reading a field of null throws, and so does a loop over what is no list.

  predicate PartThrows(p: Part) {
    p.NullPart? || (p.isToolResult && p.text.None?)
  }

  predicate MessageThrows(m: Message) {
    || m.NullMessage?
    || (m.role == "user" && m.content.Some?
        && exists j :: 0 <= j < |m.content.value| && PartThrows(m.content.value[j]))
  }

  predicate Throws(request: Request) {
    || request.NotIterable?
    || (request.Messages? && exists n :: 0 <= n < |request.messages| && MessageThrows(request.messages[n]))
  }

  /** The tool results of a user message, from its `j`-th part on. */
  function PartResults(parts: seq<Part>, j: nat): seq<Content>
    requires j <= |parts|
    decreases |parts| - j
  {
    if j == |parts| then []
    else if parts[j].Part? && parts[j].isToolResult && parts[j].text.Some? then
      [ToolResult(parts[j].text.value, parts[j].isError)] + PartResults(parts, j + 1)
    else PartResults(parts, j + 1)
  }

  function Results(messages: seq<Message>, n: nat): seq<Content>
    requires n <= |messages|
    decreases |messages| - n
  {
    if n == |messages| then []
    else if messages[n].Message? && messages[n].role == "user" && messages[n].content.Some? then
      PartResults(messages[n].content.value, 0) + Results(messages, n + 1)
    else Results(messages, n + 1)
  }

  function RequestResults(request: Request): seq<Content> {
    if request.Messages? then Results(request.messages, 0) else []
  }

  /** The tool results of the request, numbered; None when reading it throws. */
  method ParseRequestToolResults(request: Request, sessionId: string, exchange: nat)
      returns (result: Option<seq<AgentBlock<Content>>>)
    ensures result.None? <==> Throws(request)
    ensures result.Some? ==> Numbered(result.value, RequestResults(request), sessionId, exchange)
  {
    var blocks: seq<AgentBlock<Content>> := [];
    if request.NoMessages? {
      return Some(blocks);
    } else if request.NotIterable? {
      return None;
    }
    var all := request.messages;
    var seqNo: nat := 0;
    ghost var shown: seq<Content> := [];
    ConcatEmpty(Results(all, 0));
    for n := 0 to |all|
      invariant seqNo == |blocks| && Numbered(blocks, shown, sessionId, exchange)
      invariant shown + Results(all, n) == Results(all, 0)
      invariant forall m :: 0 <= m < n ==> !MessageThrows(all[m])
    {
      if all[n].NullMessage? {
        return None;
      }
      if all[n].role != "user" || all[n].content.None? {
        continue;
      }
      var parts := all[n].content.value;
      ghost var was := shown;
      for j := 0 to |parts|
        invariant seqNo == |blocks| && Numbered(blocks, shown, sessionId, exchange)
        invariant was + PartResults(parts, 0) == shown + PartResults(parts, j)
        invariant forall m :: 0 <= m < j ==> !PartThrows(parts[m])
      {
        if PartThrows(parts[j]) {
          return None;
        }
        if parts[j].isToolResult {
          var c := ToolResult(parts[j].text.value, parts[j].isError);
          blocks := Push(blocks, shown, c, sessionId, exchange, seqNo);
          seqNo := seqNo + 1;
          ConcatAssociates(shown, [c], PartResults(parts, j + 1));
          shown := shown + [c];
        }
      }
      ConcatEmpty(shown);
      ConcatAssociates(was, PartResults(parts, 0), Results(all, n + 1));
    }
    ConcatEmpty(shown);
    result := Some(blocks);
  }

  lemma {:induction false} PartResultsAreResults(parts: seq<Part>, j: nat)
    requires j <= |parts|
    ensures forall c :: c in PartResults(parts, j) ==> c.ToolResult?
    decreases |parts| - j
  {
    if j < |parts| {
      PartResultsAreResults(parts, j + 1);
    }
  }

  lemma {:induction false} ResultsAreResults(messages: seq<Message>, n: nat)
    requires n <= |messages|
    ensures forall c :: c in Results(messages, n) ==> c.ToolResult?
    decreases |messages| - n
  {
    if n < |messages| {
      ResultsAreResults(messages, n + 1);
      if messages[n].Message? && messages[n].role == "user" && messages[n].content.Some? {
        PartResultsAreResults(messages[n].content.value, 0);
      }
    }
  }

  lemma {:induction false} FlushedAreResponses(open: seq<ContentBlock>, j: nat)
    requires j <= |open|
    ensures forall e :: e in Flush(open, j) ==> !e.content.ToolResult?
    decreases |open| - j
  {
    if j < |open| {
      FlushedAreResponses(open, j + 1);
    }
  }

  lemma {:induction false} EmissionsAreResponses(open: seq<ContentBlock>, events: seq<Event>, n: nat)
    requires n <= |events|
    ensures forall e :: e in Emissions(open, events, n) ==> !e.content.ToolResult?
    decreases |events| - n
  {
    if n < |events| {
      EmissionsAreResponses(Opened(open, events[n]), events, n + 1);
      FlushedAreResponses(open, 0);
    }
  }

  // ---- Ids ----

  lemma LastColon(s: string, a: string, b: string)
    requires ':' !in b && s == a + ":" + b
    ensures |a| < |s| && s[|a|] == ':' && forall k :: |a| < k < |s| ==> s[k] != ':'
  {
    forall k | |a| < k < |s| ensures s[k] != ':' {
      assert s[k] == b[k - |a| - 1];
    }
  }

  lemma LastField(a: string, b: string, c: string, d: string)
    requires ':' !in b && ':' !in d && a + ":" + b == c + ":" + d
    ensures a == c && b == d
  {
    var s := a + ":" + b;
    LastColon(s, a, b);
    LastColon(s, c, d);
    assert |a| == |c|;
    assert a == s[..|a|] && c == s[..|a|];
    assert b == s[|a| + 1..] && d == s[|a| + 1..];
  }

  lemma NumberHasNoColon(n: nat)
    ensures ':' !in Decimal.Show(n)
  {
  }

  /** An id determines its session, exchange, kind of block and number, whatever the session is called. */
  lemma IdInjective(s: string, x: nat, c: Content, m: nat, t: string, y: nat, d: Content, n: nat)
    requires Id(s, x, Tag(c), m) == Id(t, y, Tag(d), n)
    ensures s == t && x == y && Tag(c) == Tag(d) && m == n
  {
    NumberHasNoColon(m);
    NumberHasNoColon(n);
    NumberHasNoColon(x);
    NumberHasNoColon(y);
    var a, b := "http:" + s + ":" + Decimal.Show(x), "http:" + t + ":" + Decimal.Show(y);
    LastField(a + ":" + Tag(c), Decimal.Show(m), b + ":" + Tag(d), Decimal.Show(n));
    LastField(a, Tag(c), b, Tag(d));
    LastField("http:" + s, Decimal.Show(x), "http:" + t, Decimal.Show(y));
    assert ("http:" + s)[5..] == s && ("http:" + t)[5..] == t;
    Decimal.ShowInjective(m, n);
    Decimal.ShowInjective(x, y);
  }

  // ---- Ids within an exchange ----

  lemma IdsDiffer(s: string, x: nat, c: Content, m: nat, d: Content, n: nat)
    requires m != n || c.ToolResult? != d.ToolResult?
    ensures BlockOf(s, x, c, m).id != BlockOf(s, x, d, n).id
  {
    if BlockOf(s, x, c, m).id == BlockOf(s, x, d, n).id {
      IdInjective(s, x, c, m, s, x, d, n);
      assert false;
    }
  }

  lemma NumberedIdsDiffer(blocks: seq<AgentBlock<Content>>, shown: seq<Content>, s: string, x: nat, i: nat, j: nat)
    requires Numbered(blocks, shown, s, x) && i < j < |blocks|
    ensures blocks[i].id != blocks[j].id
  {
    IdsDiffer(s, x, shown[i], i, shown[j], j);
  }

  lemma ResultAndResponseIdsDiffer(results: seq<AgentBlock<Content>>, shown: seq<Content>,
                                   responses: seq<AgentBlock<Content>>, out: seq<Content>,
                                   s: string, x: nat, i: nat, j: nat)
    requires Numbered(results, shown, s, x) && i < |results| && shown[i].ToolResult?
    requires Numbered(responses, out, s, x) && j < |responses| && !out[j].ToolResult?
    ensures results[i].id != responses[j].id
  {
    IdsDiffer(s, x, shown[i], i, out[j], j);
  }

  lemma IdsDistinct(results: seq<AgentBlock<Content>>, shown: seq<Content>, responses: seq<AgentBlock<Content>>,
                    out: seq<Content>, s: string, x: nat)
    requires Numbered(results, shown, s, x) && forall c :: c in shown ==> c.ToolResult?
    requires Numbered(responses, out, s, x) && forall c :: c in out ==> !c.ToolResult?
    ensures var blocks := results + responses;
            forall i, j :: 0 <= i < j < |blocks| ==> blocks[i].id != blocks[j].id
  {
    var blocks, n := results + responses, |results|;
    forall i, j | 0 <= i < j < |blocks| ensures blocks[i].id != blocks[j].id {
      if j < n {
        NumberedIdsDiffer(results, shown, s, x, i, j);
      } else if i >= n {
        NumberedIdsDiffer(responses, out, s, x, i - n, j - n);
      } else {
        ResultAndResponseIdsDiffer(results, shown, responses, out, s, x, i, j - n);
      }
    }
  }

  /** No two blocks of an exchange share an id, though a tool result and a response block share numbers. */
  lemma ExchangeIdsDistinct(request: Request, events: seq<Event>, sessionId: string, exchange: nat,
                            results: seq<AgentBlock<Content>>, responses: seq<AgentBlock<Content>>)
    requires Numbered(results, RequestResults(request), sessionId, exchange)
    requires NumberedBlocks(responses, Emissions([], events, 0), sessionId, exchange)
    ensures var blocks := results + responses;
            forall i, j :: 0 <= i < j < |blocks| ==> blocks[i].id != blocks[j].id
  {
    if request.Messages? {
      ResultsAreResults(request.messages, 0);
    }
    var out := Emissions([], events, 0);
    EmissionsAreResponses([], events, 0);
    forall c | c in ContentsOf(out) ensures !c.ToolResult? {
      var k :| 0 <= k < |out| && ContentsOf(out)[k] == c;
      assert out[k] in out;
    }
    IdsDistinct(results, RequestResults(request), responses, ContentsOf(out), sessionId, exchange);
  }

  // ---- The whole exchange ----

  /** The blocks of an exchange; None when reading its request throws. */
  method ParseHttpExchange(request: Request, events: seq<Event>, sessionId: string, exchange: nat)
      returns (blocks: Option<seq<AgentBlock<Content>>>, ghost results: seq<AgentBlock<Content>>,
               ghost responses: seq<AgentBlock<Content>>)
    ensures blocks.None? <==> Throws(request)
    ensures blocks.Some? ==>
              && blocks.value == results + responses
              && Numbered(results, RequestResults(request), sessionId, exchange)
              && NumberedBlocks(responses, Emissions([], events, 0), sessionId, exchange)
              && (forall i, j :: 0 <= i < j < |blocks.value| ==> blocks.value[i].id != blocks.value[j].id)
  {
    results, responses := [], [];
    var respBlocks := BuildBlocks(events, sessionId, exchange);
    var toolResults := ParseRequestToolResults(request, sessionId, exchange);
    if toolResults.None? {
      return None, results, responses;
    }
    results, responses := toolResults.value, respBlocks;
    blocks := Some(toolResults.value + respBlocks);
    ExchangeIdsDistinct(request, events, sessionId, exchange, results, responses);
  }

  // ---- A response that was cut ----

  function Interpret<D>(view: D -> Event, parsed: seq<SseText.SseEvent<D>>): (events: seq<Event>)
    ensures |events| == |parsed| && forall k :: 0 <= k < |parsed| ==> events[k] == view(parsed[k].data)
  {
    seq(|parsed|, k requires 0 <= k < |parsed| => view(parsed[k].data))
  }

  lemma {:induction false} EmissionsOfPrefix(open: seq<ContentBlock>, a: seq<Event>, b: seq<Event>, n: nat)
    requires n <= |a| && a <= b
    ensures Emissions(open, a, n) <= Emissions(open, b, n)
    decreases |a| - n
  {
    if n < |a| {
      EmissionsOfPrefix(Opened(open, a[n]), a, b, n + 1);
      assert a[n] == b[n];
    }
  }

  /** The blocks of a response whose recorded body was cut cleanly are the first blocks of the whole. */
  lemma CutResponseShowsFirstBlocks<D>(parse: string -> Option<D>, view: D -> Event, whole: string, cut: string,
                                       sessionId: string, exchange: nat, shown: seq<AgentBlock<Content>>,
                                       all: seq<AgentBlock<Content>>)
    requires cut <= whole && SseText.CutsCleanly(parse, whole, cut)
    requires NumberedBlocks(shown, Emissions([], Interpret(view, SseText.Parsed(parse, cut)), 0), sessionId, exchange)
    requires NumberedBlocks(all, Emissions([], Interpret(view, SseText.Parsed(parse, whole)), 0), sessionId, exchange)
    ensures shown <= all
  {
    SseText.CutGivesPrefix(parse, whole, cut);
    EmissionsOfPrefix([], Interpret(view, SseText.Parsed(parse, cut)), Interpret(view, SseText.Parsed(parse, whole)),
                      0);
  }

  /** Wherever the recording of a response stopped, its blocks are the first blocks of the whole. */
  lemma CutStreamShowsFirstBlocks<D>(parse: string -> Option<D>, view: D -> Event, ws: seq<SseText.Written>,
                                     cut: string, sessionId: string, exchange: nat, shown: seq<AgentBlock<Content>>,
                                     all: seq<AgentBlock<Content>>)
    requires (forall w :: w in ws ==> SseText.Writable(w)) && cut <= SseText.Render(ws)
    requires NumberedBlocks(shown, Emissions([], Interpret(view, SseText.Parsed(parse, cut)), 0), sessionId, exchange)
    requires NumberedBlocks(all, Emissions([], Interpret(view, SseText.ReadBack(parse, ws)), 0), sessionId, exchange)
    ensures shown <= all
  {
    SseText.EveryCutOfWritten(parse, ws, cut);
    SseText.RenderedIsReadBack(parse, ws);
    CutResponseShowsFirstBlocks(parse, view, SseText.Render(ws), cut, sessionId, exchange, shown, all);
  }
}
