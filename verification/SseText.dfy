/** The text form of an event stream: `event:` and `data:` lines, each event closed by a blank line. */
module SseText {
  import opened Common
  import opened Lines

  datatype SseEvent<D> = SseEvent(event: string, data: D)

  /** White space as `trim` removes it, without the line feed that separates lines. */
  predicate White(c: char) {
    var u := c as int;
    u in {9, 11, 12, 13, 32, 0xA0, 0x1680, 0x2028, 0x2029, 0x202F, 0x205F, 0x3000, 0xFEFF} || 0x2000 <= u <= 0x200A
  }

  function TrimEnd(s: string): string {
    if s != "" && White(s[|s| - 1]) then TrimEnd(s[..|s| - 1]) else s
  }

  function TrimStart(s: string): string {
    if s != "" && White(s[0]) then TrimStart(s[1..]) else s
  }

  function Trim(s: string): string {
    TrimEnd(TrimStart(s))
  }

  datatype Reader<D> = Reader(event: string, data: string, events: seq<SseEvent<D>>)

  const EVENT := "event: "
  const DATA := "data: "

  /** One line. A blank line closes an event that has data; data that is not JSON is dropped. */
  function Feed<D>(parse: string -> Option<D>, r: Reader<D>, line: string): Reader<D> {
    if EVENT <= line then r.(event := Trim(line[|EVENT|..]))
    else if DATA <= line then r.(data := line[|DATA|..])
    else if Trim(line) == "" && r.data != "" then
      var d := parse(r.data);
      Reader("", "", if d.Some? then r.events + [SseEvent(r.event, d.value)] else r.events)
    else r
  }

  /** The reader after the first `n` lines. */
  function FeedAll<D>(parse: string -> Option<D>, lines: seq<string>, n: nat): Reader<D>
    requires n <= |lines|
  {
    if n == 0 then Reader("", "", []) else Feed(parse, FeedAll(parse, lines, n - 1), lines[n - 1])
  }

  function Parsed<D>(parse: string -> Option<D>, raw: string): seq<SseEvent<D>> {
    FeedAll(parse, Split(raw), |Split(raw)|).events
  }

  method ParseSse<D>(parse: string -> Option<D>, raw: string) returns (events: seq<SseEvent<D>>)
    ensures events == Parsed(parse, raw)
  {
    events := [];
    var event, data := "", "";
    var lines := Split(raw);
    for n := 0 to |lines|
      invariant Reader(event, data, events) == FeedAll(parse, lines, n)
    {
      var line := lines[n];
      if EVENT <= line {
        event := Trim(line[|EVENT|..]);
      } else if DATA <= line {
        data := line[|DATA|..];
      } else if Trim(line) == "" && data != "" {
        var d := parse(data);
        if d.Some? {
          events := events + [SseEvent(event, d.value)];
        }
        event, data := "", "";
      }
    }
  }

  // ---- Writing and reading back ----

  /** An event as the server writes it. */
  datatype Written = Written(event: string, json: string)

  predicate Writable(w: Written) {
    '\n' !in w.event && Trim(w.event) == w.event && '\n' !in w.json && w.json != ""
  }

  /** The event line, the data line and the empty line of one event. */
  function EventLines(w: Written): seq<string> {
    [EVENT + w.event, DATA + w.json, ""]
  }

  function WrittenLines(ws: seq<Written>): seq<string> {
    if ws == [] then [""] else EventLines(ws[0]) + WrittenLines(ws[1..])
  }

  /** The text of a stream: an event line, a data line and an empty line for each event. */
  function Render(ws: seq<Written>): string {
    Join(WrittenLines(ws))
  }

  function ReadBack<D>(parse: string -> Option<D>, ws: seq<Written>): seq<SseEvent<D>> {
    if ws == [] then []
    else
      var d := parse(ws[0].json);
      if d.Some? then [SseEvent(ws[0].event, d.value)] + ReadBack(parse, ws[1..]) else ReadBack(parse, ws[1..])
  }

  lemma {:induction false} WrittenLinesHaveNoNewlines(ws: seq<Written>)
    requires forall w :: w in ws ==> Writable(w)
    ensures NoNewlines(WrittenLines(ws)) && WrittenLines(ws) != []
  {
    if ws != [] {
      assert ws[0] in ws;
      WrittenLinesHaveNoNewlines(ws[1..]);
      forall l | l in WrittenLines(ws) ensures '\n' !in l {
        assert l in EventLines(ws[0]) || l in WrittenLines(ws[1..]);
      }
    }
  }

  /** Feeding the rest of the lines from some reader. */
  function FeedRest<D>(parse: string -> Option<D>, r: Reader<D>, lines: seq<string>): Reader<D>
    decreases |lines|
  {
    if lines == [] then r else FeedRest(parse, Feed(parse, r, lines[0]), lines[1..])
  }

  lemma {:induction false} FeedAllIsFeedRest<D>(parse: string -> Option<D>, lines: seq<string>, n: nat)
    requires n <= |lines|
    ensures FeedRest(parse, FeedAll(parse, lines, n), lines[n..]) == FeedAll(parse, lines, |lines|)
    decreases |lines| - n
  {
    if n < |lines| {
      assert lines[n..][1..] == lines[n + 1..];
      FeedAllIsFeedRest(parse, lines, n + 1);
    }
  }

  lemma FeedEventLine<D>(parse: string -> Option<D>, r: Reader<D>, e: string)
    requires Trim(e) == e
    ensures Feed(parse, r, EVENT + e) == r.(event := e)
  {
    assert (EVENT + e)[|EVENT|..] == e;
  }

  lemma FeedDataLine<D>(parse: string -> Option<D>, r: Reader<D>, d: string)
    ensures Feed(parse, r, DATA + d) == r.(data := d)
  {
    assert (DATA + d)[|DATA|..] == d;
    assert (DATA + d)[0] == 'd' && EVENT[0] == 'e';
    assert !(EVENT <= DATA + d) && DATA <= DATA + d;
  }

  lemma FeedRestCons<D>(parse: string -> Option<D>, r: Reader<D>, line: string, rest: seq<string>)
    ensures FeedRest(parse, r, [line] + rest) == FeedRest(parse, Feed(parse, r, line), rest)
  {
    assert ([line] + rest)[1..] == rest;
  }

  lemma FeedBlankLine<D>(parse: string -> Option<D>, r: Reader<D>)
    requires r.data != ""
    ensures var d := parse(r.data);
            Feed(parse, r, "") == Reader("", "", if d.Some? then r.events + [SseEvent(r.event, d.value)] else r.events)
  {
  }

  lemma EventLinesCons(w: Written, rest: seq<string>)
    ensures EventLines(w) + rest == [EVENT + w.event] + ([DATA + w.json] + ([""] + rest))
  {
  }

  lemma FeedOneEvent<D>(parse: string -> Option<D>, events: seq<SseEvent<D>>, w: Written, rest: seq<string>)
    requires Writable(w)
    ensures var d := parse(w.json);
            FeedRest(parse, Reader("", "", events), EventLines(w) + rest)
            == FeedRest(parse, Reader("", "", if d.Some? then events + [SseEvent(w.event, d.value)] else events), rest)
  {
    var r := Reader("", "", events);
    EventLinesCons(w, rest);
    FeedRestCons(parse, r, EVENT + w.event, [DATA + w.json] + ([""] + rest));
    FeedEventLine(parse, r, w.event);
    FeedRestCons(parse, r.(event := w.event), DATA + w.json, [""] + rest);
    FeedDataLine(parse, r.(event := w.event), w.json);
    FeedRestCons(parse, Reader(w.event, w.json, events), "", rest);
    FeedBlankLine(parse, Reader(w.event, w.json, events));
  }

  lemma {:induction false} FeedWritten<D>(parse: string -> Option<D>, events: seq<SseEvent<D>>, ws: seq<Written>)
    requires forall w :: w in ws ==> Writable(w)
    ensures FeedRest(parse, Reader("", "", events), WrittenLines(ws)).events == events + ReadBack(parse, ws)
    decreases |ws|
  {
    if ws == [] {
      ConcatEmpty(events);
      assert WrittenLines(ws)[1..] == [];
    } else {
      assert ws[0] in ws;
      FeedOneEvent(parse, events, ws[0], WrittenLines(ws[1..]));
      var d := parse(ws[0].json);
      if d.Some? {
        FeedWritten(parse, events + [SseEvent(ws[0].event, d.value)], ws[1..]);
        ConcatAssociates(events, [SseEvent(ws[0].event, d.value)], ReadBack(parse, ws[1..]));
      } else {
        FeedWritten(parse, events, ws[1..]);
      }
    }
  }

  /** Every written event whose data is JSON is read back, in order, with its name. */
  lemma RenderedIsReadBack<D>(parse: string -> Option<D>, ws: seq<Written>)
    requires forall w :: w in ws ==> Writable(w)
    ensures Parsed(parse, Render(ws)) == ReadBack(parse, ws)
  {
    WrittenLinesHaveNoNewlines(ws);
    SplitJoin(WrittenLines(ws));
    var lines := WrittenLines(ws);
    FeedAllIsFeedRest(parse, lines, 0);
    assert lines[0..] == lines;
    FeedWritten(parse, [], ws);
    ConcatEmpty(ReadBack(parse, ws));
  }

  // ---- A body that was cut ----

  /** All but the last of the lines are the first lines of the whole, and the last is a prefix of the next. */
  ghost predicate CutLines(part: seq<string>, whole: seq<string>) {
    && 0 < |part| <= |whole|
    && (forall j :: 0 <= j < |part| - 1 ==> part[j] == whole[j])
    && part[|part| - 1] <= whole[|part| - 1]
  }

  lemma CutLinesAfterLine(part: seq<string>, whole: seq<string>)
    requires CutLines(part, whole)
    ensures CutLines([""] + part, [""] + whole)
  {
  }

  lemma CutLinesAfterChar(c: char, part: seq<string>, whole: seq<string>)
    requires CutLines(part, whole)
    ensures CutLines([[c] + part[0]] + part[1..], [[c] + whole[0]] + whole[1..])
  {
  }

  /** Cutting a text leaves its first lines and a prefix of the next. */
  lemma {:induction false} SplitCut(s: string, cut: string)
    requires cut <= s
    ensures CutLines(Split(cut), Split(s))
  {
    if cut != "" {
      SplitCut(s[1..], cut[1..]);
      if cut[0] == '\n' {
        CutLinesAfterLine(Split(cut[1..]), Split(s[1..]));
      } else {
        CutLinesAfterChar(cut[0], Split(cut[1..]), Split(s[1..]));
      }
    }
  }

  lemma {:induction false} EventsGrow<D>(parse: string -> Option<D>, lines: seq<string>, m: nat, n: nat)
    requires m <= n <= |lines|
    ensures FeedAll(parse, lines, m).events <= FeedAll(parse, lines, n).events
    decreases n - m
  {
    if m < n {
      EventsGrow(parse, lines, m, n - 1);
    }
  }

  lemma {:induction false} FeedSameLines<D>(parse: string -> Option<D>, a: seq<string>, b: seq<string>, n: nat)
    requires n <= |a| && n <= |b| && forall j :: 0 <= j < n ==> a[j] == b[j]
    ensures FeedAll(parse, a, n) == FeedAll(parse, b, n)
  {
    if n > 0 {
      FeedSameLines(parse, a, b, n - 1);
    }
  }

  lemma {:induction false} TrimEndKeepsBlack(s: string)
    requires s != "" && !White(s[0])
    ensures TrimEnd(s) != ""
  {
    if White(s[|s| - 1]) {
      TrimEndKeepsBlack(s[..|s| - 1]);
    }
  }

  /** A blank line begins with white space, if it has any character. */
  lemma TrimKeepsBlack(s: string)
    requires Trim(s) == ""
    ensures s == "" || White(s[0])
  {
    if s != "" && !White(s[0]) {
      TrimEndKeepsBlack(s);
    }
  }

  /** The line closes an event: it is blank, and what it closes is JSON. */
  predicate Closes<D>(parse: string -> Option<D>, r: Reader<D>, line: string) {
    Trim(line) == "" && r.data != "" && parse(r.data).Some?
  }

  /** Name and data of the first event that the lines from `n` on close. */
  function NextClosed<D>(parse: string -> Option<D>, r: Reader<D>, lines: seq<string>, n: nat): Option<(string, string)>
    requires n <= |lines|
    decreases |lines| - n
  {
    if n == |lines| then None
    else if Closes(parse, r, lines[n]) then Some((r.event, r.data))
    else NextClosed(parse, Feed(parse, r, lines[n]), lines, n + 1)
  }

  lemma FeedCloses<D>(parse: string -> Option<D>, r: Reader<D>, line: string)
    ensures Feed(parse, r, line).events
            == if Closes(parse, r, line) then r.events + [SseEvent(r.event, parse(r.data).value)] else r.events
  {
    if Trim(line) == "" {
      TrimKeepsBlack(line);
    }
  }

  lemma EventsBegin<D>(events: seq<SseEvent<D>>, e: SseEvent<D>, all: seq<SseEvent<D>>)
    requires events + [e] <= all
    ensures |events| < |all| && all[|events|] == e
  {
    assert all[|events|] == (events + [e])[|events|];
  }

  /** The first event that is closed later is the next one of the whole. */
  lemma {:induction false} NextClosedIsNext<D>(parse: string -> Option<D>, lines: seq<string>, n: nat)
    requires n <= |lines|
    ensures var r, all := FeedAll(parse, lines, n), FeedAll(parse, lines, |lines|).events;
            var c := NextClosed(parse, r, lines, n);
            if c.None? then all == r.events
            else parse(c.value.1).Some? && |r.events| < |all|
                 && all[|r.events|] == SseEvent(c.value.0, parse(c.value.1).value)
    decreases |lines| - n
  {
    if n < |lines| {
      var r := FeedAll(parse, lines, n);
      FeedCloses(parse, r, lines[n]);
      if Closes(parse, r, lines[n]) {
        EventsGrow(parse, lines, n + 1, |lines|);
        EventsBegin(r.events, SseEvent(r.event, parse(r.data).value), FeedAll(parse, lines, |lines|).events);
      } else {
        NextClosedIsNext(parse, lines, n + 1);
      }
    }
  }

  lemma PrefixMeansNext<D>(events: seq<SseEvent<D>>, e: SseEvent<D>, all: seq<SseEvent<D>>)
    requires events <= all
    ensures events + [e] <= all <==> |events| < |all| && all[|events|] == e
  {
    if events + [e] <= all {
      EventsBegin(events, e, all);
    }
  }

  /** The piece in place of the `k`-th line closes no event that the whole would not close next: it is not
      blank, or no JSON is pending there, or the next event that the whole closes has the pending name and
      the pending value. */
  predicate EndsCleanly<D(==)>(parse: string -> Option<D>, lines: seq<string>, k: nat, piece: string)
    requires k <= |lines|
  {
    var r := FeedAll(parse, lines, k);
    || !Closes(parse, r, piece)
    || (var c := NextClosed(parse, r, lines, k);
        c.Some? && c.value.0 == r.event && parse(c.value.1) == parse(r.data))
  }

  lemma PieceGivesPrefix<D>(parse: string -> Option<D>, lines: seq<string>, k: nat, piece: string)
    requires k <= |lines|
    ensures Feed(parse, FeedAll(parse, lines, k), piece).events <= FeedAll(parse, lines, |lines|).events
            <==> EndsCleanly(parse, lines, k, piece)
  {
    var r := FeedAll(parse, lines, k);
    EventsGrow(parse, lines, k, |lines|);
    FeedCloses(parse, r, piece);
    if Closes(parse, r, piece) {
      NextClosedIsNext(parse, lines, k);
      PrefixMeansNext(r.events, SseEvent(r.event, parse(r.data).value), FeedAll(parse, lines, |lines|).events);
    }
  }

  /** The piece that the cut leaves of a line ends the text cleanly. */
  predicate CutsCleanly<D(==)>(parse: string -> Option<D>, s: string, cut: string)
    requires cut <= s
  {
    var k := |Split(cut)| - 1;
    k <= |Split(s)| && EndsCleanly(parse, Split(s), k, Split(cut)[k])
  }

  /** The lines of a cut text, read in terms of the whole. */
  lemma ParsedCut<D>(parse: string -> Option<D>, s: string, cut: string)
    requires cut <= s
    ensures var k := |Split(cut)| - 1;
            && k < |Split(s)|
            && Parsed(parse, cut) == Feed(parse, FeedAll(parse, Split(s), k), Split(cut)[k]).events
  {
    SplitCut(s, cut);
    FeedSameLines(parse, Split(cut), Split(s), |Split(cut)| - 1);
  }

  /** The events of a text that was cut, as the capture cuts it, are the first events of the whole exactly
      when the cut is clean. */
  lemma CutGivesPrefix<D>(parse: string -> Option<D>, s: string, cut: string)
    requires cut <= s
    ensures Parsed(parse, cut) <= Parsed(parse, s) <==> CutsCleanly(parse, s, cut)
  {
    ParsedCut(parse, s, cut);
    PieceGivesPrefix(parse, Split(s), |Split(cut)| - 1, Split(cut)[|Split(cut)| - 1]);
  }

  // ---- Every cut of a well-formed stream ----

  lemma ConcatAt(first: seq<string>, rest: seq<string>, j: nat)
    requires j < |rest|
    ensures (first + rest)[|first| + j] == rest[j]
  {
  }

  lemma {:induction false} WrittenLinesEnd(ws: seq<Written>)
    ensures |WrittenLines(ws)| == 3 * |ws| + 1
    ensures WrittenLines(ws)[3 * |ws|] == ""
  {
    if ws != [] {
      WrittenLinesEnd(ws[1..]);
      ConcatAt(EventLines(ws[0]), WrittenLines(ws[1..]), 3 * |ws[1..]|);
    }
  }

  lemma {:induction false} WrittenLinesAt(ws: seq<Written>, i: nat)
    requires i < |ws| && 3 * i + 2 < |WrittenLines(ws)|
    ensures WrittenLines(ws)[3 * i] == EVENT + ws[i].event
    ensures WrittenLines(ws)[3 * i + 1] == DATA + ws[i].json
    ensures WrittenLines(ws)[3 * i + 2] == ""
  {
    if i > 0 {
      var first, rest := EventLines(ws[0]), WrittenLines(ws[1..]);
      WrittenLinesAt(ws[1..], i - 1);
      ConcatAt(first, rest, 3 * (i - 1));
      ConcatAt(first, rest, 3 * (i - 1) + 1);
      ConcatAt(first, rest, 3 * (i - 1) + 2);
    }
  }

  /** After the three lines of an event nothing is pending; after its data line the empty line follows. */
  lemma OneEventLines<D>(parse: string -> Option<D>, ws: seq<Written>, i: nat)
    requires i < |ws| && Writable(ws[i]) && 3 * i + 3 <= |WrittenLines(ws)|
    requires FeedAll(parse, WrittenLines(ws), 3 * i).data == ""
    ensures FeedAll(parse, WrittenLines(ws), 3 * i + 1).data == ""
    ensures FeedAll(parse, WrittenLines(ws), 3 * i + 3).data == ""
  {
    var lines := WrittenLines(ws);
    WrittenLinesAt(ws, i);
    FeedEventLine(parse, FeedAll(parse, lines, 3 * i), ws[i].event);
    FeedDataLine(parse, FeedAll(parse, lines, 3 * i + 1), ws[i].json);
    assert FeedAll(parse, lines, 3 * i + 2).data == ws[i].json;
    assert FeedAll(parse, lines, 3 * i + 3) == Feed(parse, FeedAll(parse, lines, 3 * i + 2), "");
  }

  lemma {:induction false} NothingPending<D>(parse: string -> Option<D>, ws: seq<Written>, i: nat)
    requires i <= |ws| && 3 * i <= |WrittenLines(ws)| && forall w :: w in ws ==> Writable(w)
    ensures FeedAll(parse, WrittenLines(ws), 3 * i).data == ""
  {
    if i > 0 {
      NothingPending(parse, ws, i - 1);
      assert ws[i - 1] in ws;
      OneEventLines(parse, ws, i - 1);
    }
  }

  lemma PendingIsClosed<D>(parse: string -> Option<D>, ws: seq<Written>, i: nat, k: nat)
    requires k < |WrittenLines(ws)| && forall w :: w in ws ==> Writable(w)
    requires i <= |ws| && 3 * i <= k < 3 * i + 3
    ensures FeedAll(parse, WrittenLines(ws), k).data != "" ==> WrittenLines(ws)[k] == ""
  {
    WrittenLinesEnd(ws);
    if i < |ws| && k == 3 * i + 2 {
      WrittenLinesAt(ws, i);
    } else {
      NothingPending(parse, ws, i);
      if k == 3 * i + 1 {
        assert ws[i] in ws;
        OneEventLines(parse, ws, i);
      }
    }
  }

  /** Of a stream as the server writes it, every cut keeps the first events. */
  lemma EveryCutOfWritten<D>(parse: string -> Option<D>, ws: seq<Written>, cut: string)
    requires (forall w :: w in ws ==> Writable(w)) && cut <= Render(ws)
    ensures CutsCleanly(parse, Render(ws), cut) && Parsed(parse, cut) <= Parsed(parse, Render(ws))
  {
    WrittenLinesHaveNoNewlines(ws);
    SplitJoin(WrittenLines(ws));
    SplitCut(Render(ws), cut);
    WrittenLinesEnd(ws);
    PendingIsClosed(parse, ws, (|Split(cut)| - 1) / 3, |Split(cut)| - 1);
    CutGivesPrefix(parse, Render(ws), cut);
  }

  // ---- Cuts that are not clean ----

  lemma OneDataLine<D>(parse: string -> Option<D>, a: string, x: D)
    requires '\n' !in a && a != "" && parse(a) == Some(x)
    ensures Split(DATA + a + "\n") == [DATA + a, ""]
    ensures Parsed(parse, DATA + a + "\n") == [SseEvent("", x)]
  {
    SplitPrepend(DATA + a, "");
    ConcatEmpty("\n");
    var lines := [DATA + a, ""];
    FeedDataLine(parse, Reader("", "", []), a);
    FeedBlankLine(parse, Reader("", a, []));
    assert FeedAll(parse, lines, 1) == Reader("", a, []);
  }

  lemma TwoDataLines<D>(parse: string -> Option<D>, a: string, b: string, y: D)
    requires '\n' !in a && '\n' !in b && b != "" && parse(b) == Some(y)
    ensures Split(DATA + a + "\n" + (DATA + b + "\n")) == [DATA + a, DATA + b, ""]
    ensures Parsed(parse, DATA + a + "\n" + (DATA + b + "\n")) == [SseEvent("", y)]
  {
    OneDataLine(parse, b, y);
    SplitPrepend(DATA + a, DATA + b + "\n");
    ConcatAssociates(DATA + a, "\n", DATA + b + "\n");
    var lines := [DATA + a, DATA + b, ""];
    FeedDataLine(parse, Reader("", "", []), a);
    FeedDataLine(parse, Reader("", a, []), b);
    FeedBlankLine(parse, Reader("", b, []));
    assert FeedAll(parse, lines, 1) == Reader("", a, []);
    assert FeedAll(parse, lines, 2) == Reader("", b, []);
  }

  /** A cut between two data lines closes the event early. That is harmless exactly when the second data
      has the same value, even if it is written differently. */
  lemma CutBetweenData<D>(parse: string -> Option<D>, a: string, b: string, x: D, y: D)
    requires '\n' !in a && '\n' !in b && a != "" && b != ""
    requires parse(a) == Some(x) && parse(b) == Some(y)
    ensures var s, cut := DATA + a + "\n" + (DATA + b + "\n"), DATA + a + "\n";
            cut <= s && (CutsCleanly(parse, s, cut) <==> x == y) && (Parsed(parse, cut) <= Parsed(parse, s) <==> x == y)
  {
    OneDataLine(parse, a, x);
    TwoDataLines(parse, a, b, y);
    assert [SseEvent("", x)][0] == SseEvent("", x) && [SseEvent("", y)][0] == SseEvent("", y);
    CutGivesPrefix(parse, DATA + a + "\n" + (DATA + b + "\n"), DATA + a + "\n");
  }
}
