/** Capture of proxied exchanges: each response body is forwarded frame by frame while its first
    bytes are kept, and one record is made when the body ends or is dropped. Its task first takes the
    next number for it and then sends it; other tasks may do the same in between. */
module Capture {
  import opened Common

  /** Bytes kept of a body, 1 MiB. */
  const BODY_CAP: nat := 1024 * 1024

  datatype Frame = Data(bytes: seq<byte>) | Trailers

  /** What the upstream body answers to one poll. */
  datatype Poll = Pending | Ready(frame: Frame) | Failed | End

  function DataOf(p: Poll): seq<byte> {
    if p.Ready? && p.frame.Data? then p.frame.bytes else []
  }

  datatype Capped = Capped(body: seq<byte>, truncated: bool)

  datatype Exchange = Exchange(id: string, reqBody: seq<byte>, status: nat, respBody: seq<byte>, truncated: bool)

  datatype HttpTraffic = HttpTraffic(sessionId: string, exchange: Exchange, seqNo: nat)

  datatype EmitCtx = EmitCtx(exchangeId: string, reqBody: seq<byte>, status: nat, sessionId: string)

  function CapBody(body: seq<byte>): (r: Capped)
    ensures r.body <= body && |r.body| <= BODY_CAP
    ensures r.truncated <==> r.body != body
    ensures r.truncated ==> |r.body| == BODY_CAP
  {
    if |body| > BODY_CAP then Capped(body[..BODY_CAP], true) else Capped(body, false)
  }

  function Finish(ctx: EmitCtx, respBody: seq<byte>, truncated: bool): Exchange {
    var req, resp := CapBody(ctx.reqBody), CapBody(respBody);
    Exchange(ctx.exchangeId, req.body, ctx.status, resp.body, truncated || req.truncated || resp.truncated)
  }

  /** Capturing only what fits loses nothing against capping the whole body at the end. */
  lemma FinishOfCapped(ctx: EmitCtx, body: seq<byte>)
    ensures Finish(ctx, CapBody(body).body, CapBody(body).truncated) == Finish(ctx, body, false)
  {
  }

  /** The record of a whole response body. */
  function RecordOf(ctx: EmitCtx, body: seq<byte>, seqNo: nat): HttpTraffic {
    HttpTraffic(ctx.sessionId, Finish(ctx, body, false), seqNo)
  }

  /** What one more frame does to a capped body. */
  lemma CapGrows(seen: seq<byte>, data: seq<byte>)
    ensures var was, now := CapBody(seen), CapBody(seen + data);
            if |was.body| < BODY_CAP then
              if |data| > BODY_CAP - |was.body|
              then now == Capped(was.body + data[..BODY_CAP - |was.body|], true)
              else now == Capped(was.body + data, was.truncated)
            else now == Capped(was.body, was.truncated || data != [])
  {
    if |seen| < BODY_CAP {
      if |data| > BODY_CAP - |seen| {
        assert (seen + data)[..BODY_CAP] == seen + data[..BODY_CAP - |seen|];
      }
    } else {
      assert (seen + data)[..BODY_CAP] == seen[..BODY_CAP];
      if data == [] {
        ConcatEmpty(seen);
      } else if |seen| == BODY_CAP {
        assert seen[..BODY_CAP] == seen;
      }
    }
  }

  /** All but the `k`-th. */
  function Without<T>(s: seq<T>, k: nat): seq<T>
    requires k < |s|
  {
    s[..k] + s[k + 1..]
  }

  /** The sequence counter and the channel to the desktop, shared by the bodies of a session. `held` are
      the records that have a number but are still in the hands of their tasks, in the order of numbers. */
  class Outbox {
    var next: nat
    var held: seq<HttpTraffic>
    var sent: seq<HttpTraffic>

    constructor ()
      ensures next == 0 && held == [] && sent == []
    {
      next, held, sent := 0, [], [];
    }

    /** A task takes the next number for its record. */
    method TakeNumber(sessionId: string, exchange: Exchange)
      modifies this
      ensures next == old(next) + 1 && sent == old(sent)
      ensures held == old(held) + [HttpTraffic(sessionId, exchange, old(next))]
    {
      held := held + [HttpTraffic(sessionId, exchange, next)];
      next := next + 1;
    }

    /** One of the tasks goes on and sends its record. */
    method SendHeld(k: nat)
      modifies this
      ensures next == old(next)
      ensures if k < |old(held)| then held == Without(old(held), k) && sent == old(sent) + [old(held)[k]]
              else held == old(held) && sent == old(sent)
    {
      if k < |held| {
        sent := sent + [held[k]];
        held := Without(held, k);
      }
    }
  }

  class TeeBody {
    var captured: seq<byte>
    var truncated: bool
    var ctx: Option<EmitCtx>
    /** The whole body so far, for as long as it has no record. */
    ghost var seen: seq<byte>

    ghost predicate Valid()
      reads this
    {
      ctx.Some? ==> CapBody(seen) == Capped(captured, truncated)
    }

    constructor (context: EmitCtx)
      ensures Valid() && ctx == Some(context) && seen == []
    {
      captured, truncated, ctx, seen := [], false, Some(context), [];
    }

    /** Makes the record of everything seen, unless there is one. */
    method Emit(out: Outbox)
      requires Valid()
      modifies this, out
      ensures out.sent == old(out.sent)
      ensures Valid() && ctx == None && seen == old(seen)
      ensures old(ctx).None? ==> out.next == old(out.next) && out.held == old(out.held)
      ensures old(ctx).Some? ==>
                && out.next == old(out.next) + 1
                && out.held == old(out.held) + [RecordOf(old(ctx).value, old(seen), old(out.next))]
    {
      if ctx.None? {
        return;
      }
      FinishOfCapped(ctx.value, seen);
      var exchange := Finish(ctx.value, captured, truncated);
      out.TakeNumber(ctx.value.sessionId, exchange);
      ctx, captured := None, [];
    }

    /** One poll: the answer is passed on as it is, and the end of the body makes the record. */
    method PollFrame(polled: Poll, out: Outbox) returns (forwarded: Poll)
      requires Valid()
      modifies this, out
      ensures out.sent == old(out.sent)
      ensures Valid() && forwarded == polled
      ensures old(ctx).Some? ==> seen == old(seen) + DataOf(polled)
      ensures old(ctx).None? ==> seen == old(seen)
      ensures !polled.End? ==> ctx == old(ctx) && out.next == old(out.next) && out.held == old(out.held)
      ensures polled.End? ==> ctx == None
      ensures polled.End? && old(ctx).None? ==> out.next == old(out.next) && out.held == old(out.held)
      ensures polled.End? && old(ctx).Some? ==>
                && out.next == old(out.next) + 1
                && out.held == old(out.held) + [RecordOf(old(ctx).value, old(seen), old(out.next))]
    {
      if polled.Ready? && polled.frame.Data? {
        var data := polled.frame.bytes;
        if |captured| < BODY_CAP {
          var room := BODY_CAP - |captured|;
          if |data| > room {
            captured := captured + data[..room];
            truncated := true;
          } else {
            captured := captured + data;
          }
        } else if data != [] {
          truncated := true;
        }
      } else if polled.End? {
        Emit(out);
      }
      if ctx.Some? {
        CapGrows(old(seen), DataOf(polled));
        seen := seen + DataOf(polled);
      }
      return polled;
    }

    /** Dropping the body, finished or not. */
    method Drop(out: Outbox)
      requires Valid()
      modifies this, out
      ensures out.sent == old(out.sent)
      ensures Valid() && ctx == None && seen == old(seen)
      ensures old(ctx).None? ==> out.next == old(out.next) && out.held == old(out.held)
      ensures old(ctx).Some? ==>
                && out.next == old(out.next) + 1
                && out.held == old(out.held) + [RecordOf(old(ctx).value, old(seen), old(out.next))]
    {
      Emit(out);
    }
  }

  // ---- Many bodies at once ----

  /** A poll or the drop of one of the bodies, a whole translated response that is recorded at once, or
      a task that sends the record in its hands. */
  datatype Action =
    | PollBody(body: nat, polled: Poll)
    | DropBody(body: nat)
    | Translated(context: EmitCtx, bytes: seq<byte>)
    | SendHeld(k: nat)

  predicate OnBody(a: Action) {
    a.PollBody? || a.DropBody?
  }

  /** What a record is about. */
  datatype Origin = OfBody(body: nat) | Direct(context: EmitCtx, bytes: seq<byte>)

  predicate Finishes(a: Action) {
    a.DropBody? || (a.PollBody? && a.polled.End?)
  }

  /** What the client of the body sees of an action. */
  function Answer(a: Action): Option<Poll> {
    if a.PollBody? then Some(a.polled) else None
  }

  method Act(tee: TeeBody, out: Outbox, a: Action) returns (answer: Option<Poll>)
    requires tee.Valid() && OnBody(a)
    modifies tee, out
    ensures tee.Valid() && answer == Answer(a) && out.sent == old(out.sent)
    ensures tee.ctx == if Finishes(a) then None else old(tee.ctx)
    ensures tee.seen == if old(tee.ctx).Some? && a.PollBody? && a.polled.Ready?
                        then old(tee.seen) + DataOf(a.polled) else old(tee.seen)
    ensures if Finishes(a) && old(tee.ctx).Some?
            then && out.next == old(out.next) + 1
                 && out.held == old(out.held) + [RecordOf(old(tee.ctx).value, old(tee.seen), old(out.next))]
            else out.next == old(out.next) && out.held == old(out.held)
  {
    if a.PollBody? {
      var polled := tee.PollFrame(a.polled, out);
      ConcatEmpty(old(tee.seen));
      return Some(polled);
    } else {
      tee.Drop(out);
      return None;
    }
  }

  predicate Finished(actions: seq<Action>, n: nat, body: nat)
    requires n <= |actions|
  {
    n > 0 && (Finished(actions, n - 1, body) ||
              (OnBody(actions[n - 1]) && actions[n - 1].body == body && Finishes(actions[n - 1])))
  }

  /** The data that a body delivered before it finished, within the first `n` actions. */
  function Delivered(actions: seq<Action>, n: nat, body: nat): seq<byte>
    requires n <= |actions|
  {
    if n == 0 then []
    else
      var a := actions[n - 1];
      if a.PollBody? && a.body == body && a.polled.Ready? && !Finished(actions, n - 1, body)
      then Delivered(actions, n - 1, body) + DataOf(a.polled)
      else Delivered(actions, n - 1, body)
  }

  /** The origins of the records in the order of their numbers: a body when it first finishes. */
  function NumberOrder(actions: seq<Action>, n: nat): seq<Origin>
    requires n <= |actions|
  {
    if n == 0 then []
    else
      var a := actions[n - 1];
      if a.Translated? then NumberOrder(actions, n - 1) + [Direct(a.context, a.bytes)]
      else if Finishes(a) && !Finished(actions, n - 1, a.body) then NumberOrder(actions, n - 1) + [OfBody(a.body)]
      else NumberOrder(actions, n - 1)
  }

  /** The order names every finished body, once. */
  lemma {:induction false} NumberOrderIsExact(actions: seq<Action>, n: nat)
    requires n <= |actions|
    ensures forall b :: OfBody(b) in NumberOrder(actions, n) <==> Finished(actions, n, b)
    ensures forall i, j :: 0 <= i < j < |NumberOrder(actions, n)| && NumberOrder(actions, n)[i].OfBody? ==>
              NumberOrder(actions, n)[i] != NumberOrder(actions, n)[j]
  {
    if n > 0 {
      NumberOrderIsExact(actions, n - 1);
    }
  }

  lemma DeliveredAfterFinish(actions: seq<Action>, n: nat, body: nat)
    requires 0 < n <= |actions| && Finished(actions, n - 1, body)
    ensures Delivered(actions, n, body) == Delivered(actions, n - 1, body)
  {
  }

  predicate InRange(actions: seq<Action>, bodies: nat) {
    forall i :: 0 <= i < |actions| && OnBody(actions[i]) ==> actions[i].body < bodies
  }

  /** The record with this origin, when the first `n` actions have happened. */
  function RecordOfOrigin(contexts: seq<EmitCtx>, actions: seq<Action>, n: nat, origin: Origin, seqNo: nat): HttpTraffic
    requires n <= |actions| && (origin.OfBody? ==> origin.body < |contexts|)
  {
    match origin
    case OfBody(b) => RecordOf(contexts[b], Delivered(actions, n, b), seqNo)
    case Direct(context, bytes) => RecordOf(context, bytes, seqNo)
  }

  /** The records of a session after `n` actions: one for each finished body and each translated
      response, in the order of their consecutive numbers, each of the whole data of its
      origin, capped once. */
  ghost predicate Recorded(records: seq<HttpTraffic>, contexts: seq<EmitCtx>, actions: seq<Action>, n: nat, first: nat)
    requires n <= |actions|
  {
    var order := NumberOrder(actions, n);
    && |records| == |order|
    && forall k :: 0 <= k < |order| ==>
         && (order[k].OfBody? ==> order[k].body < |contexts|)
         && records[k] == RecordOfOrigin(contexts, actions, n, order[k], first + k)
  }

  /** The object of body `i` holds what the actions so far delivered to it. */
  ghost predicate Tracks(tee: TeeBody, context: EmitCtx, actions: seq<Action>, n: nat, i: nat)
    requires n <= |actions|
    reads tee
  {
    && tee.Valid()
    && (tee.ctx.None? <==> Finished(actions, n, i))
    && (tee.ctx.Some? ==> tee.ctx == Some(context) && tee.seen == Delivered(actions, n, i))
  }

  lemma OthersKeep(actions: seq<Action>, n: nat, i: nat)
    requires 0 < n <= |actions| && (OnBody(actions[n - 1]) ==> actions[n - 1].body != i)
    ensures Finished(actions, n, i) == Finished(actions, n - 1, i)
    ensures Delivered(actions, n, i) == Delivered(actions, n - 1, i)
  {
  }

  /** The origin of the record that an action makes, if it makes one. */
  function Makes(actions: seq<Action>, n: nat): Option<Origin>
    requires n < |actions|
  {
    var a := actions[n];
    if a.Translated? then Some(Direct(a.context, a.bytes))
    else if Finishes(a) && !Finished(actions, n, a.body) then Some(OfBody(a.body))
    else None
  }

  /** The records of the first `n` actions, in the order of their numbers. */
  function Taken(contexts: seq<EmitCtx>, actions: seq<Action>, n: nat, first: nat): seq<HttpTraffic>
    requires n <= |actions| && InRange(actions, |contexts|)
  {
    if n == 0 then []
    else
      var was, o := Taken(contexts, actions, n - 1, first), Makes(actions, n - 1);
      if o.Some? then was + [RecordOfOrigin(contexts, actions, n - 1, o.value, first + |was|)] else was
  }

  /** A record does not change after it was made. */
  lemma RecordStays(contexts: seq<EmitCtx>, actions: seq<Action>, n: nat, o: Origin, seqNo: nat)
    requires 0 < n <= |actions| && o in NumberOrder(actions, n - 1) && (o.OfBody? ==> o.body < |contexts|)
    ensures RecordOfOrigin(contexts, actions, n, o, seqNo) == RecordOfOrigin(contexts, actions, n - 1, o, seqNo)
  {
    if o.OfBody? {
      NumberOrderIsExact(actions, n - 1);
      DeliveredAfterFinish(actions, n, o.body);
    }
  }

  /** They are one for each finished body and each translated response, numbered without gap. */
  lemma {:induction false} TakenIsRecorded(contexts: seq<EmitCtx>, actions: seq<Action>, n: nat, first: nat)
    requires n <= |actions| && InRange(actions, |contexts|)
    ensures Recorded(Taken(contexts, actions, n, first), contexts, actions, n, first)
  {
    if n > 0 {
      TakenIsRecorded(contexts, actions, n - 1, first);
      var order := NumberOrder(actions, n - 1);
      forall k | 0 <= k < |order|
        ensures RecordOfOrigin(contexts, actions, n, order[k], first + k)
                == RecordOfOrigin(contexts, actions, n - 1, order[k], first + k)
      {
        RecordStays(contexts, actions, n, order[k], first + k);
      }
    }
  }

  // ---- What is in the channel ----

  datatype Channel = Channel(held: seq<HttpTraffic>, sent: seq<HttpTraffic>)

  function AfterSend(c: Channel, k: nat): Channel {
    if k < |c.held| then Channel(Without(c.held, k), c.sent + [c.held[k]]) else c
  }

  /** What the tasks hold and what they have sent after the first `n` actions. */
  function Moved(contexts: seq<EmitCtx>, actions: seq<Action>, n: nat, first: nat): Channel
    requires n <= |actions| && InRange(actions, |contexts|)
  {
    if n == 0 then Channel([], [])
    else
      var c, o := Moved(contexts, actions, n - 1, first), Makes(actions, n - 1);
      if actions[n - 1].SendHeld? then AfterSend(c, actions[n - 1].k)
      else if o.Some? then
        var number := first + |Taken(contexts, actions, n - 1, first)|;
        c.(held := c.held + [RecordOfOrigin(contexts, actions, n - 1, o.value, number)])
      else c
  }

  lemma MoveOne<T>(sent: seq<T>, l: seq<T>, x: T, r: seq<T>)
    ensures multiset((sent + [x]) + (l + r)) == multiset(sent + (l + [x] + r))
  {
  }

  lemma SendKeepsAll(c: Channel, k: nat)
    ensures multiset(AfterSend(c, k).sent + AfterSend(c, k).held) == multiset(c.sent + c.held)
  {
    if k < |c.held| {
      MoveOne(c.sent, c.held[..k], c.held[k], c.held[k + 1..]);
      assert c.held == c.held[..k] + [c.held[k]] + c.held[k + 1..];
    }
  }

  lemma HoldAddsOne(c: Channel, all: seq<HttpTraffic>, r: HttpTraffic)
    requires multiset(c.sent + c.held) == multiset(all)
    ensures multiset(c.sent + (c.held + [r])) == multiset(all + [r])
  {
    ConcatAssociates(c.sent, c.held, [r]);
  }

  /** One more action sends a record, or adds one to those that are held, or neither. */
  lemma MovedNext(contexts: seq<EmitCtx>, actions: seq<Action>, n: nat, first: nat) returns (r: Option<HttpTraffic>)
    requires n < |actions| && InRange(actions, |contexts|)
    ensures actions[n].SendHeld? ==> r.None?
    ensures var c, d := Moved(contexts, actions, n, first), Moved(contexts, actions, n + 1, first);
            d == if actions[n].SendHeld? then AfterSend(c, actions[n].k)
                 else if r.Some? then c.(held := c.held + [r.value]) else c
    ensures var was := Taken(contexts, actions, n, first);
            Taken(contexts, actions, n + 1, first) == if r.Some? then was + [r.value] else was
  {
    var o := Makes(actions, n);
    r := if o.None? then None
         else Some(RecordOfOrigin(contexts, actions, n, o.value, first + |Taken(contexts, actions, n, first)|));
  }

  lemma StepKeepsAll(c: Channel, all: seq<HttpTraffic>, a: Action, r: Option<HttpTraffic>, d: Channel,
                     more: seq<HttpTraffic>)
    requires multiset(c.sent + c.held) == multiset(all) && (a.SendHeld? ==> r.None?)
    requires d == if a.SendHeld? then AfterSend(c, a.k) else if r.Some? then c.(held := c.held + [r.value]) else c
    requires more == if r.Some? then all + [r.value] else all
    ensures multiset(d.sent + d.held) == multiset(more)
  {
    if a.SendHeld? {
      SendKeepsAll(c, a.k);
    } else if r.Some? {
      HoldAddsOne(c, all, r.value);
    }
  }

  /** No record is lost or sent twice, whoever overtakes whom. */
  lemma {:induction false} MovedIsAll(contexts: seq<EmitCtx>, actions: seq<Action>, n: nat, first: nat)
    requires n <= |actions| && InRange(actions, |contexts|)
    ensures var c := Moved(contexts, actions, n, first);
            multiset(c.sent + c.held) == multiset(Taken(contexts, actions, n, first))
  {
    if n > 0 {
      MovedIsAll(contexts, actions, n - 1, first);
      var r := MovedNext(contexts, actions, n - 1, first);
      StepKeepsAll(Moved(contexts, actions, n - 1, first), Taken(contexts, actions, n - 1, first), actions[n - 1], r,
                   Moved(contexts, actions, n, first), Taken(contexts, actions, n, first));
    }
  }

  /** Every send takes the record with the lowest number of those that are held. */
  predicate OldestFirst(contexts: seq<EmitCtx>, actions: seq<Action>, n: nat, first: nat)
    requires n <= |actions| && InRange(actions, |contexts|)
  {
    n == 0 ||
    (OldestFirst(contexts, actions, n - 1, first) &&
     (actions[n - 1].SendHeld? && actions[n - 1].k < |Moved(contexts, actions, n - 1, first).held| ==>
        actions[n - 1].k == 0))
  }

  ghost predicate Consecutive(records: seq<HttpTraffic>, first: nat) {
    forall k :: 0 <= k < |records| ==> records[k].seqNo == first + k
  }

  lemma SendsNext(c: Channel, k: nat, all: seq<HttpTraffic>, first: nat)
    requires k < |c.held| && c.sent + c.held <= all && Consecutive(all, first)
    ensures AfterSend(c, k).sent <= all <==> k == 0
    ensures k == 0 ==> AfterSend(c, k).sent + AfterSend(c, k).held == c.sent + c.held
  {
    var together := c.sent + c.held;
    assert together[|c.sent|] == c.held[0] && together[|c.sent| + k] == c.held[k];
    assert all[|c.sent|].seqNo == first + |c.sent| && all[|c.sent| + k].seqNo == first + |c.sent| + k;
    if AfterSend(c, k).sent <= all {
      assert (c.sent + [c.held[k]])[|c.sent|] == all[|c.sent|];
    }
  }

  lemma SentOnlyGrows(c: Channel, k: nat, all: seq<HttpTraffic>)
    ensures AfterSend(c, k).sent <= all ==> c.sent <= all
  {
    assert c.sent <= AfterSend(c, k).sent;
  }

  /** What was sent are the first records in the order of their numbers exactly as long as every send took
      the lowest number that was held. */
  lemma {:induction false} SentInOrderIff(contexts: seq<EmitCtx>, actions: seq<Action>, n: nat, first: nat,
                                          all: seq<HttpTraffic>)
    requires n <= |actions| && InRange(actions, |contexts|)
    requires Taken(contexts, actions, n, first) <= all && Consecutive(all, first)
    ensures var c := Moved(contexts, actions, n, first);
            && (c.sent <= all <==> OldestFirst(contexts, actions, n, first))
            && (c.sent <= all ==> c.sent + c.held == Taken(contexts, actions, n, first))
  {
    if n > 0 {
      SentInOrderIff(contexts, actions, n - 1, first, all);
      var c, a := Moved(contexts, actions, n - 1, first), actions[n - 1];
      if a.SendHeld? && a.k < |c.held| {
        if c.sent <= all {
          SendsNext(c, a.k, all, first);
        } else {
          SentOnlyGrows(c, a.k, all);
        }
      }
    }
  }

  lemma {:induction false} OnceIfConsecutive(records: seq<HttpTraffic>, first: nat, r: HttpTraffic)
    requires Consecutive(records, first)
    ensures multiset(records)[r] <= 1
    ensures r in records ==> first <= r.seqNo < first + |records| && records[r.seqNo - first] == r
  {
    if records != [] {
      var last := |records| - 1;
      OnceIfConsecutive(records[..last], first, r);
      assert records == records[..last] + [records[last]];
    }
  }

  lemma TwiceInMultiset<T>(s: seq<T>, i: nat, j: nat)
    requires i < j < |s| && s[i] == s[j]
    ensures multiset(s)[s[i]] >= 2
  {
    assert s == s[..j] + s[j..];
    assert s[i] in s[..j] && s[j] in s[j..];
  }

  /** What is sent or held has every number once. */
  lemma EveryNumberOnce(together: seq<HttpTraffic>, records: seq<HttpTraffic>, first: nat)
    requires multiset(together) == multiset(records) && Consecutive(records, first)
    ensures |together| == |records|
    ensures forall i :: 0 <= i < |together| ==> first <= together[i].seqNo < first + |records|
    ensures forall i, j :: 0 <= i < j < |together| ==> together[i].seqNo != together[j].seqNo
  {
    assert |multiset(together)| == |together| && |multiset(records)| == |records|;
    forall i | 0 <= i < |together|
      ensures first <= together[i].seqNo < first + |records| && records[together[i].seqNo - first] == together[i]
    {
      assert together[i] in multiset(records);
      OnceIfConsecutive(records, first, together[i]);
    }
    forall i, j | 0 <= i < j < |together| ensures together[i].seqNo != together[j].seqNo {
      if together[i].seqNo == together[j].seqNo {
        TwiceInMultiset(together, i, j);
        OnceIfConsecutive(records, first, together[i]);
        assert false;
      }
    }
  }

  /** In any interleaving, what is in the channel and what is still held are one record for each finished
      body and translated response, with the numbers from `first` on, each once; and they are in the channel
      in the order of numbers exactly when every task that sent one held the lowest number. */
  lemma ChannelIsExact(contexts: seq<EmitCtx>, actions: seq<Action>, first: nat)
    requires InRange(actions, |contexts|)
    ensures var n := |actions|;
            var c, records := Moved(contexts, actions, n, first), Taken(contexts, actions, n, first);
            && Recorded(records, contexts, actions, n, first)
            && multiset(c.sent + c.held) == multiset(records)
            && (forall i :: 0 <= i < |c.sent + c.held| ==> first <= (c.sent + c.held)[i].seqNo < first + |records|)
            && (forall i, j :: 0 <= i < j < |c.sent + c.held| ==>
                  (c.sent + c.held)[i].seqNo != (c.sent + c.held)[j].seqNo)
            && (c.sent <= records <==> OldestFirst(contexts, actions, n, first))
  {
    var n := |actions|;
    var c, records := Moved(contexts, actions, n, first), Taken(contexts, actions, n, first);
    TakenIsRecorded(contexts, actions, n, first);
    MovedIsAll(contexts, actions, n, first);
    EveryNumberOnce(c.sent + c.held, records, first);
    SentInOrderIff(contexts, actions, n, first, records);
  }

  /** When no task takes a number before the last one has sent, the channel is in order. */
  lemma {:induction false} OneAtATimeKeepsOrder(contexts: seq<EmitCtx>, actions: seq<Action>, n: nat, first: nat)
    requires n <= |actions| && InRange(actions, |contexts|)
    requires forall m :: 0 <= m < n ==> |Moved(contexts, actions, m, first).held| <= 1
    ensures OldestFirst(contexts, actions, n, first)
  {
    if n > 0 {
      OneAtATimeKeepsOrder(contexts, actions, n - 1, first);
    }
  }

  /** Two tasks of which the second overtakes the first: number `first + 1` comes before `first`. */
  lemma TasksCanOvertake(context: EmitCtx, x: seq<byte>, y: seq<byte>, first: nat)
    ensures var actions := [Translated(context, x), Translated(context, y), SendHeld(1), SendHeld(0)];
            && InRange(actions, 0)
            && Moved([], actions, 4, first).sent == [RecordOf(context, y, first + 1), RecordOf(context, x, first)]
            && Moved([], actions, 4, first).held == []
  {
    var actions := [Translated(context, x), Translated(context, y), SendHeld(1), SendHeld(0)];
    var one, two := RecordOf(context, x, first), RecordOf(context, y, first + 1);
    assert Makes(actions, 0) == Some(Direct(context, x)) && Makes(actions, 1) == Some(Direct(context, y));
    assert Taken([], actions, 0, first) == [];
    assert Taken([], actions, 1, first) == [one];
    assert Moved([], actions, 1, first) == Channel([one], []);
    assert Moved([], actions, 2, first) == Channel([one, two], []);
    assert Moved([], actions, 3, first) == Channel([one], [two]);
  }

  /** The effect of making the record of an origin, or none. */
  twostate predicate Made(out: Outbox, contexts: seq<EmitCtx>, actions: seq<Action>, n: nat, origin: Option<Origin>)
    requires n <= |actions| && (origin.Some? && origin.value.OfBody? ==> origin.value.body < |contexts|)
    reads out
  {
    if origin.Some?
    then && out.next == old(out.next) + 1
         && out.held == old(out.held) + [RecordOfOrigin(contexts, actions, n, origin.value, old(out.next))]
    else out.next == old(out.next) && out.held == old(out.held)
  }

  /** One action on its body. */
  method ActOnBody(tee: TeeBody, contexts: seq<EmitCtx>, out: Outbox, actions: seq<Action>, n: nat)
      returns (answer: Option<Poll>)
    requires n < |actions| && OnBody(actions[n]) && actions[n].body < |contexts|
    requires Tracks(tee, contexts[actions[n].body], actions, n, actions[n].body)
    modifies tee, out
    ensures answer == Answer(actions[n])
    ensures Tracks(tee, contexts[actions[n].body], actions, n + 1, actions[n].body)
    ensures out.sent == old(out.sent) && Made(out, contexts, actions, n, Makes(actions, n))
  {
    answer := Act(tee, out, actions[n]);
  }

  /** A translated response is capped and recorded at once. */
  method RecordTranslated(context: EmitCtx, bytes: seq<byte>, out: Outbox)
    modifies out
    ensures out.next == old(out.next) + 1 && out.sent == old(out.sent)
    ensures out.held == old(out.held) + [RecordOf(context, bytes, old(out.next))]
  {
    var capped := CapBody(bytes);
    FinishOfCapped(context, bytes);
    var exchange := Finish(context, capped.body, capped.truncated);
    out.TakeNumber(context.sessionId, exchange);
  }

  /** One action, among all the bodies of the session. */
  method TakeAction(bodies: seq<TeeBody>, contexts: seq<EmitCtx>, out: Outbox, actions: seq<Action>, n: nat)
      returns (answer: Option<Poll>)
    requires |contexts| == |bodies| && InRange(actions, |bodies|) && n < |actions|
    requires forall i, j :: 0 <= i < j < |bodies| ==> bodies[i] != bodies[j]
    requires forall i :: 0 <= i < |bodies| ==> Tracks(bodies[i], contexts[i], actions, n, i)
    modifies bodies, out
    ensures answer == Answer(actions[n])
    ensures forall i :: 0 <= i < |bodies| ==> Tracks(bodies[i], contexts[i], actions, n + 1, i)
    ensures if actions[n].SendHeld?
            then out.next == old(out.next)
                 && Channel(out.held, out.sent) == AfterSend(Channel(old(out.held), old(out.sent)), actions[n].k)
            else out.sent == old(out.sent) && Made(out, contexts, actions, n, Makes(actions, n))
  {
    var a := actions[n];
    if a.Translated? {
      RecordTranslated(a.context, a.bytes, out);
      answer := None;
    } else if a.SendHeld? {
      out.SendHeld(a.k);
      answer := None;
    } else {
      answer := ActOnBody(bodies[a.body], contexts, out, actions, n);
    }
    forall i | 0 <= i < |bodies| && (OnBody(a) ==> i != a.body)
      ensures Tracks(bodies[i], contexts[i], actions, n + 1, i)
    {
      OthersKeep(actions, n + 1, i);
    }
  }

  /** Sending goes on behind what was sent before. */
  lemma SendBehind(c: Channel, before: seq<HttpTraffic>, k: nat)
    ensures AfterSend(c.(sent := before + c.sent), k)
            == AfterSend(c, k).(sent := before + AfterSend(c, k).sent)
  {
    if k < |c.held| {
      ConcatAssociates(before, c.sent, [c.held[k]]);
    }
  }

  /** Any interleaving of polls and drops over the bodies of a session, of translated responses and of
      sends passes every answer on and moves exactly the records of what was finished. */
  method Interleave(bodies: seq<TeeBody>, contexts: seq<EmitCtx>, out: Outbox, actions: seq<Action>)
      returns (forwarded: seq<Option<Poll>>)
    requires |contexts| == |bodies| && InRange(actions, |bodies|) && out.held == []
    requires forall i, j :: 0 <= i < j < |bodies| ==> bodies[i] != bodies[j]
    requires forall i :: 0 <= i < |bodies| ==>
               bodies[i].Valid() && bodies[i].ctx == Some(contexts[i]) && bodies[i].seen == []
    modifies bodies, out
    ensures |forwarded| == |actions|
    ensures forall i :: 0 <= i < |actions| ==> forwarded[i] == Answer(actions[i])
    ensures out.next == old(out.next) + |Taken(contexts, actions, |actions|, old(out.next))|
    ensures var c := Moved(contexts, actions, |actions|, old(out.next));
            out.held == c.held && out.sent == old(out.sent) + c.sent
  {
    forwarded := [];
    ghost var first, before := out.next, out.sent;
    ConcatEmpty(before);
    for n := 0 to |actions|
      invariant |forwarded| == n && forall i :: 0 <= i < n ==> forwarded[i] == Answer(actions[i])
      invariant forall i :: 0 <= i < |bodies| ==> Tracks(bodies[i], contexts[i], actions, n, i)
      invariant out.next == first + |Taken(contexts, actions, n, first)|
      invariant var c := Moved(contexts, actions, n, first); out.held == c.held && out.sent == before + c.sent
    {
      if actions[n].SendHeld? {
        SendBehind(Moved(contexts, actions, n, first), before, actions[n].k);
      }
      var answer := TakeAction(bodies, contexts, out, actions, n);
      forwarded := forwarded + [answer];
    }
  }
}
