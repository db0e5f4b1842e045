/** The idle connection of client/src/client.cpp: the first reply is the acknowledgement, every later one
carries messages, and each re-arms the read. */
module ChatClient {
  import opened Http
  import opened HttpReader
  import opened ArmedRead
  import opened HttpMessages

  /** `shown` are the bodies handed to the message parser. A broken connection is abandoned. */
  datatype IdleView = IdleView(idle: bool, broken: bool, shown: seq<string>)

  function OnIdleRead(v: IdleView, e: Event): IdleView {
    if v.broken then v
    else if e.ProtocolError? || e.reply.status != 200 then v.(idle := false, broken := true)
    else if !v.idle then v.(idle := true)
    else v.(shown := v.shown + [e.reply.body])
  }

  function OnIdleReads(v: IdleView, events: seq<Event>): IdleView
    decreases |events|
  {
    if |events| == 0 then v else OnIdleReads(OnIdleRead(v, events[0]), events[1..])
  }

  class Client {
    var idleState: bool
    var broken: bool
    var shown: seq<string>

    constructor ()
      ensures View() == IdleView(false, false, [])
    {
      idleState, broken, shown := false, false, [];
    }

    ghost function View(): IdleView
      reads this
    {
      IdleView(idleState, broken, shown)
    }

    method OnHttpIdleRead(e: Event)
      requires !broken
      modifies this
      ensures View() == OnIdleRead(old(View()), e)
    {
      var isError := e.ProtocolError?;
      if !isError && e.reply.status != 200 {
        isError := true;
      }
      if isError {
        idleState := false;
        broken := true;
        return;
      }
      if !idleState {
        idleState := true;
      } else {
        shown := shown + [e.reply.body];
      }
    }
  }

  lemma {:induction false} AllRepliesShown(v: IdleView, events: seq<Event>, bodies: seq<string>)
    requires !v.broken && v.idle && RepliesWith(events, bodies)
    ensures OnIdleReads(v, events) == v.(shown := v.shown + bodies)
    decreases |events|
  {
    if |events| == 0 {
      assert v.shown + bodies == v.shown;
    } else {
      AllRepliesShown(OnIdleRead(v, events[0]), events[1..], bodies[1..]);
      assert v.shown + [bodies[0]] + bodies[1..] == v.shown + bodies;
    }
  }

  /** From the server's printer through any segmentation to the client: exactly the first body is taken as
  the acknowledgement, the others are shown in order. */
  lemma IdleStreamEndToEnd(inflate: Inflate, ack: string, batches: seq<string>, segments: seq<string>)
    requires BodiesFit([ack] + batches) && Concat(segments) == OkStream([ack] + batches)
    ensures var r := FeedScan(FromBegin, inflate, START_SCAN, segments).wire;
      r.buffer == "" && r.wait == OnHeaders
      && OnIdleReads(IdleView(false, false, []), r.events) == IdleView(true, false, batches)
  {
    hide FeedScan, OkStream;
    var bodies := [ack] + batches;
    OkStreamIsRead(inflate, bodies, segments);
    var events := FeedScan(FromBegin, inflate, START_SCAN, segments).wire.events;
    var v := OnIdleRead(IdleView(false, false, []), events[0]);
    assert events[0].reply.body == bodies[0];
    assert RepliesWith(events[1..], batches) by {
      forall i | 0 <= i < |batches| ensures events[1..][i] == events[i + 1] && batches[i] == bodies[i + 1] {}
    }
    AllRepliesShown(v, events[1..], batches);
    assert [] + batches == batches;
  }

  // ---------------------------------------------------------------- replies that are not good

  predicate Good(e: Event) {
    e.Reply? && e.reply.status == 200
  }

  /** The first `n` replies are good, and the next one, if there is one, is not. */
  predicate GoodUpTo(events: seq<Event>, n: nat) {
    n <= |events| && (forall i :: 0 <= i < n ==> Good(events[i])) && (n < |events| ==> !Good(events[n]))
  }

  function Bodies(events: seq<Event>): (r: seq<string>)
    requires forall i :: 0 <= i < |events| ==> Good(events[i])
    ensures |r| == |events|
  {
    seq(|events|, i requires 0 <= i < |events| => events[i].reply.body)
  }

  lemma {:induction false} BrokenStays(v: IdleView, events: seq<Event>)
    requires v.broken
    ensures OnIdleReads(v, events) == v
    decreases |events|
  {
    if events != [] { BrokenStays(v, events[1..]); }
  }

  lemma BodiesFirst(events: seq<Event>, n: nat)
    requires GoodUpTo(events, n) && n > 0
    ensures GoodUpTo(events[1..], n - 1) && Good(events[0])
    ensures Bodies(events[..n]) == [events[0].reply.body] + Bodies(events[1..][..n - 1])
    ensures events[1..][..n - 1] == events[1..n]
  {
    assert events[..n] == [events[0]] + events[1..][..n - 1];
  }

  lemma {:induction false} ShownUntil(v: IdleView, events: seq<Event>, n: nat)
    requires !v.broken && v.idle && GoodUpTo(events, n)
    ensures OnIdleReads(v, events) == IdleView(n == |events|, n < |events|, v.shown + Bodies(events[..n]))
    decreases |events|
  {
    if n == 0 {
      if events != [] { BrokenStays(OnIdleRead(v, events[0]), events[1..]); }
      assert v.shown + Bodies(events[..n]) == v.shown;
    } else {
      BodiesFirst(events, n);
      ShownUntil(OnIdleRead(v, events[0]), events[1..], n - 1);
      hide Bodies;
      var first, more := [events[0].reply.body], Bodies(events[1..][..n - 1]);
      assert v.shown + first + more == v.shown + (first + more);
    }
  }

  lemma FirstRead(events: seq<Event>)
    requires events != []
    ensures OnIdleReads(IdleView(false, false, []), events)
      == OnIdleReads(if Good(events[0]) then IdleView(true, false, []) else IdleView(false, true, []), events[1..])
  {
    assert OnIdleRead(IdleView(false, false, []), events[0])
      == if Good(events[0]) then IdleView(true, false, []) else IdleView(false, true, []);
    hide OnIdleRead;
  }

  lemma NothingShownYet(shown: seq<string>)
    ensures [] + shown == shown
  {
  }

  /** Whatever the server sends: the client shows the bodies of the replies with status 200 after the first one, up to
  the first reply with another status or protocol error, at which it breaks the connection and shows nothing more. */
  lemma ErrorBreaksConnection(events: seq<Event>, n: nat)
    requires GoodUpTo(events, n)
    ensures OnIdleReads(IdleView(false, false, []), events) ==
      IdleView(0 < n == |events|, n < |events|, if n == 0 then [] else Bodies(events[1..n]))
  {
    if n == 0 {
      if events != [] {
        FirstRead(events);
        hide OnIdleReads;
        BrokenStays(IdleView(false, true, []), events[1..]);
      }
    } else {
      BodiesFirst(events, n);
      FirstRead(events);
      hide OnIdleReads, Bodies, Good;
      NothingShownYet(Bodies(events[1..n]));
      ShownUntil(IdleView(true, false, []), events[1..], n - 1);
    }
  }
}
