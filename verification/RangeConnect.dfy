/** `RangeConnectOp` of net/async_connect.hpp: endpoints are tried in order, and the handler is called once. */
module RangeConnect {
  import opened Wrappers

  datatype ErrorCode = OperationAborted | Os(code: int)

  /** What the handler is given: an error and the empty endpoint, or the endpoint that was reached. */
  datatype Answer = Reached(endpoint: string) | Error(ec: ErrorCode)

  /** What the operation waits for: its attempt, or the posted call of the handler. */
  datatype Pending = Connect | Posted(ec: ErrorCode) | Nothing

  datatype Outcome = Connecting | Connected | Failed(ec: ErrorCode) | OpenFailed(code: int)

  /** An attempt: the index it was made with, the endpoint the socket was opened for, and what became of it. */
  datatype Attempt = Attempt(index: nat, endpoint: string, outcome: Outcome)

  /** `log` is the history of the attempts, `answers` that of the handler's calls. */
  datatype Op = Op(endpoints: seq<string>, index: nat, pending: Pending, log: seq<Attempt>, answers: seq<Answer>)

  function StartConnect(s: Op, openError: Option<int>): Op
    requires s.index < |s.endpoints|
  {
    var outcome := if openError.Some? then OpenFailed(openError.value) else Connecting;
    var t := s.(log := s.log + [Attempt(s.index, s.endpoints[s.index], outcome)]);
    t.(pending := if openError.Some? then Posted(Os(openError.value)) else Connect)
  }

  function Call(s: Op, answer: Answer): Op {
    s.(pending := Nothing, answers := s.answers + [answer])
  }

  function Ended(log: seq<Attempt>, outcome: Outcome): seq<Attempt> {
    if log == [] then [] else log[|log| - 1 := log[|log| - 1].(outcome := outcome)]
  }

  /** `operator()`; `openError` is what opening the next socket reports, if it comes to that. */
  function OnConnect(s: Op, ec: Option<ErrorCode>, openError: Option<int>): Op
    requires s.index < |s.endpoints|
  {
    var t := s.(log := Ended(s.log, if ec.None? then Connected else Failed(ec.value)));
    if ec.None? then Call(t, Reached(s.endpoints[s.index]))
    else if ec.value.OperationAborted? then Call(t, Error(OperationAborted))
    else if s.index + 1 < |s.endpoints| then StartConnect(t.(index := s.index + 1), openError)
    else Call(t.(index := s.index + 1), Error(ec.value))
  }

  datatype Event = ConnectDone(ec: Option<ErrorCode>, openError: Option<int>) | RunPosted

  predicate Enabled(s: Op, e: Event) {
    match e
    case ConnectDone(_, _) => s.pending.Connect? && s.index < |s.endpoints|
    case RunPosted => s.pending.Posted?
  }

  function Apply(s: Op, e: Event): Op
    requires Enabled(s, e)
  {
    match e
    case ConnectDone(ec, openError) => OnConnect(s, ec, openError)
    case RunPosted => Call(s, Error(s.pending.ec))
  }

  predicate Run(s: Op, events: seq<Event>, t: Op)
    decreases |events|
  {
    if events == [] then s == t else Enabled(s, events[0]) && Run(Apply(s, events[0]), events[1..], t)
  }

  /** `asyncConnect`, which asserts that the range is not empty. */
  function Begin(endpoints: seq<string>, openError: Option<int>): Op
    requires endpoints != []
  {
    StartConnect(Op(endpoints, 0, Nothing, [], []), openError)
  }

  // ---------------------------------------------------------------- the invariant

  /** The `k`-th attempt is on the `k`-th endpoint, so each is tried at most once and in order. */
  predicate InOrder(log: seq<Attempt>, endpoints: seq<string>) {
    |log| <= |endpoints| && forall k :: 0 <= k < |log| ==> log[k].index == k && log[k].endpoint == endpoints[k]
  }

  /** Only an error of the operating system leads to the next endpoint. */
  predicate EarlierFailed(log: seq<Attempt>) {
    forall k :: 0 <= k < |log| - 1 ==> log[k].outcome.Failed? && log[k].outcome.ec.Os?
  }

  /** What the handler must be told after the last attempt; None while it must not be called. */
  function AnswerFor(log: seq<Attempt>, endpoints: nat): Option<Answer>
    requires log != []
  {
    var last := log[|log| - 1];
    match last.outcome
    case Connecting => None
    case Connected => Some(Reached(last.endpoint))
    case OpenFailed(code) => Some(Error(Os(code)))
    case Failed(ec) => if ec.Os? && |log| < endpoints then None else Some(Error(ec))
  }

  predicate OpOk(s: Op) {
    && s.log != [] && InOrder(s.log, s.endpoints) && EarlierFailed(s.log)
    && match s.pending
       case Connect => s.answers == [] && s.index + 1 == |s.log| && s.log[|s.log| - 1].outcome.Connecting?
       case Posted(ec) => s.answers == [] && AnswerFor(s.log, |s.endpoints|) == Some(Error(ec))
       case Nothing => |s.answers| == 1 && AnswerFor(s.log, |s.endpoints|) == Some(s.answers[0])
  }

  /** The attempts that may still be made, and the handler's call. */
  function Measure(s: Op): int {
    match s.pending
    case Connect => 1 + |s.endpoints| - s.index
    case Posted(_) => 1
    case Nothing => 0
  }

  lemma CallbackStep(s: Op, e: Event)
    requires OpOk(s) && Enabled(s, e)
    ensures OpOk(Apply(s, e)) && 0 <= Measure(Apply(s, e)) < Measure(s)
    ensures Apply(s, e).endpoints == s.endpoints
  {
    if e.ConnectDone? {
      var done := Ended(s.log, if e.ec.None? then Connected else Failed(e.ec.value));
      assert InOrder(done, s.endpoints) && EarlierFailed(done);
    }
  }

  lemma {:induction false} RunKeepsOp(s: Op, events: seq<Event>, t: Op)
    requires OpOk(s) && Run(s, events, t)
    ensures OpOk(t) && |events| <= Measure(s) - Measure(t) && t.endpoints == s.endpoints
    decreases |events|
  {
    hide OpOk, Measure, Apply, Enabled;
    if events != [] {
      CallbackStep(s, events[0]);
      RunKeepsOp(Apply(s, events[0]), events[1..], t);
    }
  }

  // ---------------------------------------------------------------- every run

  /** For a non-empty range: every run ends, and the handler is called at most once on it, and exactly once when it
  cannot be continued. */
  lemma HandlerIsCalledOnce(endpoints: seq<string>, openError: Option<int>, events: seq<Event>, t: Op)
    requires endpoints != [] && Run(Begin(endpoints, openError), events, t)
    ensures |events| <= |endpoints| + 1 && |t.answers| <= 1
    ensures (forall e :: !Enabled(t, e)) <==> |t.answers| == 1
  {
    hide Run;
    RunKeepsOp(Begin(endpoints, openError), events, t);
    if t.pending.Connect? { assert Enabled(t, ConnectDone(None, None)); }
    if t.pending.Posted? { assert Enabled(t, RunPosted); }
  }

  /** On every run the endpoints are tried in order, at most once each and only after every earlier attempt failed;
  the handler is told of success exactly when an attempt succeeded, and then it was the last one, of the endpoint
  reported; and an error is that of the last attempt, which was aborted, could not open its socket, or was on the
  last endpoint of all. */
  lemma AnswerIsRight(endpoints: seq<string>, openError: Option<int>, events: seq<Event>, t: Op)
    requires endpoints != [] && Run(Begin(endpoints, openError), events, t)
    ensures InOrder(t.log, endpoints) && EarlierFailed(t.log) && t.log != []
    ensures |t.answers| == 1 ==>
      (t.answers[0].Reached? <==> exists k :: 0 <= k < |t.log| && t.log[k].outcome.Connected?)
    ensures |t.answers| == 1 && t.answers[0].Reached? ==>
      t.log[|t.log| - 1].outcome.Connected? && t.answers[0].endpoint == endpoints[|t.log| - 1]
    ensures |t.answers| == 1 && t.answers[0].Error? ==> LastError(t.log, endpoints, t.answers[0].ec)
  {
    hide Run;
    RunKeepsOp(Begin(endpoints, openError), events, t);
    assert t.log[|t.log| - 1] in t.log;
  }

  predicate LastError(log: seq<Attempt>, endpoints: seq<string>, ec: ErrorCode)
    requires log != []
  {
    var last := log[|log| - 1].outcome;
    || (last == Failed(ec) && (ec.OperationAborted? || |log| == |endpoints|))
    || (ec.Os? && last == OpenFailed(ec.code))
  }

  // ---------------------------------------------------------------- what was reported

  /** The `k`-th completion is that of the `k`-th attempt, and the history has it as it was reported. */
  ghost predicate Remembers(events: seq<Event>, s: Op) {
    && (forall k :: 0 <= k < |events| && events[k].ConnectDone? ==>
          && k < |s.log|
          && s.log[k].outcome == (if events[k].ec.None? then Connected else Failed(events[k].ec.value)))
    && (s.pending.Connect? ==> |events| + 1 == |s.log|)
  }

  lemma EventIsRemembered(events: seq<Event>, s: Op, e: Event)
    requires OpOk(s) && Remembers(events, s) && Enabled(s, e)
    ensures Remembers(events + [e], Apply(s, e))
  {
    hide InOrder, EarlierFailed, AnswerFor;
    var more := events + [e];
    assert more[|events|] == e && forall k :: 0 <= k < |events| ==> more[k] == events[k];
  }

  lemma {:induction false} RunIsRemembered(before: seq<Event>, s: Op, events: seq<Event>, t: Op)
    requires OpOk(s) && Remembers(before, s) && Run(s, events, t)
    ensures Remembers(before + events, t)
    decreases |events|
  {
    hide OpOk, Remembers, Apply, Enabled;
    if events == [] {
      assert before + events == before;
    } else {
      CallbackStep(s, events[0]);
      EventIsRemembered(before, s, events[0]);
      RunIsRemembered(before + [events[0]], Apply(s, events[0]), events[1..], t);
      assert before + [events[0]] + events[1..] == before + events;
    }
  }

  /** On every run each reported completion stands in the history that the answer is right for. */
  lemma HistoryIsReported(endpoints: seq<string>, openError: Option<int>, events: seq<Event>, t: Op)
    requires endpoints != [] && Run(Begin(endpoints, openError), events, t)
    ensures forall k :: 0 <= k < |events| && events[k].ConnectDone? ==>
      && k < |t.log|
      && t.log[k].outcome == (if events[k].ec.None? then Connected else Failed(events[k].ec.value))
  {
    RunIsRemembered([], Begin(endpoints, openError), events, t);
    assert [] + events == events;
  }

  // ---------------------------------------------------------------- the object

  class RangeConnectOp {
    const endpoints: seq<string>
    var index: nat
    ghost var pending: Pending
    ghost var log: seq<Attempt>
    ghost var answers: seq<Answer>

    constructor (endpoints: seq<string>)
      ensures this.endpoints == endpoints && View() == Op(endpoints, 0, Nothing, [], [])
    {
      this.endpoints, index := endpoints, 0;
      pending, log, answers := Nothing, [], [];
    }

    ghost function View(): Op
      reads this
    {
      Op(endpoints, index, pending, log, answers)
    }

    /** Closes the socket, opens it for the endpoint and connects it there; true when the attempt is under way. */
    method StartAttempt(endpoint: string, openError: Option<int>) returns (connecting: bool)
      requires index < |endpoints| && endpoint == endpoints[index]
      modifies this
      ensures View() == StartConnect(old(View()), openError) && connecting == pending.Connect?
    {
      log := log + [Attempt(index, endpoint, if openError.Some? then OpenFailed(openError.value) else Connecting)];
      connecting := openError.None?;
      pending := if openError.Some? then Posted(Os(openError.value)) else Connect;
    }

    method Start(openError: Option<int>) returns (connecting: bool)
      requires |endpoints| > 0 && index == 0
      modifies this
      ensures View() == StartConnect(old(View()), openError)
    {
      connecting := StartAttempt(endpoints[0], openError);
    }

    /** `operator()`: what it hands to the handler, if it calls it. */
    method OnConnectDone(ec: Option<ErrorCode>, openError: Option<int>) returns (answer: Option<Answer>)
      requires pending.Connect? && index < |endpoints|
      modifies this
      ensures View() == OnConnect(old(View()), ec, openError)
      ensures answers == if answer.Some? then old(answers) + [answer.value] else old(answers)
    {
      log := Ended(log, if ec.None? then Connected else Failed(ec.value));
      if ec.None? || ec.value.OperationAborted? {
        answer := Some(if ec.None? then Reached(endpoints[index]) else Error(OperationAborted));
        pending, answers := Nothing, answers + [answer.value];
        return;
      }
      index := index + 1;
      if index < |endpoints| {
        var connecting := StartAttempt(endpoints[index], openError);
        answer := None;
      } else {
        answer := Some(Error(ec.value));
        pending, answers := Nothing, answers + [answer.value];
      }
    }
  }
}
