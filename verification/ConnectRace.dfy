/** The connect race of net/sync_connect.hpp and `sync_connect` in net/client.cpp: a timer and a sequence of
connect attempts cancel each other, and the caller waits until both are finished. */
module ConnectRace {
  import opened Wrappers

  /** What the operating system reports is kept apart from the two results the code makes up itself. */
  datatype ErrorCode = Success | NotFound | TimedOut | Os(code: int)

  datatype Outcome = Connecting | Connected | Failed(code: int) | OpenFailed(code: int)

  /** An attempt: the index it was made with, the endpoint the socket was opened for, and what became of it. */
  datatype Attempt = Attempt(index: nat, endpoint: string, outcome: Outcome)

  /** The shared context, the callbacks still to come, and the history of the attempts. `expired` says the timer
  fired by itself, `cancelled` that it was cancelled. */
  datatype Race = Race(endpoints: seq<string>, nextEndpoint: nat, timerFinished: bool, connectFinished: bool,
                       connectResult: ErrorCode, timerPending: bool, connectPending: bool, expired: bool,
                       cancelled: bool, finishes: nat, log: seq<Attempt>)

  // ---------------------------------------------------------------- the callbacks

  function FinishConnect(s: Race, ec: ErrorCode): Race {
    s.(connectResult := ec, connectFinished := true, cancelled := true, finishes := s.finishes + 1)
  }

  /** `openError` is what opening the socket reports, if it comes to that. */
  function StartConnect(s: Race, lastError: ErrorCode, openError: Option<int>): Race {
    if s.nextEndpoint >= |s.endpoints| then FinishConnect(s, if lastError != Success then lastError else NotFound)
    else
      var outcome := if openError.Some? then OpenFailed(openError.value) else Connecting;
      var t := s.(log := s.log + [Attempt(s.nextEndpoint, s.endpoints[s.nextEndpoint], outcome)]);
      if openError.Some? then FinishConnect(t, Os(openError.value)) else t.(connectPending := true)
  }

  function Ended(log: seq<Attempt>, outcome: Outcome): seq<Attempt> {
    if log == [] then [] else log[|log| - 1 := log[|log| - 1].(outcome := outcome)]
  }

  /** `error` is None for a successful attempt. */
  function AsyncConnectHandler(s: Race, error: Option<int>, openError: Option<int>): Race {
    var outcome := if error.None? then Connected else Failed(error.value);
    var t := s.(connectPending := false, log := Ended(s.log, outcome));
    if error.None? then FinishConnect(t, Success)
    else if s.timerFinished then FinishConnect(t, TimedOut)
    else StartConnect(t.(nextEndpoint := s.nextEndpoint + 1), Os(error.value), openError)
  }

  /** Cancelling the socket makes the pending attempt complete, with any result. */
  function TimerCallback(s: Race, expired: bool): Race {
    s.(timerPending := false, timerFinished := true, expired := s.expired || expired)
  }

  /** `async_wait`, then `start`, both under the lock. */
  function Begin(endpoints: seq<string>, openError: Option<int>): Race {
    StartConnect(Race(endpoints, 0, false, false, Success, true, false, false, false, 0, []), Success, openError)
  }

  // ---------------------------------------------------------------- runs

  datatype Event = ConnectDone(error: Option<int>, openError: Option<int>) | TimerDone(expired: bool)

  /** The timer's callback runs when it expires or after it was cancelled. */
  predicate Enabled(s: Race, e: Event) {
    match e
    case ConnectDone(_, _) => s.connectPending
    case TimerDone(expired) => s.timerPending && (expired || s.cancelled)
  }

  function Apply(s: Race, e: Event): Race {
    match e
    case ConnectDone(error, openError) => AsyncConnectHandler(s, error, openError)
    case TimerDone(expired) => TimerCallback(s, expired)
  }

  predicate Run(s: Race, events: seq<Event>, t: Race)
    decreases |events|
  {
    if events == [] then s == t else Enabled(s, events[0]) && Run(Apply(s, events[0]), events[1..], t)
  }

  /** The condition of the caller's loop. */
  predicate Waiting(s: Race) {
    !s.timerFinished || !s.connectFinished
  }

  // ---------------------------------------------------------------- the invariant

  predicate EarlierFailed(log: seq<Attempt>) {
    forall k :: 0 <= k < |log| - 1 ==> log[k].outcome.Failed?
  }

  /** The `k`-th attempt is on the `k`-th endpoint, so each is tried at most once and in order. */
  predicate InOrder(log: seq<Attempt>, endpoints: seq<string>) {
    |log| <= |endpoints| && forall k :: 0 <= k < |log| ==> log[k].index == k && log[k].endpoint == endpoints[k]
  }

  /** What the result says about the last attempt. */
  predicate Explained(s: Race) {
    if s.log == [] then s.connectResult == NotFound && s.endpoints == []
    else match s.log[|s.log| - 1].outcome
      case Connecting => false
      case Connected => s.connectResult == Success
      case OpenFailed(e) => s.connectResult == Os(e)
      case Failed(e) =>
        (s.connectResult == TimedOut && s.expired) || (s.connectResult == Os(e) && |s.log| == |s.endpoints|)
  }

  predicate RaceOk(s: Race) {
    && (s.timerPending <==> !s.timerFinished) && (s.connectPending <==> !s.connectFinished)
    && (s.cancelled <==> s.connectFinished) && s.finishes == (if s.connectFinished then 1 else 0)
    && (s.timerFinished && !s.connectFinished ==> s.expired)
    && InOrder(s.log, s.endpoints) && EarlierFailed(s.log)
    && (s.connectPending ==> s.nextEndpoint + 1 == |s.log| && s.log[|s.log| - 1].outcome == Connecting)
    && (s.connectFinished ==> Explained(s))
  }

  /** Endpoints that may still be tried, and the timer. */
  function Measure(s: Race): nat
    requires RaceOk(s)
  {
    (if s.connectPending then |s.endpoints| - s.nextEndpoint else 0) + (if s.timerPending then 1 else 0)
  }

  lemma BeginIsOk(endpoints: seq<string>, openError: Option<int>)
    ensures RaceOk(Begin(endpoints, openError))
  {
  }

  lemma EndedIsInOrder(log: seq<Attempt>, endpoints: seq<string>, outcome: Outcome)
    requires log != [] && InOrder(log, endpoints) && EarlierFailed(log)
    ensures var r := Ended(log, outcome);
      |r| == |log| && r[|r| - 1].outcome == outcome && InOrder(r, endpoints) && EarlierFailed(r)
  {
  }

  lemma NextIsInOrder(log: seq<Attempt>, endpoints: seq<string>, a: Attempt)
    requires InOrder(log, endpoints) && EarlierFailed(log) && log != [] && log[|log| - 1].outcome.Failed?
    requires |log| < |endpoints| && a.index == |log| && a.endpoint == endpoints[|log|]
    ensures InOrder(log + [a], endpoints) && EarlierFailed(log + [a])
  {
  }

  lemma AttemptStep(s: Race, error: Option<int>, openError: Option<int>)
    requires RaceOk(s) && s.connectPending
    ensures var t := AsyncConnectHandler(s, error, openError);
      RaceOk(t) && Measure(t) < Measure(s) && t.endpoints == s.endpoints
  {
    var done := Ended(s.log, if error.None? then Connected else Failed(error.value));
    EndedIsInOrder(s.log, s.endpoints, if error.None? then Connected else Failed(error.value));
    if error.Some? && |s.log| < |s.endpoints| {
      var outcome := if openError.Some? then OpenFailed(openError.value) else Connecting;
      NextIsInOrder(done, s.endpoints, Attempt(|s.log|, s.endpoints[|s.log|], outcome));
    }
    hide InOrder, EarlierFailed, Ended;
  }

  /** Every callback keeps the invariant and brings the race closer to its end. */
  lemma CallbackStep(s: Race, e: Event)
    requires RaceOk(s) && Enabled(s, e)
    ensures RaceOk(Apply(s, e)) && Measure(Apply(s, e)) < Measure(s) && Apply(s, e).endpoints == s.endpoints
  {
    hide InOrder, EarlierFailed;
    match e {
      case ConnectDone(error, openError) =>
        hide AsyncConnectHandler;
        AttemptStep(s, error, openError);
      case TimerDone(_) =>
    }
  }

  lemma {:induction false} RunKeepsRace(s: Race, events: seq<Event>, t: Race)
    requires RaceOk(s) && Run(s, events, t)
    ensures RaceOk(t) && |events| + Measure(t) <= Measure(s) && t.endpoints == s.endpoints
    decreases |events|
  {
    hide RaceOk, Apply, Enabled, Measure;
    if events != [] {
      CallbackStep(s, events[0]);
      RunKeepsRace(Apply(s, events[0]), events[1..], t);
    }
  }

  /** While the caller waits, some callback is pending, and it can run. */
  lemma WaitingMeansPending(s: Race)
    requires RaceOk(s)
    ensures Waiting(s) <==> s.timerPending || s.connectPending
    ensures Waiting(s) <==> exists e :: Enabled(s, e)
  {
    if s.timerPending { assert Enabled(s, TimerDone(true)); }
    if s.connectPending { assert Enabled(s, ConnectDone(None, None)); }
  }

  /** No run is longer than the endpoints and the timer allow, and one that cannot be continued ends with
  both flags set: the caller never waits for ever. */
  lemma EveryRunEnds(endpoints: seq<string>, openError: Option<int>, events: seq<Event>, t: Race)
    requires Run(Begin(endpoints, openError), events, t)
    ensures |events| <= |endpoints| + 1
    ensures (forall e :: !Enabled(t, e)) <==> t.timerFinished && t.connectFinished
  {
    hide RaceOk, Enabled, Run;
    BeginIsOk(endpoints, openError);
    RunKeepsRace(Begin(endpoints, openError), events, t);
    BeginMeasure(endpoints, openError);
    WaitingMeansPending(t);
  }

  /** The error of the last endpoint of all, or of the first one whose socket could not be opened. */
  predicate LastError(log: seq<Attempt>, endpoints: seq<string>, code: int)
    requires |log| > 0
  {
    var last := log[|log| - 1].outcome;
    last == OpenFailed(code) || (last == Failed(code) && |log| == |endpoints|)
  }

  lemma BeginMeasure(endpoints: seq<string>, openError: Option<int>)
    requires RaceOk(Begin(endpoints, openError))
    ensures Begin(endpoints, openError).endpoints == endpoints
    ensures Measure(Begin(endpoints, openError)) <= |endpoints| + 1
  {
  }

  /** On every run `finish_connect` runs exactly once by the time the caller is released; the `k`-th attempt is on
  the `k`-th endpoint and is made only after all before it failed; the result is success exactly when some
  attempt succeeded; and the handler reports a timeout only after the timer expired. */
  lemma ResultIsRight(endpoints: seq<string>, openError: Option<int>, events: seq<Event>, t: Race)
    requires Run(Begin(endpoints, openError), events, t)
    ensures t.finishes <= 1 && (!Waiting(t) ==> t.finishes == 1)
    ensures InOrder(t.log, endpoints) && EarlierFailed(t.log)
    ensures t.connectFinished ==>
      (t.connectResult == Success <==> exists k :: 0 <= k < |t.log| && t.log[k].outcome == Connected)
    ensures t.connectFinished && t.connectResult == TimedOut ==>
      t.expired && |t.log| > 0 && t.log[|t.log| - 1].outcome.Failed?
    ensures t.connectFinished && t.connectResult == NotFound <==> t.connectFinished && endpoints == []
    ensures t.connectFinished && t.connectResult.Os? ==>
      |t.log| > 0 && LastError(t.log, endpoints, t.connectResult.code)
  {
    BeginIsOk(endpoints, openError);
    RunKeepsRace(Begin(endpoints, openError), events, t);
    BeginMeasure(endpoints, openError);
    hide Begin, Run, Measure;
    if t.log != [] { assert t.log[|t.log| - 1] in t.log; }
  }

  // ---------------------------------------------------------------- the timeout

  lemma NothingPending(s: Race, events: seq<Event>, t: Race)
    requires !s.timerPending && !s.connectPending && Run(s, events, t)
    ensures events == [] && s == t
  {
  }

  lemma Pending(s: Race)
    requires RaceOk(s)
    ensures (s.timerPending <==> !s.timerFinished) && (s.connectPending <==> !s.connectFinished)
  {
  }

  /** Once the timer's callback has run no new attempt is made: the next connect callback is the last event of all, and
  its result is a success or a timeout. */
  lemma AfterTimeout(s: Race, events: seq<Event>, t: Race)
    requires RaceOk(s) && s.timerFinished && s.connectPending && Run(s, events, t)
    ensures |t.log| == |s.log| && |events| <= 1 && (t.connectFinished <==> |events| == 1)
    ensures |events| == 1 ==>
      events[0].ConnectDone? && t.connectResult == (if events[0].error.None? then Success else TimedOut)
  {
    Pending(s);
    hide RaceOk;
    if events != [] { NothingPending(Apply(s, events[0]), events[1..], t); }
  }

  /** Some attempt failed after the timer's callback. */
  ghost predicate FailedLate(events: seq<Event>) {
    exists j, k :: 0 <= j < k < |events| && events[j].TimerDone? && events[k].ConnectDone? && events[k].error.Some?
  }

  ghost predicate Succeeded(events: seq<Event>) {
    exists k :: 0 <= k < |events| && events[k].ConnectDone? && events[k].error.None?
  }

  ghost predicate TimerRan(events: seq<Event>) {
    exists j :: 0 <= j < |events| && events[j].TimerDone?
  }

  lemma OneMore(events: seq<Event>, e: Event)
    ensures TimerRan(events + [e]) <==> TimerRan(events) || e.TimerDone?
    ensures Succeeded(events + [e]) <==> Succeeded(events) || (e.ConnectDone? && e.error.None?)
    ensures FailedLate(events + [e]) <==>
      FailedLate(events) || (TimerRan(events) && e.ConnectDone? && e.error.Some?)
  {
    var more := events + [e];
    assert more[|events|] == e && forall i :: 0 <= i < |events| ==> more[i] == events[i];
    if TimerRan(events) {
      var j :| 0 <= j < |events| && events[j].TimerDone?;
      assert more[j].TimerDone?;
    }
    if Succeeded(events) {
      var k :| 0 <= k < |events| && events[k].ConnectDone? && events[k].error.None?;
      assert more[k].ConnectDone?;
    }
    if FailedLate(events) {
      var j, k :| 0 <= j < k < |events| && events[j].TimerDone? && events[k].ConnectDone? && events[k].error.Some?;
      assert more[j].TimerDone? && more[k].ConnectDone?;
    }
  }

  /** What the state says about the events that led to it. */
  ghost predicate Remembers(events: seq<Event>, s: Race) {
    && (s.timerFinished <==> TimerRan(events))
    && (s.connectFinished && s.connectResult == TimedOut <==> FailedLate(events))
    && (s.connectFinished && s.connectResult == Success <==> Succeeded(events))
  }

  lemma EventIsRemembered(events: seq<Event>, s: Race, e: Event)
    requires RaceOk(s) && Remembers(events, s) && Enabled(s, e)
    ensures Remembers(events + [e], Apply(s, e))
  {
    Pending(s);
    OneMore(events, e);
    hide RaceOk, TimerRan, FailedLate, Succeeded;
  }

  lemma {:induction false} RunIsRemembered(before: seq<Event>, s: Race, events: seq<Event>, t: Race)
    requires RaceOk(s) && Remembers(before, s) && Run(s, events, t)
    ensures Remembers(before + events, t)
    decreases |events|
  {
    hide RaceOk, Remembers, Apply, Enabled;
    if events == [] {
      assert before + events == before;
    } else {
      CallbackStep(s, events[0]);
      EventIsRemembered(before, s, events[0]);
      RunIsRemembered(before + [events[0]], Apply(s, events[0]), events[1..], t);
      assert before + [events[0]] + events[1..] == before + events;
    }
  }

  lemma NothingRemembered(endpoints: seq<string>, openError: Option<int>)
    ensures Remembers([], Begin(endpoints, openError))
  {
  }

  /** On every run the caller is told of a timeout if and only if an attempt failed after the timer's callback, and of a
  success if and only if one succeeded. */
  lemma TimedOutIff(endpoints: seq<string>, openError: Option<int>, events: seq<Event>, t: Race)
    requires Run(Begin(endpoints, openError), events, t)
    ensures t.connectFinished && t.connectResult == TimedOut <==> FailedLate(events)
    ensures t.connectFinished && t.connectResult == Success <==> Succeeded(events)
    ensures t.timerFinished <==> exists j :: 0 <= j < |events| && events[j].TimerDone?
  {
    BeginIsOk(endpoints, openError);
    NothingRemembered(endpoints, openError);
    hide RaceOk, Begin, Run, FailedLate, Succeeded;
    RunIsRemembered([], Begin(endpoints, openError), events, t);
    assert [] + events == events;
  }
}
