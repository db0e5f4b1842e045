/** `SyncConnectContext` and `SyncConnector` of net/sync_connect.hpp: each method does to the shared context what
the race says. */
module SyncConnect {
  import opened Wrappers
  import opened ConnectRace

  class SyncConnectContext {
    const endpoints: seq<string>
    var nextEndpoint: nat
    var timerFinished: bool
    var connectFinished: bool
    var connectResult: ErrorCode
    ghost var timerPending: bool
    ghost var connectPending: bool
    ghost var expired: bool
    ghost var cancelled: bool
    ghost var finishes: nat
    ghost var log: seq<Attempt>

    /** `timer.async_wait` follows at once, so the timer counts as pending. */
    constructor (endpoints: seq<string>)
      ensures this.endpoints == endpoints
      ensures View() == Race(endpoints, 0, false, false, Success, true, false, false, false, 0, [])
    {
      this.endpoints := endpoints;
      nextEndpoint, timerFinished, connectFinished, connectResult := 0, false, false, Success;
      timerPending, connectPending, expired, cancelled, finishes, log := true, false, false, false, 0, [];
    }

    ghost function View(): Race
      reads this
    {
      Race(endpoints, nextEndpoint, timerFinished, connectFinished, connectResult, timerPending, connectPending,
           expired, cancelled, finishes, log)
    }

    /** The timer callback of `sync_connect`; true when it cancels the socket. */
    method TimerCallback(ghost byItself: bool) returns (cancelSocket: bool)
      modifies this
      ensures View() == ConnectRace.TimerCallback(old(View()), byItself) && cancelSocket == !connectFinished
    {
      timerPending, expired := false, expired || byItself;
      timerFinished := true;
      cancelSocket := !connectFinished;
    }
  }

  class SyncConnector {
    const context: SyncConnectContext

    constructor (context: SyncConnectContext)
      ensures this.context == context
    {
      this.context := context;
    }

    method Start(openError: Option<int>) returns (target: Option<string>)
      requires !context.connectPending
      modifies context
      ensures context.View() == ConnectRace.StartConnect(old(context.View()), Success, openError)
      ensures Targets(target)
    {
      target := StartConnect(Success, openError);
    }

    /** What is handed to `async_connect`: the endpoint of the last attempt, when one is pending. */
    ghost predicate Targets(target: Option<string>)
      reads context
    {
      if context.connectPending && context.log != [] then target == Some(context.log[|context.log| - 1].endpoint)
      else target == None
    }

    method AsyncConnectHandler(error: Option<int>, openError: Option<int>) returns (target: Option<string>)
      requires context.connectPending && context.log != []
      modifies context
      ensures context.View() == ConnectRace.AsyncConnectHandler(old(context.View()), error, openError)
      ensures Targets(target)
      ensures old(context.timerFinished) && error.Some? ==>
        context.connectFinished && context.connectResult == TimedOut && target == None
    {
      context.connectPending := false;
      context.log := Ended(context.log, if error.None? then Connected else Failed(error.value));
      target := None;
      if error.None? {
        FinishConnect(Success);
        return;
      }
      if context.timerFinished {
        FinishConnect(TimedOut);
        return;
      }
      context.nextEndpoint := context.nextEndpoint + 1;
      target := StartConnect(Os(error.value), openError);
    }

    /** Opens the socket for the next endpoint and connects it there. */
    method StartConnect(lastError: ErrorCode, openError: Option<int>) returns (target: Option<string>)
      requires !context.connectPending
      modifies context
      ensures context.View() == ConnectRace.StartConnect(old(context.View()), lastError, openError)
      ensures Targets(target)
    {
      if context.nextEndpoint >= |context.endpoints| {
        FinishConnect(if lastError != Success then lastError else NotFound);
        return None;
      }
      var endpoint := context.endpoints[context.nextEndpoint];
      if openError.Some? {
        context.log := context.log + [Attempt(context.nextEndpoint, endpoint, OpenFailed(openError.value))];
        FinishConnect(Os(openError.value));
        return None;
      }
      context.log := context.log + [Attempt(context.nextEndpoint, endpoint, Connecting)];
      context.connectPending := true;
      return Some(endpoint);
    }

    method FinishConnect(ec: ErrorCode)
      modifies context
      ensures context.View() == ConnectRace.FinishConnect(old(context.View()), ec)
    {
      context.connectResult := ec;
      context.connectFinished := true;
      context.cancelled, context.finishes := true, context.finishes + 1;
    }
  }
}
