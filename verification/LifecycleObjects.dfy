/** The futures, the publisher's life cycle and the messaging service as objects: what one call
    does when no other call is under way. PublisherLifecycle and ServiceLifecycle interleave the
    atomic operations of many calls. */
module LifecycleObjects {
  import opened Wrappers
  import P = PublisherLifecycle
  import S = ServiceLifecycle

  datatype Failure = IllegalState | Reported(code: int)

  class FutureError {
    var resolved: bool
    var result: Result<(), Failure>

    constructor ()
      ensures !resolved
    {
      resolved := false;
      result := Ok(());
    }

    method Complete(outcome: Result<(), Failure>)
      modifies this
      ensures resolved && result == outcome
    {
      result := outcome;
      resolved := true;
    }

    // None as long as the caller has to wait
    method Get() returns (outcome: Option<Result<(), Failure>>)
      ensures outcome == if resolved then Some(result) else None
    {
      outcome := if resolved then Some(result) else None;
    }
  }

  class BasicMessagePublisher {
    var state: P.Life
    const startFuture: FutureError
    const terminateFuture: FutureError

    // between calls the publisher rests in one of three states, and its futures tell which
    predicate Valid()
      reads this, startFuture, terminateFuture
    {
      && startFuture != terminateFuture
      && (state == P.NotStarted || state == P.Started || state == P.Terminated)
      && (terminateFuture.resolved <==> state == P.Terminated)
      && (state == P.NotStarted ==> !startFuture.resolved)
      && (state == P.Started ==> startFuture.resolved && startFuture.result.Ok?)
    }

    constructor ()
      ensures Valid() && state == P.NotStarted && fresh(startFuture) && fresh(terminateFuture)
    {
      state := P.NotStarted;
      startFuture := new FutureError();
      terminateFuture := new FutureError();
    }

    method CompareAndSwap(from: P.Life, to: P.Life) returns (swapped: bool)
      modifies this
      ensures swapped == (old(state) == from) && state == if swapped then to else old(state)
    {
      swapped := state == from;
      if swapped {
        state := to;
      }
    }

    // work is the outcome of the start-up work, if the call gets to do it
    method Start(parentRunning: bool, work: Result<(), Failure>) returns (r: Result<(), Failure>)
      requires Valid()
      modifies this, startFuture, terminateFuture
      ensures Valid()
      ensures old(state) == P.NotStarted && parentRunning ==>
                && r == work && startFuture.resolved && startFuture.result == work
                && state == (if work.Ok? then P.Started else P.Terminated)
      ensures !(old(state) == P.NotStarted && parentRunning) ==>
                && state == old(state) && unchanged(startFuture) && unchanged(terminateFuture)
                && r == if state == P.Started then startFuture.result else Err(IllegalState)
    {
      if state != P.NotStarted {
        if state != P.Terminating && state != P.Terminated {
          var decided := startFuture.Get();
          r := decided.value;
        } else {
          r := Err(IllegalState);
        }
        return;
      }
      if !parentRunning {
        return Err(IllegalState);
      }
      var won := CompareAndSwap(P.NotStarted, P.Starting);
      if work.Ok? {
        state := P.Started;
        startFuture.Complete(work);
      } else {
        state := P.Terminated;
        terminateFuture.Complete(Ok(()));
        startFuture.Complete(work);
      }
      return work;
    }

    // work is the outcome of the shutdown, if the call gets to do it
    method Terminate(work: Result<(), Failure>) returns (r: Result<(), Failure>)
      requires Valid()
      modifies this, terminateFuture
      ensures Valid() && state == P.Terminated
      ensures r == terminateFuture.result
      ensures terminateFuture.result ==
              if old(state) == P.Started then work else if old(state) == P.NotStarted then Ok(()) else old(terminateFuture.result)
    {
      var proceed := CompareAndSwap(P.Started, P.Terminating);
      if proceed {
        state := P.Terminated;
        terminateFuture.Complete(work);
        return work;
      }
      var seen := state;
      if seen == P.NotStarted {
        var atOnce := CompareAndSwap(P.NotStarted, P.Terminated);
        if atOnce {
          terminateFuture.Complete(Ok(()));
          return Ok(());
        }
      }
      var decided := terminateFuture.Get();
      r := decided.value;
    }
  }

  class MessagingService {
    var state: S.Life
    const connectFuture: FutureError
    const disconnectFuture: FutureError
    ghost var transportCloses: nat

    predicate Resting()
      reads this, connectFuture, disconnectFuture
    {
      && connectFuture != disconnectFuture
      && (state == S.NotConnected || state == S.Connected || state == S.Disconnected)
      && (connectFuture.resolved <==> state != S.NotConnected)
      && (disconnectFuture.resolved <==> state == S.Disconnected)
    }

    ghost predicate Valid()
      reads this, connectFuture, disconnectFuture
    {
      Resting() && transportCloses == if state == S.Disconnected then 1 else 0
    }

    constructor ()
      ensures Valid() && state == S.NotConnected && fresh(connectFuture) && fresh(disconnectFuture)
    {
      state := S.NotConnected;
      connectFuture := new FutureError();
      disconnectFuture := new FutureError();
      transportCloses := 0;
    }

    // A failed connection attempt leaves the state Connected, so that it can be disconnected.
    method Connect(transport: Result<(), Failure>) returns (r: Result<(), Failure>)
      requires Valid()
      modifies this`state, connectFuture
      ensures Valid()
      ensures old(state) == S.NotConnected ==> state == S.Connected && r == connectFuture.result == transport
      ensures old(state) != S.NotConnected ==> state == old(state) && unchanged(connectFuture)
      ensures old(state) == S.Connected ==> r == connectFuture.result
      ensures old(state) == S.Disconnected ==> r == Err(IllegalState)
    {
      if state == S.NotConnected {
        state := S.Connecting;
        state := S.Connected;
        connectFuture.Complete(transport);
        return transport;
      }
      if state != S.Disconnecting && state != S.Disconnected {
        var decided := connectFuture.Get();
        r := decided.value;
      } else {
        r := Err(IllegalState);
      }
    }

    method Disconnect(transport: Result<(), Failure>) returns (r: Result<(), Failure>)
      requires Valid()
      modifies this`state, this`transportCloses, disconnectFuture
      ensures Valid()
      ensures old(state) == S.Connected ==> state == S.Disconnected && r == disconnectFuture.result == transport
      ensures old(state) != S.Connected ==> state == old(state) && unchanged(disconnectFuture)
      ensures old(state) == S.NotConnected ==> r == Err(IllegalState)
      ensures old(state) == S.Disconnected ==> r == disconnectFuture.result
    {
      if state == S.Connected {
        state := S.Disconnecting;
        transportCloses := transportCloses + 1;
        state := S.Disconnected;
        disconnectFuture.Complete(transport);
        return transport;
      }
      if state != S.NotConnected && state != S.Connecting {
        var decided := disconnectFuture.Get();
        r := decided.value;
      } else {
        r := Err(IllegalState);
      }
    }

    // only the first of a down event and a Disconnect has an effect
    method DownEvent()
      requires Valid()
      modifies this`state, this`transportCloses, disconnectFuture
      ensures Valid()
      ensures old(state) == S.Connected ==> state == S.Disconnected && disconnectFuture.result == Ok(())
      ensures old(state) != S.Connected ==> state == old(state) && unchanged(disconnectFuture)
    {
      if state == S.Connected {
        state := S.Disconnected;
        transportCloses := transportCloses + 1;
        disconnectFuture.Complete(Ok(()));
      }
    }

    // A down event and a Disconnect, in either order: the transport is closed once, and whoever
    // comes first decides what Disconnect reports.
    method DownAndDisconnect(downFirst: bool, transport: Result<(), Failure>) returns (r: Result<(), Failure>)
      requires Valid() && state == S.Connected
      modifies this`state, this`transportCloses, disconnectFuture
      ensures Valid() && state == S.Disconnected && transportCloses == 1
      ensures r == disconnectFuture.result == if downFirst then Ok(()) else transport
    {
      if downFirst {
        DownEvent();
        r := Disconnect(transport);
      } else {
        r := Disconnect(transport);
        DownEvent();
      }
    }
  }
}
