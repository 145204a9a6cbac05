/** The direct publisher with buffered backpressure, as an object. Each method is the passage of
    one thread through the code; Pipeline interleaves the passages of all threads. */
module DirectPublisher {
  import opened Executor
  import opened GoChannel
  import opened NativeSend
  import opened Wrappers

  datatype Event<M> = Failure(message: M, error: Option<int>) | Ready

  datatype PublishError = Overflow | AlreadyTerminated | Incomplete(undelivered: nat)

  // one failure event for each message, in order
  function Failures<M>(messages: seq<M>, error: Option<int>): (events: seq<Event<M>>)
    ensures |events| == |messages|
    ensures forall i :: 0 <= i < |messages| ==> events[i] == Failure(messages[i], error)
  {
    seq(|messages|, i requires 0 <= i < |messages| => Failure(messages[i], error))
  }

  class Publisher<M> {
    const waits: bool
    const buffer: Channel<M>
    const tasks: Channel<M>
    // two signal channels that carry no values: whether they are closed
    var terminateComplete: bool
    var terminateWaitInterrupt: bool
    const events: Executor<Event<M>>
    var failureListener: bool
    var readinessListener: bool
    ghost var disposed: seq<M>

    ghost predicate Valid()
      reads this, buffer, tasks, events, events.channel, events.terminateComplete
    {
      && buffer.Valid() && tasks.Valid() && events.Valid()
      && tasks != buffer && tasks.capacity == buffer.capacity && !tasks.closed
      && Apart(buffer) && Apart(tasks)
    }

    // not a part of the event executor
    ghost predicate Apart(o: object)
      reads events
    {
      o != events && o != events.channel && o != events.terminateComplete
    }

    constructor (capacity: nat, waits: bool)
      ensures Valid() && this.waits == waits && buffer.capacity == capacity
      ensures buffer.items == [] && !buffer.closed && tasks.items == [] && events.Pending() == []
      ensures fresh(buffer) && fresh(tasks) && fresh(events) && fresh(events.channel)
      ensures !terminateComplete && !terminateWaitInterrupt && disposed == []
    {
      this.waits := waits;
      buffer := new Channel(capacity);
      tasks := new Channel(capacity);
      terminateComplete, terminateWaitInterrupt := false, false;
      events := new Executor();
      failureListener, readinessListener := false, false;
      disposed := [];
    }

    // The part of publish under bufferPublishLock; None means that it has to wait. If both the
    // buffer and the interrupt are ready, Go's select is free to choose. A send to the closed
    // buffer panics, which the code turns into an error. That the task buffer has room is
    // PipelineTheorems.TaskBufferHasRoom.
    method Publish(message: M, choosesInterrupt: bool) returns (r: Option<Result<(), PublishError>>)
      requires Valid()
      modifies buffer, tasks
      ensures Valid() && buffer.closed == old(buffer.closed)
      ensures r.None? <==> waits && !buffer.closed && |old(buffer.items)| == buffer.capacity && !terminateWaitInterrupt
      ensures r == Some(Ok(())) <==> !buffer.closed && |old(buffer.items)| < buffer.capacity
                                     && !(waits && terminateWaitInterrupt && choosesInterrupt)
      ensures r != Some(Ok(())) ==> buffer.items == old(buffer.items) && tasks.items == old(tasks.items)
      ensures r.Some? && r.value.Err? ==> r.value.error == if buffer.closed || waits then AlreadyTerminated else Overflow
      ensures r == Some(Ok(())) ==>
                && buffer.items == old(buffer.items) + [message]
                && tasks.items == (if terminateComplete || |old(tasks.items)| == tasks.capacity then old(tasks.items)
                                   else old(tasks.items) + [message])
    {
      if buffer.closed || (waits && terminateWaitInterrupt && choosesInterrupt) {
        return Some(Err(AlreadyTerminated));
      }
      var written := buffer.TrySend(message);
      if !written {
        if !waits {
          return Some(Err(Overflow));
        }
        return if terminateWaitInterrupt then Some(Err(AlreadyTerminated)) else None;
      }
      if !terminateComplete {
        var submitted := tasks.TrySend(message);
      }
      return Some(Ok(()));
    }

    // hands an event to the event executor
    method Notify(event: Event<M>)
      requires Valid()
      modifies events`channel, events`scale, events.channel
      ensures Valid() && (events.channel == old(events.channel) || fresh(events.channel))
      ensures events.Pending() == old(events.Pending()) + (if events.closed then [] else [event])
    {
      var submitted := events.Submit(event);
    }

    method Pop() returns (r: Received<M>)
      requires Valid()
      modifies buffer
      ensures Valid() && buffer.closed == old(buffer.closed)
      ensures old(buffer.items) != [] ==> r == Got(old(buffer.items)[0]) && buffer.items == old(buffer.items)[1..]
      ensures old(buffer.items) == [] ==> buffer.items == [] && r == if buffer.closed then EndOfChannel else WouldWait
    {
      r := buffer.Receive();
    }

    // a native error goes to the listener, if there is one
    predicate Reports(outcome: Outcome)
      reads this`failureListener
    {
      outcome.Rejected? && failureListener
    }

    // a pop from a buffer that held this many messages makes room for a rejected publisher
    predicate SignalsReady(held: nat)
      reads this`readinessListener
    {
      held == buffer.capacity && !waits && readinessListener
    }

    // The task that publish submits for message. What it pops is its own message when the
    // buffer is aligned (PipelineTheorems.TaskPopsItsOwnMessage).
    method SendTask(message: M, answers: seq<Answer>) returns (outcome: Outcome)
      requires Valid() && exists i :: 0 <= i < |answers| && Decides(answers[i])
      modifies this`disposed, buffer, events`channel, events`scale, events.channel
      ensures Valid() && outcome == NativeSend.Result(answers)
      ensures buffer.closed == old(buffer.closed) && events.closed == old(events.closed)
      ensures outcome.Interrupted? || old(buffer.items) == [] ==>
                buffer.items == old(buffer.items) && events.Pending() == old(events.Pending()) && disposed == old(disposed)
      ensures !outcome.Interrupted? && old(buffer.items) != [] ==>
                && buffer.items == old(buffer.items)[1..]
                && disposed == (if Reports(outcome) then old(disposed) else old(disposed) + [old(buffer.items)[0]])
      ensures !outcome.Interrupted? && old(buffer.items) != [] && !events.closed ==>
                events.Pending() == old(events.Pending())
                                    + (if Reports(outcome) then [Failure(message, Some(outcome.code))] else [])
                                    + (if SignalsReady(|old(buffer.items)|) then [Ready] else [])
      ensures events.closed ==> events.Pending() == old(events.Pending())
    {
      var sends;
      outcome, sends := NativeSend.Send(answers);
      if outcome.Interrupted? {
        return;
      }
      var isFull := |buffer.items| == buffer.capacity;
      var popped := Pop();
      if popped.Got? {
        if Reports(outcome) {
          Notify(Failure(message, Some(outcome.code)));
        } else {
          disposed := disposed + [popped.value];
        }
        if isFull && SignalsReady(buffer.capacity) {
          Notify(Ready);
        }
      }
    }

    // Closes the buffer and counts what is left in it; with a listener, each undelivered message
    // gives exactly one failure event, in order.
    method DrainQueue(error: Option<int>, listener: bool) returns (undelivered: nat)
      requires Valid() && !buffer.closed
      modifies buffer, events`channel, events`scale, events.channel
      ensures Valid() && buffer.closed && buffer.items == [] && events.closed == old(events.closed)
      ensures undelivered == |old(buffer.items)|
      ensures events.Pending() == old(events.Pending())
                                  + (if listener && !events.closed then Failures(old(buffer.items), error) else [])
      ensures events.channel == old(events.channel) || fresh(events.channel)
    {
      ghost var all, before, reports := buffer.items, events.Pending(), listener && !events.closed;
      ghost var failures := Failures(all, error);
      buffer.Close();
      undelivered := 0;
      var next := Pop();
      while next.Got?
        invariant Valid() && buffer.closed && events.closed == old(events.closed)
        invariant undelivered <= |all| && next != WouldWait && (next.EndOfChannel? ==> undelivered == |all| && buffer.items == [])
        invariant next.Got? ==> undelivered < |all| && next.value == all[undelivered] && buffer.items == all[undelivered + 1..]
        invariant events.Pending() == before + (if reports then failures[..undelivered] else [])
        invariant events.channel == old(events.channel) || fresh(events.channel)
        decreases |all| - undelivered
      {
        if listener {
          assert failures[..undelivered + 1] == failures[..undelivered] + [Failure(next.value, error)];
          Notify(Failure(next.value, error));
        }
        undelivered := undelivered + 1;
        next := Pop();
      }
    }

    // unsolicitedTermination after the state change, while no task is in hand: the event executor
    // gets one failure event for each undelivered message and then refuses all others. What a task
    // in hand changes about that is DirectTheorems.OneEventPerUnsentMessage.
    method UnsolicitedTermination(error: Option<int>) returns (r: Result<(), PublishError>)
      requires Valid() && !buffer.closed && !terminateWaitInterrupt && !events.closed
      modifies this`terminateWaitInterrupt, buffer, events`channel, events`scale, events`closed, events.channel
      ensures Valid() && buffer.closed && buffer.items == [] && terminateWaitInterrupt && events.closed
      ensures events.Pending() == old(events.Pending()) + (if failureListener then Failures(old(buffer.items), error) else [])
      ensures r == if old(buffer.items) == [] then Ok(()) else Err(Incomplete(|old(buffer.items)|))
    {
      terminateWaitInterrupt := true;
      var undelivered := DrainQueue(error, failureListener);
      events.Terminate();
      r := if undelivered > 0 then Err(Incomplete(undelivered)) else Ok(());
    }
  }
}
