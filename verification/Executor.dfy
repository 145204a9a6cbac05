/** The executor of internal/impl/executor/executor.go as an object. Each method is one
    thread's passage through the code while it holds the locks that the code takes;
    ExecutorProtocol interleaves those passages step by step. */
module Executor {
  import opened GoChannel

  const DEFAULT_SIZE: nat := 1024
  const SCALING_FACTOR: nat := 2

  function Power2(k: nat): (p: nat)
    ensures p >= 1
  {
    if k == 0 then 1 else 2 * Power2(k - 1)
  }

  // the scales that repeated resizing can reach
  ghost predicate IsScale(scale: nat) {
    exists k: nat :: scale == DEFAULT_SIZE * Power2(k)
  }

  lemma DoubledIsScale(scale: nat)
    requires IsScale(scale)
    ensures IsScale(SCALING_FACTOR * scale)
  {
    var k: nat :| scale == DEFAULT_SIZE * Power2(k);
    assert Power2(k + 1) == 2 * Power2(k);
  }

  class Executor<Task> {
    var channel: Channel<Task>
    var closed: bool
    var scale: nat
    var terminateComplete: Channel<bool>
    ghost var executed: seq<Task>

    ghost predicate Valid()
      reads this, channel, terminateComplete
    {
      && channel.Valid() && terminateComplete.Valid() && channel as object != terminateComplete
      && channel.capacity == scale && IsScale(scale)
      && channel.closed == closed
      && (terminateComplete.closed ==> closed && channel.items == [])
    }

    // the tasks accepted and not yet taken by Run, oldest first
    ghost function Pending(): seq<Task>
      reads this, channel
    {
      channel.items
    }

    constructor ()
      ensures Valid() && fresh(channel) && fresh(terminateComplete)
      ensures !closed && Pending() == [] && executed == [] && scale == DEFAULT_SIZE
    {
      channel := new Channel(DEFAULT_SIZE);
      scale := DEFAULT_SIZE;
      closed := false;
      terminateComplete := new Channel(0);
      executed := [];
      new;
      assert DEFAULT_SIZE == DEFAULT_SIZE * Power2(0);
    }

    // Moves every queued task, in order, to a channel twice as large.
    method Resize()
      requires Valid() && !closed
      modifies this`channel, this`scale, channel
      ensures Valid() && fresh(channel) && !channel.closed
      ensures Pending() == old(Pending())
      ensures scale == SCALING_FACTOR * old(scale)
    {
      DoubledIsScale(scale);
      var newScale := SCALING_FACTOR * scale;
      scale := newScale;
      var newChannel := new Channel<Task>(newScale);
      var oldChannel := channel;
      oldChannel.Close();
      var t := oldChannel.Receive();
      while t.Got?
        invariant channel == oldChannel && scale == newScale && unchanged(terminateComplete)
        invariant oldChannel == old(channel) && oldChannel.closed && oldChannel.Valid()
        invariant newChannel.Valid() && !newChannel.closed && fresh(newChannel) && newChannel.capacity == newScale
        invariant t != WouldWait && (t.EndOfChannel? ==> oldChannel.items == [])
        invariant newChannel.items + (if t.Got? then [t.value] else []) + oldChannel.items == old(channel.items)
        decreases |oldChannel.items|, t.Got?
      {
        newChannel.Send(t.value);
        t := oldChannel.Receive();
      }
      channel := newChannel;
    }

    method Submit(task: Task) returns (submitted: bool)
      requires Valid()
      modifies this`channel, this`scale, channel
      ensures Valid() && (channel == old(channel) || fresh(channel))
      ensures submitted == !closed
      ensures Pending() == if submitted then old(Pending()) + [task] else old(Pending())
      ensures scale == if submitted && |old(Pending())| == old(scale) then SCALING_FACTOR * old(scale) else old(scale)
    {
      if closed {
        return false;
      }
      var sent := channel.TrySend(task);
      if !sent {
        sent := channel.TrySend(task);
        if !sent {
          Resize();
          channel.Send(task);
        }
      }
      return true;
    }

    method Terminate()
      requires Valid()
      modifies this`closed, channel
      ensures Valid() && closed && Pending() == old(Pending())
    {
      if !closed {
        closed := true;
        channel.Close();
      }
    }

    // Run up to the moment when it ends or, on an executor that is still open, has to wait: every
    // accepted task runs, oldest first, and terminateComplete is closed after the last one.
    method Run()
      requires Valid() && !terminateComplete.closed
      modifies this`executed, channel, terminateComplete
      ensures Valid() && (terminateComplete.closed <==> closed)
      ensures executed == old(executed) + old(Pending()) && Pending() == []
    {
      var task := channel.Receive();
      while task.Got?
        invariant Valid() && !terminateComplete.closed
        invariant (task.EndOfChannel? ==> closed) && (task.WouldWait? ==> !closed) && (!task.Got? ==> channel.items == [])
        invariant executed + (if task.Got? then [task.value] else []) + channel.items == old(executed) + old(channel.items)
        decreases |channel.items|, task.Got?
      {
        executed := executed + [task.value];
        task := channel.Receive();
      }
      if task.EndOfChannel? {
        terminateComplete.Close();
      }
    }
  }
}
