/** Go channels as objects. A send to a closed channel and a second close panic in Go, so
    both are preconditions here: each call site proves that it never panics. */
module GoChannel {

  datatype Received<+T> = Got(value: T) | EndOfChannel | WouldWait

  class Channel<T> {
    const capacity: nat
    var items: seq<T>
    var closed: bool

    ghost predicate Valid()
      reads this
    {
      |items| <= capacity
    }

    constructor (capacity: nat)
      ensures Valid() && this.capacity == capacity
      ensures items == [] && !closed
    {
      this.capacity := capacity;
      items := [];
      closed := false;
    }

    // `select { case c <- value: default: }`
    method TrySend(value: T) returns (sent: bool)
      requires Valid() && !closed
      modifies this
      ensures Valid() && !closed
      ensures sent == (|old(items)| < capacity)
      ensures items == if sent then old(items) + [value] else old(items)
    {
      sent := |items| < capacity;
      if sent {
        items := items + [value];
      }
    }

    // `c <- value` at a point where it does not block
    method Send(value: T)
      requires Valid() && !closed && |items| < capacity
      modifies this
      ensures Valid() && !closed
      ensures items == old(items) + [value]
    {
      items := items + [value];
    }

    // `value, ok := <-c`; WouldWait stands for blocking, or for the default branch of a select
    method Receive() returns (r: Received<T>)
      requires Valid()
      modifies this
      ensures Valid() && closed == old(closed)
      ensures old(items) != [] ==> r == Got(old(items)[0]) && items == old(items)[1..]
      ensures old(items) == [] ==> items == [] && r == if closed then EndOfChannel else WouldWait
    {
      if items != [] {
        r := Got(items[0]);
        items := items[1..];
      } else if closed {
        r := EndOfChannel;
      } else {
        r := WouldWait;
      }
    }

    method Close()
      requires Valid() && !closed
      modifies this
      ensures Valid() && closed && items == old(items)
    {
      closed := true;
    }
  }
}
