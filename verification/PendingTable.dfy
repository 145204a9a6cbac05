/** The tables of pending subscriptions (internal/impl/core/receiver.go) and of pending provisions
    (internal/impl/core/endpoint_provisioner.go), which have the same shape: each operation in
    progress has a result channel with room for one event. NewCorrelation (but for its counter),
    ClearCorrelation, HandleEvent and AnswerAll are one section under the table's lock each, so any
    interleaving is a sequence of such calls, and Valid holds between them. Request is two sections
    around the native call, and Terminate a compare-and-swap before one. */
module PendingTable {
  import opened Wrappers

  // the event for operation id; no error means that the broker confirmed it
  datatype Event<E> = Event(id: nat, error: Option<E>)

  class ResultChannel<E> {
    const id: nat
    var items: seq<Event<E>>
    ghost var sent: nat

    constructor (id: nat)
      ensures this.id == id && items == [] && sent == 0
    {
      this.id := id;
      items, sent := [], 0;
    }

    // exactly this event was ever sent here, and nobody has taken it yet
    ghost predicate Got(event: Event<E>)
      reads this
    {
      items == [event] && sent == 1
    }

    // the capacity is 1, so the send does not block on an empty channel
    method Send(event: Event<E>)
      requires items == []
      modifies this
      ensures items == [event] && sent == old(sent) + 1
    {
      items := [event];
      sent := sent + 1;
    }
  }

  class Table<E> {
    const terminationError: E
    var running: bool
    var lastId: nat
    var pending: map<nat, ResultChannel<E>>
    ghost var issued: map<nat, ResultChannel<E>>

    // Every channel ever issued gets at most one event in its life, and one that is still pending
    // has had none.
    ghost predicate Valid()
      reads this, issued.Values
    {
      && (forall id :: id in issued ==> id <= lastId && Sound(issued[id], id))
      && (forall id :: id in pending ==> id in issued && pending[id] == issued[id] && issued[id].sent == 0)
    }

    static ghost predicate Sound(c: ResultChannel<E>, id: nat)
      reads c
    {
      c.id == id && |c.items| <= c.sent <= 1 && (c.items != [] ==> c.items[0].id == id)
    }

    constructor (terminationError: E)
      ensures Valid() && running && pending == map[] && issued == map[] && this.terminationError == terminationError
    {
      this.terminationError := terminationError;
      running, lastId, pending, issued := true, 0, map[], map[];
    }

    method NewCorrelation() returns (c: ResultChannel<E>)
      requires Valid()
      modifies this`lastId, this`pending, this`issued
      ensures Valid() && fresh(c) && c.items == [] && c.id == lastId == old(lastId) + 1
      ensures c.id !in old(pending) && pending == old(pending)[c.id := c] && issued == old(issued)[c.id := c]
    {
      lastId := lastId + 1;
      c := new ResultChannel(lastId);
      pending := pending[lastId := c];
      issued := issued[lastId := c];
    }

    method ClearCorrelation(id: nat)
      requires Valid()
      modifies this`pending
      ensures Valid() && pending == old(pending) - {id}
    {
      pending := pending - {id};
    }

    // The answer of the broker goes to the channel under its id, once; an unknown id does nothing.
    method HandleEvent(id: nat, error: Option<E>)
      requires Valid()
      modifies this`pending
      modifies if id in pending then {pending[id]} else {}
      ensures Valid() && pending == old(pending) - {id}
      ensures id in old(pending) ==> old(pending)[id].Got(Event(id, error))
    {
      if id in pending {
        Answer(id, Event(id, error));
      }
    }

    // Subscribe, Unsubscribe, Provision and Deprovision. The answer of the broker may arrive before
    // the native call returns; early is its error. If the native call fails, nothing stays pending.
    method Request(accepted: bool, early: Option<Option<E>>) returns (channel: Option<ResultChannel<E>>)
      requires Valid()
      modifies this`lastId, this`pending, this`issued
      ensures Valid() && channel.Some? == accepted
      ensures !accepted || early.Some? ==> pending == old(pending)
      ensures accepted ==> fresh(channel.value) && channel.value.id !in old(pending)
      ensures accepted && early.None? ==> pending == old(pending)[channel.value.id := channel.value] && channel.value.items == []
      ensures accepted && early.Some? ==> channel.value.Got(Event(channel.value.id, early.value))
    {
      var c := NewCorrelation();
      if early.Some? {
        HandleEvent(c.id, early.value);
        assert pending == old(pending);
      }
      if accepted {
        return Some(c);
      }
      ClearCorrelation(c.id);
      assert pending == old(pending);
      return None;
    }

    method Answer(id: nat, event: Event<E>)
      requires Valid() && id in pending && event.id == id
      modifies this`pending, pending[id]
      ensures Valid() && pending == old(pending) - {id} && old(pending)[id].Got(event)
    {
      var channel := pending[id];
      pending := pending - {id};
      channel.Send(event);
    }

    // Answers every pending operation with the termination error and empties the table.
    method Terminate()
      requires Valid()
      modifies this`running, this`pending, pending.Values
      ensures Valid() && !running
      ensures pending == if old(running) then map[] else old(pending)
      ensures old(running) ==> forall id :: id in old(pending) ==> old(pending)[id].Got(Event(id, Some(terminationError)))
      ensures !old(running) ==> forall id :: id in old(pending) ==> unchanged(old(pending)[id])
    {
      if !running {
        return;
      }
      running := false;
      AnswerAll();
    }

    method AnswerAll()
      requires Valid()
      modifies this`pending, pending.Values
      ensures Valid() && pending == map[]
      ensures forall id :: id in old(pending) ==> old(pending)[id].Got(Event(id, Some(terminationError)))
    {
      ghost var all := pending;
      while pending.Keys != {}
        invariant Valid() && issued == old(issued)
        invariant forall id :: id in pending ==> id in all && pending[id] == all[id]
        invariant forall id :: id in all && id !in pending ==> all[id].Got(Event(id, Some(terminationError)))
        decreases pending.Keys
      {
        var id :| id in pending.Keys;
        Answer(id, Event(id, Some(terminationError)));
      }
    }

    // a caller takes the event of its own operation
    method Take(c: ResultChannel<E>) returns (event: Option<Event<E>>)
      requires Valid() && c.id in issued && issued[c.id] == c
      modifies c`items
      ensures Valid() && c.items == []
      ensures event == if old(c.items) == [] then None else Some(old(c.items)[0])
      ensures event.Some? ==> event.value.id == c.id
    {
      if c.items == [] {
        return None;
      }
      event := Some(c.items[0]);
      c.items := [];
    }
  }
}
