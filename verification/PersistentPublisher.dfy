/** The persistent publisher as an object: correlation contexts, publish without a buffer, the
    send task, the acknowledgement handler and the two drains. Each method is the passage of one
    thread through the code; PersistentProtocol interleaves the passages of all threads. */
module PersistentPublisher {
  import opened GoChannel
  import opened NativeSend
  import opened Wrappers

  // a context that was told the fate of its message
  datatype Resolution<C> = Resolution(context: C, persisted: bool, error: Option<int>)

  datatype Publishable<M, C> = Publishable(message: M, id: nat, context: Option<C>)

  datatype PublishError = Overflow | Native(code: int)

  datatype IncompleteDelivery = IncompleteDelivery(undelivered: nat, unacked: nat)

  // drainQueue resolves the contexts of these messages, in order
  function Undelivered<M, C>(messages: seq<Publishable<M, C>>, error: Option<int>): seq<Resolution<C>> {
    if messages == [] then []
    else
      var last := messages[|messages| - 1];
      Undelivered(messages[..|messages| - 1], error)
      + (if last.context.Some? then [Resolution(last.context.value, false, error)] else [])
  }

  // when every message has a context, as it has from every publish call of the API
  lemma {:induction false} UndeliveredIsEach<M, C>(messages: seq<Publishable<M, C>>, error: Option<int>)
    requires forall i :: 0 <= i < |messages| ==> messages[i].context.Some?
    ensures |Undelivered(messages, error)| == |messages|
    ensures forall i :: 0 <= i < |messages| ==>
              Undelivered(messages, error)[i] == Resolution(messages[i].context.value, false, error)
  {
    if messages != [] {
      UndeliveredIsEach(messages[..|messages| - 1], error);
    }
  }

  lemma UndeliveredGrows<M, C>(messages: seq<Publishable<M, C>>, k: nat, error: Option<int>)
    requires k < |messages|
    ensures Undelivered(messages[..k + 1], error) == Undelivered(messages[..k], error)
            + (if messages[k].context.Some? then [Resolution(messages[k].context.value, false, error)] else [])
  {
    assert messages[..k + 1][..k] == messages[..k];
  }

  // drainAckTable resolves the contexts under these ids, in the order in which it meets them
  function Unacked<C>(ids: seq<nat>, table: map<nat, C>, error: Option<int>): (r: seq<Resolution<C>>)
    requires forall i :: 0 <= i < |ids| ==> ids[i] in table
    ensures |r| == |ids|
    ensures forall i :: 0 <= i < |ids| ==> r[i] == Resolution(table[ids[i]], false, error)
  {
    seq(|ids|, i requires 0 <= i < |ids| => Resolution(table[ids[i]], false, error))
  }

  class Publisher<M, C> {
    const waits: bool
    const buffer: Channel<Publishable<M, C>>
    const requestCorrelateComplete: Channel<bool>
    const correlationComplete: Channel<bool>
    var correlationMap: map<nat, C>
    var resolved: seq<Resolution<C>>
    var readyEvents: nat
    ghost var disposed: seq<M>

    ghost predicate Valid()
      reads this, buffer, requestCorrelateComplete, correlationComplete
    {
      && buffer.Valid() && requestCorrelateComplete.Valid() && correlationComplete.Valid()
      && requestCorrelateComplete != correlationComplete && {buffer as object} !! {requestCorrelateComplete as object, correlationComplete}
    }

    constructor (capacity: nat, waits: bool)
      ensures Valid() && this.waits == waits && buffer.capacity == capacity
      ensures fresh(buffer) && fresh(requestCorrelateComplete) && fresh(correlationComplete)
      ensures buffer.items == [] && !buffer.closed && !requestCorrelateComplete.closed && !correlationComplete.closed
      ensures correlationMap == map[] && resolved == [] && readyEvents == 0 && disposed == []
    {
      this.waits := waits;
      buffer := new Channel(capacity);
      requestCorrelateComplete := new Channel(0);
      correlationComplete := new Channel(0);
      correlationMap, resolved, readyEvents, disposed := map[], [], 0, [];
    }

    method AddCorrelationContext(id: nat, context: Option<C>) returns (added: bool)
      requires Valid()
      modifies this`correlationMap
      ensures Valid() && added == context.Some?
      ensures correlationMap == if added then old(correlationMap)[id := context.value] else old(correlationMap)
    {
      added := context.Some?;
      if added {
        correlationMap := correlationMap[id := context.value];
      }
    }

    method RemoveCorrelationContext(id: nat)
      requires Valid()
      modifies this`correlationMap
      ensures Valid() && correlationMap == old(correlationMap) - {id}
    {
      correlationMap := correlationMap - {id};
    }

    // publish without a buffer: the context is entered before the native call and leaves again if
    // the call fails, so that a failed publish with a new id leaves no trace and a successful one
    // exactly its own entry.
    method PublishUnbuffered(message: M, id: nat, context: Option<C>, answer: Answer) returns (r: Result<(), PublishError>)
      requires Valid()
      modifies this`correlationMap, this`disposed
      ensures Valid() && (r.Ok? <==> answer.Sent?)
      ensures r.Err? ==> r.error == if answer.Blocked? then Overflow else Native(answer.code)
      ensures r.Err? && id !in old(correlationMap) ==> correlationMap == old(correlationMap)
      ensures r.Ok? && context.Some? && id !in old(correlationMap) ==>
                && correlationMap.Keys == old(correlationMap).Keys + {id} && correlationMap[id] == context.value
                && forall i :: i in old(correlationMap) ==> correlationMap[i] == old(correlationMap)[i]
      ensures r.Ok? && context.None? ==> correlationMap == old(correlationMap)
      ensures disposed == if context.Some? then old(disposed) else old(disposed) + [message]
    {
      var added := AddCorrelationContext(id, context);
      if !answer.Sent? {
        RemoveCorrelationContext(id);
      }
      if !added {
        disposed := disposed + [message];
      }
      r := match answer
        case Sent => Ok(())
        case Blocked(_) => Err(Overflow)
        case Failed(code) => Err(Native(code));
    }

    // An acknowledgement that meets no other: it resolves the context once, deletes its entry, and
    // if Terminate waits and the table is now empty, signals that; an unknown id does nothing. That
    // nobody has signalled it before is PersistentTheorems.WakesExactlyWhenDrained.
    method AckHandler(id: nat, persisted: bool, error: Option<int>, terminating: bool)
      requires Valid()
      requires terminating && requestCorrelateComplete.closed && correlationMap.Keys == {id} ==> !correlationComplete.closed
      modifies this`correlationMap, this`resolved, correlationComplete
      ensures Valid()
      ensures id !in old(correlationMap) ==>
                correlationMap == old(correlationMap) && resolved == old(resolved)
                && correlationComplete.closed == old(correlationComplete.closed)
      ensures id in old(correlationMap) ==>
                && resolved == old(resolved) + [Resolution(old(correlationMap)[id], persisted, error)]
                && correlationMap == old(correlationMap) - {id}
                && (correlationComplete.closed <==>
                      old(correlationComplete.closed)
                      || (terminating && requestCorrelateComplete.closed && old(correlationMap).Keys == {id}))
    {
      if id in correlationMap {
        var context := correlationMap[id];
        resolved := resolved + [Resolution(context, persisted, error)];
        correlationMap := correlationMap - {id};
        assert |correlationMap| == 0 <==> correlationMap == map[];
        assert correlationMap.Keys == old(correlationMap).Keys - {id};
        if terminating && requestCorrelateComplete.closed && |correlationMap| == 0 {
          correlationComplete.Close();
        }
      }
    }

    // The task that publish submits for pub.
    method SendTask(pub: Publishable<M, C>, answers: seq<Answer>) returns (outcome: Outcome)
      requires Valid() && exists i :: 0 <= i < |answers| && Decides(answers[i])
      modifies this`correlationMap, this`resolved, this`readyEvents, this`disposed, buffer
      ensures Valid() && outcome == NativeSend.Result(answers) && buffer.closed == old(buffer.closed)
      ensures correlationMap ==
              if pub.context.None? then (if outcome.Interrupted? then old(correlationMap) - {pub.id} else old(correlationMap))
              else if outcome.Interrupted? || (outcome.Rejected? && old(buffer.items) != []) then old(correlationMap) - {pub.id}
              else old(correlationMap)[pub.id := pub.context.value]
      ensures resolved ==
              if outcome.Rejected? && old(buffer.items) != [] && pub.context.Some?
              then old(resolved) + [Resolution(pub.context.value, false, Some(outcome.code))] else old(resolved)
      ensures buffer.items == if outcome.Interrupted? || old(buffer.items) == [] then old(buffer.items) else old(buffer.items)[1..]
      ensures disposed ==
              if !outcome.Interrupted? && old(buffer.items) != [] && pub.context.None?
              then old(disposed) + [old(buffer.items)[0].message] else old(disposed)
      ensures readyEvents == old(readyEvents)
              + if !waits && !outcome.Interrupted? && old(buffer.items) != [] && |old(buffer.items)| == buffer.capacity then 1 else 0
    {
      var added := AddCorrelationContext(pub.id, pub.context);
      var sends;
      outcome, sends := NativeSend.Send(answers);
      if outcome.Interrupted? {
        RemoveCorrelationContext(pub.id);
        return;
      }
      var isFull := |buffer.items| == buffer.capacity;
      var popped := buffer.Receive();
      if popped.Got? {
        if outcome.Rejected? && pub.context.Some? {
          correlationMap := correlationMap - {pub.id};
          resolved := resolved + [Resolution(pub.context.value, false, Some(outcome.code))];
        } else if pub.context.None? {
          disposed := disposed + [popped.value.message];
        }
        if isFull && !waits {
          readyEvents := readyEvents + 1;
        }
      }
    }

    // Closes the buffer, counts what is left in it and resolves each context that it finds.
    method DrainQueue(error: Option<int>) returns (undelivered: nat)
      requires Valid() && !buffer.closed
      modifies this`resolved, buffer
      ensures Valid() && buffer.closed && buffer.items == []
      ensures undelivered == |old(buffer.items)|
      ensures resolved == old(resolved) + Undelivered(old(buffer.items), error)
    {
      ghost var all := buffer.items;
      assert Undelivered(all[..0], error) == [];
      hide Undelivered;
      buffer.Close();
      undelivered := 0;
      var next := buffer.Receive();
      while next.Got?
        invariant Valid() && buffer.closed
        invariant undelivered <= |all| && next != WouldWait && (next.EndOfChannel? ==> undelivered == |all| && buffer.items == [])
        invariant next.Got? ==> undelivered < |all| && next.value == all[undelivered] && buffer.items == all[undelivered + 1..]
        invariant resolved == old(resolved) + Undelivered(all[..undelivered], error)
        decreases |all| - undelivered
      {
        UndeliveredGrows(all, undelivered, error);
        assert buffer.items != [] ==> buffer.items[0] == all[undelivered + 1] && buffer.items[1..] == all[undelivered + 2..];
        undelivered := undelivered + 1;
        if next.value.context.Some? {
          resolved := resolved + [Resolution(next.value.context.value, false, error)];
        }
        next := buffer.Receive();
      }
      assert all[..undelivered] == all;
    }

    // Resolves and deletes every entry, in the order in which Go happens to visit the map.
    method DrainAckTable(error: Option<int>) returns (unacked: nat, ghost order: seq<nat>)
      requires Valid()
      modifies this`correlationMap, this`resolved
      ensures Valid() && correlationMap == map[]
      ensures unacked == |old(correlationMap)| && Enumerates(order, old(correlationMap).Keys)
      ensures resolved == old(resolved) + Unacked(order, old(correlationMap), error)
    {
      ghost var all := correlationMap;
      unacked, order := 0, [];
      while correlationMap != map[]
        invariant Valid() && unacked == |order| && unacked + |correlationMap| == |all|
        invariant forall i :: 0 <= i < |order| ==> order[i] in all && order[i] !in correlationMap
        invariant forall i, j :: 0 <= i < j < |order| ==> order[i] != order[j]
        invariant forall id :: id in all ==> id in order || (id in correlationMap && correlationMap[id] == all[id])
        invariant forall id :: id in correlationMap ==> id in all
        invariant resolved == old(resolved) + Unacked(order, all, error)
        decreases |correlationMap|
      {
        var key :| key in correlationMap;
        ghost var before := order;
        unacked := unacked + 1;
        order := order + [key];
        assert forall i :: 0 <= i < |before| ==> order[i] == before[i];
        assert forall id :: id in before ==> id in order;
        resolved := resolved + [Resolution(correlationMap[key], false, error)];
        assert Unacked(order, all, error) == Unacked(before, all, error) + [Resolution(all[key], false, error)];
        assert |correlationMap - {key}| == |correlationMap| - 1;
        correlationMap := correlationMap - {key};
      }
    }

    // The end of Terminate with nobody else at work: what is left in the buffer and in the table
    // is resolved, and the error carries exactly the two counts.
    method Shutdown(error: Option<int>) returns (r: Result<(), IncompleteDelivery>, ghost order: seq<nat>)
      requires Valid() && !buffer.closed
      modifies this`correlationMap, this`resolved, buffer
      ensures Valid() && buffer.closed && buffer.items == [] && correlationMap == map[]
      ensures Enumerates(order, old(correlationMap).Keys)
      ensures resolved == old(resolved) + Undelivered(old(buffer.items), error) + Unacked(order, old(correlationMap), error)
      ensures r.Ok? <==> old(buffer.items) == [] && old(correlationMap) == map[]
      ensures r.Err? ==> r.error == IncompleteDelivery(|old(buffer.items)|, |old(correlationMap)|)
    {
      var undelivered := DrainQueue(error);
      var unacked;
      unacked, order := DrainAckTable(error);
      assert unacked == 0 <==> old(correlationMap) == map[];
      r := if undelivered > 0 || unacked > 0 then Err(IncompleteDelivery(undelivered, unacked)) else Ok(());
    }
  }
}
