/** The correlation side of the request/reply publisher as an object: each method is one section
    under rxLock. Channels are the values of ReplyDesk.Chan, updated in place; a send to a full or
    closed one and a second close are preconditions, so each call site proves that it neither
    blocks nor panics. A signal on a full channel blocks in the code; the method says so instead. */
module RequestReplyPublisher {
  import opened ReplyDesk
  import opened Wrappers

  // one pending request
  class CorrelationEntry {
    const hasHandler: bool
    var received: bool
    var result: Chan<Reply>
    var sentChan: Chan<bool>

    predicate Valid()
      reads this
    {
      !received ==> result.items == []
    }

    // the channels look like this
    predicate Looks(r: Chan<Reply>, s: Chan<bool>)
      reads this
    {
      result == r && sentChan == s
    }

    constructor (hasHandler: bool)
      ensures Valid() && this.hasHandler == hasHandler && !received && Looks(Chan([], 0), Chan([], 0))
    {
      this.hasHandler := hasHandler;
      received, result, sentChan := false, Chan([], 0), Chan([], 0);
    }

    method SendSent(ok: bool)
      requires !sentChan.Closed() && !sentChan.Full()
      modifies this`sentChan
      ensures sentChan == old(sentChan).Put(ok)
    {
      sentChan := sentChan.Put(ok);
    }

    method SendResult(reply: Reply)
      requires !result.Closed() && !result.Full()
      modifies this`result
      ensures result == old(result).Put(reply)
    {
      result := result.Put(reply);
    }

    method CloseResult()
      requires !result.Closed()
      modifies this`result
      ensures result == old(result).Close()
    {
      result := result.Close();
    }

    // `select { case <-entry.sentChan: default: close(entry.sentChan) }`
    method DiscardSent()
      modifies this`sentChan
      ensures sentChan == old(sentChan).Discard()
    {
      if sentChan.items != [] {
        sentChan := sentChan.Take();
      } else if !sentChan.Closed() {
        sentChan := sentChan.Close();
      }
    }

    method DiscardResult()
      modifies this`result
      ensures result == old(result).Discard()
    {
      if result.items != [] {
        result := result.Take();
      } else if !result.Closed() {
        result := result.Close();
      }
    }
  }

  class Publisher {
    var requestCorrelationMap: map<nat, CorrelationEntry>
    var nextCorrelationID: nat
    var requestCorrelateComplete: Chan<bool>
    var correlationComplete: Chan<bool>

    ghost predicate Valid()
      reads this, requestCorrelationMap.Values
    {
      && (forall id :: id in requestCorrelationMap ==> id < nextCorrelationID && requestCorrelationMap[id].Valid())
      && (forall i, j :: i in requestCorrelationMap && j in requestCorrelationMap && i != j ==>
            requestCorrelationMap[i] != requestCorrelationMap[j])
      && correlationComplete.closes <= 1
    }

    constructor ()
      ensures Valid() && requestCorrelationMap == map[]
      ensures requestCorrelateComplete == correlationComplete == Chan([], 0)
    {
      requestCorrelationMap := map[];
      nextCorrelationID := 0;
      requestCorrelateComplete, correlationComplete := Chan([], 0), Chan([], 0);
    }

    // A new entry under a new id; no other entry changes.
    method CreateReplyCorrelation(hasHandler: bool) returns (id: nat)
      requires Valid()
      modifies this`requestCorrelationMap, this`nextCorrelationID
      ensures Valid() && id == old(nextCorrelationID) && id !in old(requestCorrelationMap)
      ensures requestCorrelationMap.Keys == old(requestCorrelationMap).Keys + {id}
      ensures forall i :: i in old(requestCorrelationMap) ==> requestCorrelationMap[i] == old(requestCorrelationMap)[i]
      ensures var e := requestCorrelationMap[id];
              fresh(e) && e.hasHandler == hasHandler && !e.received && e.Looks(Chan([], 0), Chan([], 0))
    {
      id := nextCorrelationID;
      var entry := new CorrelationEntry(hasHandler);
      nextCorrelationID := nextCorrelationID + 1;
      requestCorrelationMap := requestCorrelationMap[id := entry];
    }

    // The signal goes to the entry under id, if there is one, and to no other; on a full channel it
    // has to wait. That the channel is open is RequestReplyTheorems.RunsNeverPanic.
    method SignalRequestCorrelationSent(id: nat, ok: bool) returns (waits: bool)
      requires Valid()
      requires id in requestCorrelationMap ==> !requestCorrelationMap[id].sentChan.Closed()
      modifies if id in requestCorrelationMap then {requestCorrelationMap[id]} else {}
      ensures Valid()
      ensures waits <==> id in requestCorrelationMap && old(requestCorrelationMap[id].sentChan.Full())
      ensures id in requestCorrelationMap ==>
                requestCorrelationMap[id].Looks(
                  old(requestCorrelationMap[id].result),
                  if waits then old(requestCorrelationMap[id].sentChan) else old(requestCorrelationMap[id].sentChan).Put(ok))
    {
      waits := false;
      if id in requestCorrelationMap {
        var entry := requestCorrelationMap[id];
        waits := entry.sentChan.Full();
        if !waits {
          entry.SendSent(ok);
        }
      }
    }

    // A reply is placed on the entry with its id, at most once; the send never blocks, and if
    // Terminate has closed the channel its panic is recovered.
    method HandleReplyMessage(reply: Reply) returns (taken: bool)
      requires Valid()
      modifies if reply.id in requestCorrelationMap then {requestCorrelationMap[reply.id]} else {}
      ensures Valid()
      ensures taken <==> reply.id in requestCorrelationMap && !old(requestCorrelationMap[reply.id].received)
                         && !old(requestCorrelationMap[reply.id].result.Closed())
      ensures reply.id in requestCorrelationMap ==>
                && requestCorrelationMap[reply.id].received
                && requestCorrelationMap[reply.id].Looks(
                     if taken then Chan([reply], 0) else old(requestCorrelationMap[reply.id].result),
                     old(requestCorrelationMap[reply.id].sentChan))
    {
      if reply.id !in requestCorrelationMap {
        return false;
      }
      var entry := requestCorrelationMap[reply.id];
      if entry.received {
        return false;
      }
      entry.received := true;
      if entry.result.Closed() {
        return false;
      }
      entry.SendResult(reply);
      return true;
    }

    // Deletes the entry, closes its channels or swallows what they hold, and signals completion
    // once if Terminate asked for it and nothing is left.
    method CloseReplyCorrelation(id: nat)
      requires Valid()
      modifies this`requestCorrelationMap, this`correlationComplete
      modifies if id in requestCorrelationMap then {requestCorrelationMap[id]} else {}
      ensures Valid() && requestCorrelationMap == old(requestCorrelationMap) - {id}
      ensures id in old(requestCorrelationMap) ==>
                old(requestCorrelationMap)[id].Looks(old(requestCorrelationMap[id].result).Discard(),
                                                     old(requestCorrelationMap[id].sentChan).Discard())
      ensures correlationComplete.Closed() <==>
                old(correlationComplete.Closed())
                || (id in old(requestCorrelationMap) && requestCorrelateComplete.Closed() && old(requestCorrelationMap).Keys == {id})
    {
      if id !in requestCorrelationMap {
        return;
      }
      var entry := requestCorrelationMap[id];
      requestCorrelationMap := requestCorrelationMap - {id};
      assert requestCorrelationMap.Keys == old(requestCorrelationMap).Keys - {id};
      entry.DiscardResult();
      entry.DiscardSent();
      assert |requestCorrelationMap| == 0 <==> requestCorrelationMap.Keys == {};
      if requestCorrelateComplete.Closed() && |requestCorrelationMap| == 0 && !correlationComplete.Closed() {
        correlationComplete := correlationComplete.Close();
      }
    }

    // drainQueue, once the buffer is closed: each undelivered message is counted, and the request
    // that it belongs to, if still pending, is told. Waiting is the message whose signal finds its
    // channel full, at which the drain stops until somebody takes what is there.
    method SignalUndelivered(ids: seq<nat>) returns (undelivered: nat, waiting: Option<nat>)
      requires Valid()
      requires forall i :: 0 <= i < |ids| && ids[i] in requestCorrelationMap ==> !requestCorrelationMap[ids[i]].sentChan.Closed()
      modifies requestCorrelationMap.Values
      ensures Valid()
      ensures waiting.None? ==> undelivered == |ids|
      ensures waiting.Some? ==> undelivered == waiting.value + 1 <= |ids| && ids[waiting.value] in requestCorrelationMap
                                && requestCorrelationMap[ids[waiting.value]].sentChan.Full()
      ensures var told := ids[..if waiting.Some? then waiting.value else |ids|];
              forall id :: id in requestCorrelationMap ==>
                requestCorrelationMap[id].Looks(
                  old(requestCorrelationMap[id].result),
                  if id in told then old(requestCorrelationMap[id].sentChan).Put(false) else old(requestCorrelationMap[id].sentChan))
    {
      undelivered, waiting := 0, None;
      while undelivered < |ids|
        invariant Valid() && undelivered <= |ids|
        invariant forall id :: id in requestCorrelationMap ==>
                    requestCorrelationMap[id].Looks(
                      old(requestCorrelationMap[id].result),
                      if id in ids[..undelivered] then old(requestCorrelationMap[id].sentChan).Put(false)
                      else old(requestCorrelationMap[id].sentChan))
      {
        assert ids[..undelivered + 1] == ids[..undelivered] + [ids[undelivered]];
        var next := undelivered;
        undelivered := undelivered + 1;
        var waits := SignalRequestCorrelationSent(ids[next], false);
        if waits {
          return undelivered, Some(next);
        }
      }
      assert ids[..undelivered] == ids;
    }

    method Unblock(id: nat)
      requires Valid() && id in requestCorrelationMap && !requestCorrelationMap[id].result.Closed()
      modifies requestCorrelationMap[id]
      ensures Valid()
      ensures requestCorrelationMap[id].Looks(old(requestCorrelationMap[id].result).Close(), old(requestCorrelationMap[id].sentChan).Discard())
    {
      var entry := requestCorrelationMap[id];
      entry.DiscardSent();
      entry.CloseResult();
    }

    // The last section of Terminate: completion for everyone; each pending request finds its
    // result channel closed, and its sent channel closed or emptied.
    method UnblockAll()
      requires Valid()
      requires forall id :: id in requestCorrelationMap ==> !requestCorrelationMap[id].result.Closed()
      modifies this`correlationComplete, requestCorrelationMap.Values
      ensures Valid() && correlationComplete.Closed()
      ensures forall id :: id in requestCorrelationMap ==>
                requestCorrelationMap[id].Looks(old(requestCorrelationMap[id].result).Close(),
                                                old(requestCorrelationMap[id].sentChan).Discard())
    {
      if !correlationComplete.Closed() {
        correlationComplete := correlationComplete.Close();
      }
      UnblockEntries();
    }

    method UnblockEntries()
      requires Valid()
      requires forall id :: id in requestCorrelationMap ==> !requestCorrelationMap[id].result.Closed()
      modifies requestCorrelationMap.Values
      ensures Valid()
      ensures forall id :: id in requestCorrelationMap ==>
                requestCorrelationMap[id].Looks(old(requestCorrelationMap[id].result).Close(),
                                                old(requestCorrelationMap[id].sentChan).Discard())
    {
      var done: set<nat> := {};
      while requestCorrelationMap.Keys - done != {}
        invariant Valid() && done <= requestCorrelationMap.Keys
        invariant forall id :: id in requestCorrelationMap ==>
                    requestCorrelationMap[id].Looks(
                      if id in done then old(requestCorrelationMap[id].result).Close() else old(requestCorrelationMap[id].result),
                      if id in done then old(requestCorrelationMap[id].sentChan).Discard() else old(requestCorrelationMap[id].sentChan))
        decreases requestCorrelationMap.Keys - done
      {
        var id :| id in requestCorrelationMap.Keys - done;
        Unblock(id);
        done := done + {id};
      }
    }
  }
}
