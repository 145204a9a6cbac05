/** What holds in every run of the request/reply publisher, under any interleaving of publishes,
    send tasks, replies, timeouts and Terminate. */
module RequestReplyTheorems {
  import opened ReplyDesk
  import opened RequestReplyProtocol
  import opened Wrappers
  import P = Pipeline

  // Neither a request's two channels nor correlationComplete are closed twice.
  lemma ClosesAtMostOnce(capacity: nat, waits: bool, firstId: nat, actions: seq<Action>, t: State)
    requires Run(Init(capacity, waits, firstId), actions, t)
    ensures forall k :: 0 <= k < |t.desk.entries| ==> t.desk.entries[k].sent.closes <= 1 && t.desk.entries[k].result.closes <= 1
    ensures t.desk.completes <= 1
  {
    ReachableInv(capacity, waits, firstId, actions, t);
    forall k | 0 <= k < |t.desk.entries|
      ensures t.desk.entries[k].sent.closes <= 1 && t.desk.entries[k].result.closes <= 1
    {
      assert Sound(t.desk, k, t.final);
    }
  }

  // No step signals on a closed sentChan, closes a result channel again, or closes
  // requestCorrelateComplete again.
  lemma RunsNeverPanic(capacity: nat, waits: bool, firstId: nat, actions: seq<Action>, t: State, a: Action)
    requires Run(Init(capacity, waits, firstId), actions, t) && Enabled(t, a)
    ensures !Panics(t, a)
  {
    ReachableInv(capacity, waits, firstId, actions, t);
    match a
    case TaskSignal => FinalIsLate(t.pipe); SignalKeeps(t, t.taskOwes.value.0, t.taskOwes.value.1);
    case DrainSignal => SignalKeeps(t, t.drainOwes.value, false);
    case End(CloseAll) => CloseAllValid(t.desk);
    case End(Request) => RequestKeeps(t);
    case _ =>
  }

  // The request's publish has returned an error, or its handler (if it has one) has run.
  predicate Finished(e: Entry) {
    e.owner.Failed? || (e.owner.Returned? && (e.hasHandler ==> e.handled))
  }

  // If Terminate passes its wait because correlationComplete closed, every request that was in
  // the table when it closed requestCorrelateComplete is finished.
  lemma GracefulWait(capacity: nat, waits: bool, firstId: nat, actions: seq<Action>, t: State)
    requires Run(Init(capacity, waits, firstId), actions, t) && t.wait.woken
    ensures forall k :: k in t.wait.asked ==> k < |t.desk.entries| && Finished(t.desk.entries[k])
  {
    ReachableInv(capacity, waits, firstId, actions, t);
  }

  // While Terminate waits, an empty table means that it has been signalled: no wakeup is lost.
  lemma WakeupIsNotLost(capacity: nat, waits: bool, firstId: nat, actions: seq<Action>, t: State)
    requires Run(Init(capacity, waits, firstId), actions, t) && t.wait.pc == Asked && t.desk.table == map[]
    ensures t.desk.completes == 1 && Enabled(t, End(Wake))
  {
    ReachableInv(capacity, waits, firstId, actions, t);
  }

  // Each request gets at most one reply, its own, and its closure returns no other; a request is
  // in the table exactly until its publish has failed or its outcome has returned.
  lemma RepliesAreOwn(capacity: nat, waits: bool, firstId: nat, actions: seq<Action>, t: State, k: nat)
    requires Run(Init(capacity, waits, firstId), actions, t) && k < |t.desk.entries|
    ensures var e := t.desk.entries[k];
            && e.placed <= 1 && |e.result.items| <= e.placed
            && (forall i :: 0 <= i < |e.result.items| ==> e.result.items[i].id == e.id)
            && (Found(e.owner).Some? ==> Found(e.owner).value.id == e.id)
            && (e.id in t.desk.table <==> !e.owner.Failed? && !e.owner.Returned?)
  {
    ReachableInv(capacity, waits, firstId, actions, t);
    assert Sound(t.desk, k, t.final);
  }

  // A closure that took a reply, and so every reply that a caller gets, belongs to a request whose
  // message was sent natively.
  lemma RepliesAreToSentRequests(capacity: nat, waits: bool, firstId: nat, actions: seq<Action>, t: State, k: nat)
    requires Run(Init(capacity, waits, firstId), actions, t) && k < |t.desk.entries| && Found(t.desk.entries[k].owner).Some?
    ensures SentFor(t, k)
  {
    ReachableInv(capacity, waits, firstId, actions, t);
    assert Confirmed(t.desk.entries[k]);
  }

  // A reply touches only the request with its id, once, and its send finds the channel empty,
  // so nobody blocks under rxLock; a reply without such a request changes nothing.
  lemma ReplyGoesToItsRequest(capacity: nat, waits: bool, firstId: nat, actions: seq<Action>, t: State, r: Reply)
    requires Run(Init(capacity, waits, firstId), actions, t)
    ensures var u := Step(t, Arrive(r)).desk;
            && (r.id !in t.desk.table ==> u == t.desk)
            && |u.entries| == |t.desk.entries|
            && (forall k :: 0 <= k < |u.entries| && u.entries[k] != t.desk.entries[k] ==>
                  && u.entries[k].id == r.id && !t.desk.entries[k].received && u.entries[k].received
                  && t.desk.entries[k].result.items == [] && u.entries[k].owner == t.desk.entries[k].owner)
  {
    ReachableInv(capacity, waits, firstId, actions, t);
    ReplyValid(t.desk, r, t.final);
    forall k | 0 <= k < |t.desk.entries|
      ensures !t.desk.entries[k].received ==> t.desk.entries[k].result.items == []
    {
      assert Sound(t.desk, k, t.final);
    }
  }

  // Once a user's Terminate has returned, every closure that still waits can see that it is over.
  lemma NobodyIsStranded(capacity: nat, waits: bool, firstId: nat, actions: seq<Action>, t: State, c: nat)
    requires Run(Init(capacity, waits, firstId), actions, t) && t.pipe.term.pc.Gone? && !t.pipe.term.unsolicited
    requires HasRequest(t, c) && (t.desk.entries[t.refs[c]].owner == AwaitSent || t.desk.entries[t.refs[c]].owner == AwaitReply)
    ensures Enabled(t, Owner(c, SeeComplete))
  {
    ReachableInv(capacity, waits, firstId, actions, t);
  }
}
