/** What the failure listener of the direct publisher is told, in every run. */
module DirectTheorems {
  import opened DirectProtocol
  import opened Wrappers
  import F = PipelineFates
  import P = Pipeline

  // The drain of an unsolicited termination submits one event for each message that it takes, in
  // order, all of which the executor accepts; without a listener, and in a user's Terminate, it
  // submits none.
  lemma DrainEventsAreTheDrained(capacity: nat, waits: bool, listener: bool, actions: seq<Action>, t: State)
    requires Run(Init(capacity, waits, listener), actions, t)
    ensures Undelivereds(t.events) + OwedOf(t) == if DrainReports(t) then t.pipe.buffer.drained else []
    ensures t.pipe.term.pc.Hook3? || t.pipe.term.pc.Gone? ==> t.owed == None
    ensures t.pipe.term.pc.Gone? && DrainReports(t) ==> |Undelivereds(t.events)| == t.pipe.term.undelivered
  {
    ReachableInv(capacity, waits, listener, actions, t);
  }

  lemma {:induction false} ListenerStays(s: State, actions: seq<Action>, t: State)
    requires Run(s, actions, t)
    ensures t.listener == s.listener
    decreases |actions|
  {
    if actions != [] {
      hide P.Step;
      assert Step(s, actions[0]).listener == s.listener;
      ListenerStays(Step(s, actions[0]), actions[1..], t);
    }
  }

  // Without an unsolicited termination the listener is told of every failed send, once, in the
  // order of the sends, and of nothing else.
  lemma FailureEventsAreTheFailures(capacity: nat, waits: bool, actions: seq<Action>, t: State)
    requires Run(Init(capacity, waits, true), actions, t) && !t.pipe.term.unsolicited
    ensures Undelivereds(t.events) == [] && t.muted == []
    ensures SendFailures(t.events) + PendingOf(t.pipe.tasks.loop) == t.pipe.out.failures
    ensures t.pipe.term.pc.Gone? ==> SendFailures(t.events) == t.pipe.out.failures
  {
    ReachableInv(capacity, waits, true, actions, t);
    ListenerStays(Init(capacity, waits, true), actions, t);
    hide Run, F.Fates, P.Calls, P.Order, P.Submission, P.Tasks, P.Apart, P.Failed, Undelivereds, SendFailures;
  }

  // the unsolicited termination has returned and the Run loop has ended
  predicate Over(s: State) {
    s.pipe.term.pc.Gone? && s.pipe.term.unsolicited && s.pipe.tasks.loop.Finished?
  }

  // the listener hears once of each accepted message that was not sent, and of no other
  ghost predicate OneEventEach(s: State) {
    forall m :: 0 <= m < |s.pipe.front.pushed| ==> Told(s.events, m) == if m in s.pipe.out.wire then 0 else 1
  }

  // what is known of message m
  ghost predicate Settled(s: State, m: nat) {
    F.Fate(s.pipe, m) && FailureTold(s, m) && DrainTold(s, m)
  }

  // After an unsolicited termination the listener hears exactly once of each accepted message
  // that was not sent, and of no other, if and only if no task popped another's message, no event
  // came after the executor was closed, and no task that had sent found its message drained.
  lemma OneEventPerUnsentMessage(capacity: nat, waits: bool, actions: seq<Action>, t: State)
    requires Run(Init(capacity, waits, true), actions, t) && Over(t)
    ensures OneEventEach(t) <==>
              && t.pipe.out.stray.None? && t.muted == []
              && (forall m :: m in t.pipe.out.vain ==> m in t.pipe.out.failures)
  {
    ReachableInv(capacity, waits, true, actions, t);
    ListenerStays(Init(capacity, waits, true), actions, t);
    assert t.pipe.buffer.Removed() == |t.pipe.front.pushed| && t.pipe.tasks.dequeued <= |t.pipe.front.pushed|;
    assert forall m: nat :: Settled(t, m);
    hide Inv, Run, Settled, OneEventEach;
    if t.pipe.out.stray.Some? {
      StrayIsNeverTold(t);
    } else if t.muted != [] {
      MutedIsNeverTold(t, t.muted[0]);
    } else if m :| m in t.pipe.out.vain && m !in t.pipe.out.failures {
      SentIsTold(t, m);
    } else {
      OrderlyMeansOnce(t);
    }
  }

  // every message was removed, and the listener has nothing to come
  predicate AllGone(s: State) {
    && Over(s) && s.listener && s.owed == None
    && s.pipe.buffer.Removed() == |s.pipe.front.pushed| && s.pipe.tasks.dequeued <= |s.pipe.front.pushed|
  }

  // a message that another's task popped, whose own task has no result
  lemma StrayIsNeverTold(s: State)
    requires AllGone(s) && F.Strays(s.pipe) && s.pipe.out.stray.Some? && Settled(s, s.pipe.out.stray.value.1)
    ensures !OneEventEach(s)
  {
    var l := s.pipe.out.stray.value.1;
    assert l !in s.pipe.out.wire && Told(s.events, l) == 0;
  }

  // a failed message whose event the executor refused
  lemma MutedIsNeverTold(s: State, m: nat)
    requires AllGone(s) && Settled(s, m) && s.pipe.out.stray.None? && m in s.muted
    ensures !OneEventEach(s)
  {
    assert multiset(s.muted)[m] > 0;
    assert m !in s.pipe.out.wire && Told(s.events, m) == 0;
  }

  // a sent message that its task did not find in the buffer any more
  lemma SentIsTold(s: State, m: nat)
    requires AllGone(s) && Settled(s, m) && s.pipe.out.stray.None? && m in s.pipe.out.vain && m !in s.pipe.out.failures
    ensures !OneEventEach(s)
  {
    assert multiset(s.pipe.out.vain)[m] > 0;
    assert m in s.pipe.out.wire && Told(s.events, m) == 1;
  }

  lemma OrderlyMeansOnce(s: State)
    requires AllGone(s) && (forall m: nat :: Settled(s, m)) && s.pipe.out.stray.None? && s.muted == []
    requires forall m :: m in s.pipe.out.vain ==> m in s.pipe.out.failures
    ensures OneEventEach(s)
  {
    hide Settled;
    forall m | 0 <= m < |s.pipe.front.pushed|
      ensures Told(s.events, m) == if m in s.pipe.out.wire then 0 else 1
    {
      OrderlyIsTold(s, m);
    }
  }

  lemma OrderlyIsTold(s: State, m: nat)
    requires AllGone(s) && Settled(s, m) && s.pipe.out.stray.None? && s.muted == [] && m < |s.pipe.front.pushed|
    requires m in s.pipe.out.vain ==> m in s.pipe.out.failures
    ensures Told(s.events, m) == if m in s.pipe.out.wire then 0 else 1
  {
    var o := s.pipe.out;
    assert multiset(o.vain)[m] > 0 <==> m in o.vain;
    assert multiset(o.wire)[m] > 0 <==> m in o.wire;
    assert multiset(o.failures)[m] > 0 <==> m in o.failures;
  }
}
