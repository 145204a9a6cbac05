/** What holds in every run of the publish path. */
module PipelineTheorems {
  import opened Pipeline
  import opened Wrappers
  import F = PipelineFates

  // the message of the task in hand, as long as that task has not popped
  function InHand(q: TaskBuffer): seq<nat> {
    if Unpopped(q.loop) == 1 && (q.loop.Offering? || q.loop.Busy?) then [q.loop.msg] else []
  }

  function Stretch(from: nat, to: nat): seq<nat> {
    if from < to then seq(to - from, k requires k >= 0 => from + k) else []
  }

  // Until the terminator drains it, the message buffer holds one stranded message per
  // interrupted (or withdrawn) task, then the message of the task in hand, then those of the
  // queued tasks in order, then those whose Submit was rejected or is still to come.
  lemma BufferAndTasksAlign(capacity: nat, waits: bool, actions: seq<Action>, t: State)
    requires Run(Init(capacity, waits), actions, t) && t.buffer.drained == []
    ensures var stranded := |t.out.interrupted| + t.tasks.dropped;
            && stranded <= |t.buffer.items|
            && t.buffer.items[stranded..] == InHand(t.tasks) + t.tasks.queue + Stretch(t.tasks.submitted, |t.front.pushed|)
  {
    ReachableInv(capacity, waits, actions, t);
    hide Run, Calls, Apart, Failed, Phases, Tasks;
    assert |InHand(t.tasks)| == Unpopped(t.tasks.loop);
  }

  // A task that is about to pop finds a message before any drain; what it finds is its own
  // message exactly when as many messages were drained as tasks were interrupted before it.
  lemma TaskPopsItsOwnMessage(capacity: nat, waits: bool, actions: seq<Action>, t: State)
    requires Run(Init(capacity, waits), actions, t) && t.tasks.loop.Busy? && t.tasks.loop.stage.Popping?
    ensures t.buffer.drained == [] ==> t.buffer.items != []
    ensures t.buffer.items != [] ==>
              (t.buffer.items[0] == t.tasks.loop.msg <==> |t.buffer.drained| == |t.out.interrupted|)
  {
    ReachableInv(capacity, waits, actions, t);
  }

  // No task is interrupted, so every pop is a task's own, unless the task signal was closed or
  // the service went down.
  lemma InterruptionNeedsCause(capacity: nat, waits: bool, actions: seq<Action>, t: State)
    requires Run(Init(capacity, waits), actions, t) && t.out.interrupted != []
    ensures t.down || (t.term.stopTask && (t.term.timed || t.term.unsolicited))
  {
    ReachableInv(capacity, waits, actions, t);
  }

  // Until the drain, the task of every message that got into the message buffer has room.
  lemma TaskBufferHasRoom(capacity: nat, waits: bool, actions: seq<Action>, t: State, c: nat)
    requires Run(Init(capacity, waits), actions, t) && c < |t.front.calls| && t.front.calls[c].Submitting?
    requires t.buffer.drained == []
    ensures |t.tasks.queue| < t.capacity && Step(t, Call(c, Submit)).front.calls[c].Accepted?
    ensures Step(t, Call(c, Submit)).tasks.queue == t.tasks.queue + [t.front.calls[c].msg]
  {
    ReachableInv(capacity, waits, actions, t);
    NeverFullBeforeDrain(t, c);
  }

  // Submit is refused only after the Run loop ended or after the drain began.
  lemma RefusedTaskNeedsShutdown(capacity: nat, waits: bool, actions: seq<Action>, t: State)
    requires Run(Init(capacity, waits), actions, t) && t.front.lock == None && t.tasks.submitted < |t.front.pushed|
    ensures t.tasks.complete || t.buffer.drained != []
  {
    ReachableInv(capacity, waits, actions, t);
  }

  // Successful native sends happen in push order, each message at most once, whatever the
  // number of retries.
  lemma SendsFollowPushOrder(capacity: nat, waits: bool, actions: seq<Action>, t: State)
    requires Run(Init(capacity, waits), actions, t)
    ensures forall k, m :: 0 <= k < m < |t.out.wire| ==> t.out.wire[k] < t.out.wire[m]
    ensures forall k :: 0 <= k < |t.out.wire| ==> t.out.wire[k] < |t.front.pushed|
  {
    ReachableInv(capacity, waits, actions, t);
  }

  // the publish calls that returned nil
  function AcceptedCalls(f: Front): set<nat> {
    set c: nat | c < |f.calls| && f.calls[c].Accepted?
  }

  function Elements(xs: seq<nat>): set<nat> {
    set x | x in xs
  }

  lemma {:induction false} DistinctElements(xs: seq<nat>)
    requires forall i, j :: 0 <= i < j < |xs| ==> xs[i] != xs[j]
    ensures |Elements(xs)| == |xs|
  {
    if xs == [] {
      assert Elements(xs) == {};
    } else {
      var init, last := xs[..|xs| - 1], xs[|xs| - 1];
      assert forall i, j :: 0 <= i < j < |init| ==> init[i] == xs[i] != xs[j] == init[j];
      DistinctElements(init);
      assert xs == init + [last];
      assert last !in Elements(init) && Elements(xs) == Elements(init) + {last};
    }
  }

  lemma AcceptedAreThePushed(f: Front)
    requires Calls(f) && f.lock == None
    ensures |AcceptedCalls(f)| == |f.pushed|
  {
    forall i, j | 0 <= i < j < |f.pushed|
      ensures f.pushed[i] != f.pushed[j]
    {
      assert f.calls[f.pushed[i]].msg == i && f.calls[f.pushed[j]].msg == j;
    }
    DistinctElements(f.pushed);
    assert AcceptedCalls(f) == Elements(f.pushed);
  }

  // every pushed message was sent, failed to send, or counted as undelivered, and only one of these
  ghost predicate EachOnce(s: State) {
    forall m :: 0 <= m < |s.front.pushed| ==> F.Done(s.out, m) + multiset(s.buffer.drained)[m] == 1
  }

  // Once the terminator is gone and the Run loop has ended, each message is accounted for once if
  // and only if every task that popped found its own message. After a user's Terminate this means
  // that no task popped after another was interrupted.
  lemma EachMessageOnce(capacity: nat, waits: bool, actions: seq<Action>, t: State)
    requires Run(Init(capacity, waits), actions, t) && t.term.pc.Gone? && (t.term.unsolicited ==> t.tasks.loop.Finished?)
    ensures EachOnce(t) <==> t.out.stray.None? && t.out.vain == []
    ensures !t.term.unsolicited ==> (EachOnce(t) <==> !t.out.late)
  {
    F.ReachableFates(capacity, waits, actions, t);
    assert t.buffer.Removed() == |t.front.pushed| && t.tasks.dequeued <= |t.front.pushed| && t.tasks.loop.Finished?;
    hide Inv, Run;
    if t.out.stray.Some? {
      assert F.Fate(t, t.out.stray.value.1);
    } else if t.out.vain != [] {
      assert F.Fate(t, t.out.vain[0]);
    } else {
      forall m | 0 <= m < |t.front.pushed|
        ensures F.Done(t.out, m) + multiset(t.buffer.drained)[m] == 1
      {
        assert F.Fate(t, m);
      }
    }
  }

  // Terminate within its grace period, while the service is up, accounts for each message once.
  lemma GracefulDelivery(capacity: nat, waits: bool, actions: seq<Action>, t: State)
    requires Run(Init(capacity, waits), actions, t) && t.term.pc.Gone?
    requires !t.term.unsolicited && !t.term.stopTask && !t.down
    ensures t.out.interrupted == [] && EachOnce(t)
  {
    F.ReachableFates(capacity, waits, actions, t);
    EachMessageOnce(capacity, waits, actions, t);
  }

  // The counts: every pushed message, and so every accepted call, is accounted for, up to the one
  // task of an unsolicited termination that may find the buffer drained.
  lemma DeliveryAccounting(capacity: nat, waits: bool, actions: seq<Action>, t: State)
    requires Run(Init(capacity, waits), actions, t) && t.term.pc.Gone?
    ensures |t.out.vain| <= 1 && (!t.term.unsolicited ==> t.tasks.loop.Finished? && t.out.vain == [])
    ensures t.tasks.loop.Finished? ==>
              |t.front.pushed| + |t.out.vain| == |t.out.wire| + |t.out.failures| + t.term.undelivered
    ensures t.front.lock == None ==> |AcceptedCalls(t.front)| == |t.front.pushed|
  {
    F.ReachableFates(capacity, waits, actions, t);
    if t.front.lock == None { AcceptedAreThePushed(t.front); }
  }

  // A publish call that returned nil owns exactly one message, and every message has one call.
  lemma AcceptedCallsOwnMessages(capacity: nat, waits: bool, actions: seq<Action>, t: State)
    requires Run(Init(capacity, waits), actions, t)
    ensures forall c :: 0 <= c < |t.front.calls| && t.front.calls[c].Accepted? ==>
              t.front.calls[c].msg < |t.front.pushed| && t.front.pushed[t.front.calls[c].msg] == c
    ensures t.front.lock == None ==> forall m :: 0 <= m < |t.front.pushed| ==>
              t.front.pushed[m] < |t.front.calls| && t.front.calls[t.front.pushed[m]] == Accepted(m)
  {
    ReachableInv(capacity, waits, actions, t);
  }

  // No signal and no channel is closed twice.
  lemma ClosesOnce(capacity: nat, waits: bool, actions: seq<Action>, t: State)
    requires Run(Init(capacity, waits), actions, t)
    ensures t.term.pc.CloseInterrupt? ==> !t.term.interrupt
    ensures t.term.pc.CloseGraceful? ==> !t.term.graceful
    ensures t.term.pc.CloseStopTask? ==> !t.term.stopTask
    ensures t.term.pc.CloseUngraceful? ==> !t.term.ungraceful
    ensures t.term.pc.CloseBuffer? ==> !t.buffer.closed
    ensures t.tasks.loop.Leaving? || t.tasks.loop.TakeOrStop? ==> !t.tasks.complete
  {
    ReachableInv(capacity, waits, actions, t);
  }

  // When Terminate of the task buffer has returned, its Run loop is over; TerminateNow gives
  // no such promise.
  lemma TerminateEndsTheLoop(capacity: nat, waits: bool, actions: seq<Action>, t: State)
    requires Run(Init(capacity, waits), actions, t) && !t.term.unsolicited && Rank(t.term.pc) > 7
    ensures t.tasks.loop.Finished? && t.tasks.complete
  {
    ReachableInv(capacity, waits, actions, t);
  }
}
