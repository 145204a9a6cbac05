/** Concrete runs of the persistent publisher in which a context is resolved twice or not at all. */
module PersistentRaces {
  import opened PersistentProtocol
  import opened Wrappers
  import P = Pipeline
  import T = PersistentTheorems

  function Start(): State {
    Init(2, false)
  }

  lemma {:induction false} RunThen(s: State, actions: seq<Action>, t: State, a: Action)
    requires Run(s, actions, t) && Enabled(t, a)
    ensures Run(s, actions + [a], Step(t, a))
    decreases |actions|
  {
    var longer := actions + [a];
    if actions == [] {
      assert longer[1..] == [];
    } else {
      assert longer[1..] == actions[1..] + [a];
      RunThen(Step(s, actions[0]), actions[1..], t, a);
    }
  }

  ghost predicate Reachable(s: State) {
    exists actions :: Run(Start(), actions, s)
  }

  lemma Do(s: State, a: Action) returns (t: State)
    requires Reachable(s) && Enabled(s, a)
    ensures Reachable(t) && t == Step(s, a)
  {
    var actions :| Run(Start(), actions, s);
    RunThen(Start(), actions, s, a);
    t := Step(s, a);
  }

  // a step of the pipeline that has no effect on contexts
  lemma Quietly(s: State, a: P.Action) returns (t: State)
    requires Reachable(s) && PipeEnabled(s, a) && !P.HasEffect(s.pipe, a)
    ensures Reachable(t) && t == s.(pipe := P.Step(s.pipe, a))
  {
    t := Do(s, Pipe(a));
  }

  // a step of the part that deals with acknowledgements
  lemma Finally(s: State, op: EndOp) returns (t: State)
    requires Reachable(s) && EndEnabled(s, op)
    ensures Reachable(t) && t == EndStep(s, op)
  {
    t := Do(s, End(op));
  }

  const CALLED := P.Front([P.Accepted(0)], None, [0])

  // a call enters and finds the publisher started
  lemma Enter(s: State, c: nat) returns (t: State)
    requires Reachable(s) && s.pipe.term.life == P.Started && s.pipe.front.lock == None
    requires |s.pipe.front.calls| == c && c !in s.ids.of
    ensures Reachable(t)
    ensures t == s.(ids := TagStep(s, c).ids,
                    pipe := s.pipe.(front := P.Front(s.pipe.front.calls + [P.Checked], None, s.pipe.front.pushed)))
  {
    t := Quietly(s, P.Enter);
    t := Do(t, Tag(c));
    t := Quietly(t, P.Call(c, P.Check));
  }

  lemma Push(s: State, c: nat) returns (t: State)
    requires Reachable(s) && s.pipe.term.life == P.Started && s.pipe.front.lock == None && !s.pipe.buffer.closed
    requires |s.pipe.front.calls| == c && c !in s.ids.of && |s.pipe.buffer.items| < s.pipe.capacity
    ensures Reachable(t)
    ensures var m := |s.pipe.front.pushed|;
            t == s.(ids := TagStep(s, c).ids,
                    pipe := s.pipe.(front := P.Front(s.pipe.front.calls + [P.Pushed(m)], Some(c), s.pipe.front.pushed + [c]),
                                    buffer := s.pipe.buffer.(items := s.pipe.buffer.items + [m])))
  {
    t := Enter(s, c);
    t := Quietly(t, P.Call(c, P.Lock));
    t := Quietly(t, P.Call(c, P.Push));
  }

  lemma Publish(s: State, c: nat) returns (t: State)
    requires Reachable(s) && s.pipe.term.life == P.Started && s.pipe.front.lock == None && !s.pipe.buffer.closed
    requires |s.pipe.front.calls| == c && c !in s.ids.of && |s.pipe.buffer.items| < s.pipe.capacity
    requires !s.pipe.tasks.complete && |s.pipe.tasks.queue| < s.pipe.capacity
    ensures Reachable(t)
    ensures var m := |s.pipe.front.pushed|;
            t == s.(ids := TagStep(s, c).ids,
                    pipe := s.pipe.(front := P.Front(s.pipe.front.calls + [P.Accepted(m)], None, s.pipe.front.pushed + [c]),
                                    buffer := s.pipe.buffer.(items := s.pipe.buffer.items + [m]),
                                    tasks := s.pipe.tasks.Enqueue(m)))
  {
    t := Push(s, c);
    t := Quietly(t, P.Call(c, P.Probe));
    t := Quietly(t, P.Call(c, P.Submit));
  }

  lemma OneAccepted() returns (t: State)
    ensures Reachable(t)
    ensures t == Start().(ids := Ids([0], map[0 := 1]),
                          pipe := P.Init(2, false).(front := CALLED, buffer := P.Buffer([0], false, [], []),
                                                    tasks := P.TaskBuffer([0], false, P.Top, 1, 0, 0, false)))
  {
    assert Run(Start(), [], Start());
    t := Publish(Start(), 0);
    assert t.ids == Ids([0], map[0 := 1]);
  }

  // ----- an acknowledgement overlaps drainAckTable

  function InTask(loop: P.LoopPC): P.State {
    P.Init(2, false).(front := CALLED, buffer := P.Buffer([0], false, [], []), tasks := P.TaskBuffer([], false, loop, 1, 1, 0, false))
  }

  lemma Offered() returns (t: State)
    ensures Reachable(t) && t == Start().(ids := Ids([0], map[0 := 1]), pipe := InTask(P.Busy(0, P.Starting)))
  {
    hide Reachable;
    t := OneAccepted();
    t := Quietly(t, P.Loop(P.Advance));
    t := Quietly(t, P.Loop(P.Advance));
    t := Quietly(t, P.Loop(P.Take));
    assert t.pipe == InTask(P.Offering(0));
    t := Quietly(t, P.Loop(P.Hand));
  }

  // its task has begun and sent
  lemma Sent() returns (t: State)
    ensures Reachable(t)
    ensures t == Later(InTask(P.Busy(0, P.Popping(false))).(out := P.Outcomes([0], [], [], [], None, false)))
  {
    hide Reachable;
    t := Offered();
    t := Do(t, Pipe(P.Task(P.Begin)));
    assert t.table == map[1 := 0] && t.pipe == InTask(P.Busy(0, P.Sending));
    t := Quietly(t, P.Task(P.NativeOk));
  }

  // the pipeline once the task is done, with the terminator here and the Run loop there
  function Idle(pc: P.TermPC, loop: P.LoopPC, closed: bool): P.State {
    P.Init(2, false).(
      front := CALLED, buffer := P.Buffer([], closed, [0], []), tasks := P.TaskBuffer([], loop.Finished?, loop, 1, 1, 0, false),
      out := P.Outcomes([0], [], [], [], None, false),
      term := P.Terminator(P.Terminating, pc, false, true, 0, true, true, false, false))
  }

  function Later(pipe: P.State): State {
    Start().(ids := Ids([0], map[0 := 1]), table := map[1 := 0], pipe := pipe)
  }

  function Done(loop: P.LoopPC): P.State {
    Idle(P.AwaitDrain, loop, false).(term := P.Init(2, false).term)
  }

  lemma OwnPop() returns (t: State)
    ensures Reachable(t) && t == Later(Done(P.Busy(0, P.Popped(false, Some(0)))))
  {
    hide Reachable;
    t := Sent();
    t := Do(t, Pipe(P.Task(P.Pop)));
    assert t.ledger == Start().ledger && t.pipe.buffer == P.Buffer([], false, [0], []);
  }

  lemma Ending() returns (t: State)
    ensures Reachable(t) && t == Later(Done(P.Busy(0, P.Ending)))
  {
    hide Reachable;
    t := OwnPop();
    t := Quietly(t, P.Task(P.Settle));
  }

  lemma TaskOver() returns (t: State)
    ensures Reachable(t) && t == Later(Done(P.Top))
  {
    hide Reachable;
    t := Ending();
    t := Quietly(t, P.Task(P.Return));
  }

  lemma Terminating() returns (t: State)
    ensures Reachable(t) && t == Later(Idle(P.AwaitDrain, P.Top, false))
  {
    hide Reachable;
    t := TaskOver();
    t := Quietly(t, P.Term(P.Terminate(true)));
    t := Quietly(t, P.Term(P.Next));
    assert t.pipe.term == P.Terminator(P.Terminating, P.CloseInterrupt, false, true, 0, false, false, false, false);
    t := Quietly(t, P.Term(P.Next));
    t := Quietly(t, P.Term(P.Next));
  }

  lemma Drained() returns (t: State)
    ensures Reachable(t) && t == Later(Idle(P.Hook2, P.Finished, false))
  {
    hide Reachable;
    t := Terminating();
    t := Quietly(t, P.Loop(P.Advance));
    t := Quietly(t, P.Loop(P.Advance));
    t := Quietly(t, P.Loop(P.Advance));
    assert t == Later(Idle(P.AwaitDrain, P.Finished, false));
    t := Quietly(t, P.Term(P.Next));
  }

  const TIMED_OUT := Wait(Passed, true, 0, map[1 := 0], false)

  // the acknowledgement is looked up, then the grace period ends
  lemma Overlapping() returns (t: State)
    ensures Reachable(t)
    ensures t == Later(Idle(P.Hook2, P.Finished, false)).(ack := Found(1, 0), ackOn := false, wait := TIMED_OUT)
  {
    hide Reachable;
    t := Drained();
    t := Finally(t, Request);
    assert t.wait == Wait(Asked, true, 0, map[1 := 0], false);
    t := Do(t, Ack(Dispatch(0)));
    t := Do(t, Ack(Lookup));
    assert t.ack == Found(1, 0);
    t := Finally(t, TimeOut);
    t := Finally(t, RemoveHandler);
  }

  lemma BufferClosed() returns (t: State)
    ensures Reachable(t)
    ensures t == Later(Idle(P.Hook3, P.Finished, true)).(ack := Found(1, 0), ackOn := false, wait := TIMED_OUT)
  {
    hide Reachable;
    t := Overlapping();
    t := Quietly(t, P.Term(P.Next));
    assert t.pipe == Idle(P.CloseBuffer, P.Finished, false);
    t := Quietly(t, P.Term(P.Next));
    assert t.pipe == Idle(P.Drain, P.Finished, true);
    t := Quietly(t, P.Term(P.Next));
    assert t.pipe == Idle(P.Hook3, P.Finished, true);
  }

  const CLEARED := Start().ledger.(cleared := multiset{0}, racing := true)

  lemma TableCleared() returns (t: State)
    ensures Reachable(t)
    ensures t == Later(Idle(P.Hook3, P.Finished, true)).(
                   table := map[], swept := true, unackedCount := 1, ack := Found(1, 0), ackOn := false, wait := TIMED_OUT,
                   ledger := CLEARED)
  {
    hide Reachable;
    t := BufferClosed();
    t := Finally(t, LockTable);
    assert t.ledger == Start().ledger.(racing := true);
    t := Finally(t, Clear(1));
    assert t.table == map[] && t.ledger == CLEARED;
    t := Finally(t, UnlockTable);
  }

  lemma ResolvedAgain() returns (t: State)
    ensures Reachable(t) && t.pipe == Idle(P.Hook3, P.Finished, true) && t.swept && !t.locked
    ensures t.ack == Waiting && t.unackedCount == 1
    ensures t.ledger == CLEARED.(acked := multiset{0}, overlapped := multiset{0})
  {
    hide Reachable;
    t := TableCleared();
    t := Do(t, Ack(Resolve));
    assert t.ledger == CLEARED.(acked := multiset{0});
    t := Do(t, Ack(Remove));
  }

  // Terminate has counted the message as unacknowledged and resolved its context, and the
  // acknowledgement resolves it again.
  lemma AcknowledgedAndUnacknowledged() returns (t: State)
    ensures Reachable(t) && T.AtRest(t)
    ensures Count(t.ledger, 0) == 2 && t.unackedCount == 1 && !T.ExactlyOnce(t)
  {
    hide Reachable;
    t := ResolvedAgain();
    t := Quietly(t, P.Term(P.Next));
    assert t.pipe.front == CALLED && t.pipe.term.pc == P.Gone;
  }

  // ----- two accepted calls

  function Scene(buffer: P.Buffer, tasks: P.TaskBuffer, out: P.Outcomes, term: P.Terminator): P.State {
    P.Init(2, false).(front := P.Front([P.Accepted(0), P.Accepted(1)], None, [0, 1]),
                      buffer := buffer, tasks := tasks, out := out, term := term)
  }

  function Two(table: map<nat, nat>, pipe: P.State): State {
    Start().(ids := Ids([0, 1], map[0 := 1, 1 := 2]), table := table, pipe := pipe)
  }

  const BOTH := P.Buffer([0, 1], false, [], [])
  const NONE_YET := P.Outcomes([], [], [], [], None, false)
  const STARTED := P.Terminator(P.Started, P.Idle, false, false, 0, false, false, false, false)

  function FirstTask(stage: P.Stage): P.TaskBuffer {
    P.TaskBuffer([1], false, P.Busy(0, stage), 2, 1, 0, false)
  }

  lemma TwoAccepted() returns (t: State)
    ensures Reachable(t) && t == Two(map[], Scene(BOTH, P.TaskBuffer([0, 1], false, P.Top, 2, 0, 0, false), NONE_YET, STARTED))
  {
    hide Reachable;
    t := OneAccepted();
    t := Publish(t, 1);
    assert t.ids == Ids([0, 1], map[0 := 1, 1 := 2]);
  }

  lemma FirstHanded() returns (t: State)
    ensures Reachable(t) && t == Two(map[], Scene(BOTH, FirstTask(P.Starting), NONE_YET, STARTED))
  {
    hide Reachable;
    t := TwoAccepted();
    t := Quietly(t, P.Loop(P.Advance));
    t := Quietly(t, P.Loop(P.Advance));
    t := Quietly(t, P.Loop(P.Take));
    t := Quietly(t, P.Loop(P.Hand));
  }

  // the first task calls the native send
  lemma FirstSending() returns (t: State)
    ensures Reachable(t) && t == Two(map[1 := 0], Scene(BOTH, FirstTask(P.Sending), NONE_YET, STARTED))
  {
    hide Reachable;
    t := FirstHanded();
    t := Do(t, Pipe(P.Task(P.Begin)));
    assert t.table == map[1 := 0];
  }

  // ----- an unsolicited termination resolves one context twice and the other not at all

  const FAILED_ONE := P.Outcomes([], [0], [], [], None, false)

  function Unsolicited(pc: P.TermPC, undelivered: nat): P.Terminator {
    P.Terminator(if pc.Gone? then P.Terminated else P.Terminating, pc, true, false, undelivered,
                 P.Rank(pc) > 2, P.Rank(pc) > 3, P.Rank(pc) > 5, P.Rank(pc) > 6)
  }

  lemma FailedAndDown() returns (t: State)
    ensures Reachable(t)
    ensures t == Two(map[1 := 0], Scene(BOTH, FirstTask(P.Popping(true)), FAILED_ONE, Unsolicited(P.Hook1, 0))).(ackOn := false)
  {
    hide Reachable;
    t := FirstSending();
    t := Quietly(t, P.Task(P.NativeFail));
    t := Quietly(t, P.Term(P.Unsolicited));
    t := Finally(t, RemoveHandler);
  }

  lemma SignalsClosed() returns (t: State)
    ensures Reachable(t)
    ensures t == Two(map[1 := 0], Scene(BOTH, FirstTask(P.Popping(true)), FAILED_ONE, Unsolicited(P.CloseUngraceful, 0))).(ackOn := false)
  {
    hide Reachable;
    t := FailedAndDown();
    t := Quietly(t, P.Term(P.Next));
    t := Quietly(t, P.Term(P.Next));
    assert t.pipe.term == Unsolicited(P.CloseGraceful, 0);
    t := Quietly(t, P.Term(P.Next));
    t := Quietly(t, P.Term(P.Next));
  }

  lemma BufferShut() returns (t: State)
    ensures Reachable(t)
    ensures t == Two(map[1 := 0], Scene(P.Buffer([0, 1], true, [], []), FirstTask(P.Popping(true)), FAILED_ONE,
                                        Unsolicited(P.Drain, 0))).(ackOn := false)
  {
    hide Reachable;
    t := SignalsClosed();
    t := Quietly(t, P.Term(P.Next));
    t := Quietly(t, P.Term(P.Next));
  }

  function Missed(table: map<nat, nat>, buffer: P.Buffer, tasks: P.TaskBuffer, pc: P.TermPC, ledger: Ledger): State {
    Two(table, Scene(buffer, tasks, P.Outcomes([], [0], [], [], Some((0, 1)), false), Unsolicited(pc, 1))).(
      ackOn := false, ledger := ledger)
  }

  // drainQueue has returned the first message, and its own task takes the second
  const RETURNED := Start().ledger.(returned := multiset{0})
  const MISSED := RETURNED.(doubled := multiset{0}, lost := multiset{1})

  lemma FirstReturned() returns (t: State)
    ensures Reachable(t)
    ensures t == Two(map[1 := 0], Scene(P.Buffer([1], true, [], [0]), FirstTask(P.Popping(true)), FAILED_ONE,
                                        Unsolicited(P.Drain, 1))).(ackOn := false, ledger := RETURNED)
  {
    hide Reachable;
    t := BufferShut();
    t := Do(t, Pipe(P.Term(P.Next)));
    assert t.ledger == RETURNED;
  }

  lemma SecondPopped() returns (t: State)
    ensures Reachable(t)
    ensures t == Missed(map[1 := 0], P.Buffer([], true, [1], [0]), FirstTask(P.Popped(true, Some(1))), P.Drain, MISSED)
  {
    hide Reachable;
    t := FirstReturned();
    t := Do(t, Pipe(P.Task(P.Pop)));
    assert t.ledger == MISSED;
  }

  lemma EntryForgotten() returns (t: State)
    ensures Reachable(t)
    ensures t == Missed(map[], P.Buffer([], true, [1], [0]), FirstTask(P.Reporting), P.Drain, MISSED)
  {
    hide Reachable;
    t := SecondPopped();
    t := Do(t, Pipe(P.Task(P.Settle)));
    assert t.table == map[];
  }

  lemma FirstReported() returns (t: State)
    ensures Reachable(t)
    ensures t == Missed(map[], P.Buffer([], true, [1], [0]), FirstTask(P.Ending), P.Drain, MISSED.(failed := multiset{0}))
  {
    hide Reachable;
    t := EntryForgotten();
    t := Do(t, Pipe(P.Task(P.Report)));
    assert t.ledger == MISSED.(failed := multiset{0});
  }

  const OVER := P.TaskBuffer([1], true, P.Finished, 2, 1, 0, false)

  lemma Leaving() returns (t: State)
    ensures Reachable(t)
    ensures t == Missed(map[], P.Buffer([], true, [1], [0]), P.TaskBuffer([1], false, P.Leaving, 2, 1, 0, false), P.Drain,
                        MISSED.(failed := multiset{0}))
  {
    hide Reachable;
    t := FirstReported();
    t := Quietly(t, P.Task(P.Return));
    t := Quietly(t, P.Loop(P.Advance));
  }

  lemma LoopLeft() returns (t: State)
    ensures Reachable(t)
    ensures t == Missed(map[], P.Buffer([], true, [1], [0]), OVER, P.Hook3, MISSED.(failed := multiset{0}))
  {
    hide Reachable;
    t := Leaving();
    t := Quietly(t, P.Loop(P.Advance));
    t := Quietly(t, P.Term(P.Next));
  }

  lemma TableSwept() returns (t: State)
    ensures Reachable(t)
    ensures t == Missed(map[], P.Buffer([], true, [1], [0]), OVER, P.Hook3, MISSED.(failed := multiset{0})).(swept := true)
  {
    hide Reachable;
    t := LoopLeft();
    t := Finally(t, LockTable);
    assert t.locked && t.ledger == MISSED.(failed := multiset{0});
    t := Finally(t, UnlockTable);
  }

  // TerminateNow does not wait for the task in hand: the first context is resolved by drainQueue
  // and again by its own task, and the accepted second message is gone without a word.
  lemma ResolvedTwiceAndNever() returns (t: State)
    ensures Reachable(t) && T.Over(t) && t.pipe.term.unsolicited && |t.pipe.front.pushed| == 2 && t.table == map[]
    ensures Count(t.ledger, 0) == 2 && Count(t.ledger, 1) == 0
    ensures t.pipe.out.wire == [] && t.pipe.term.undelivered == 1 && t.unackedCount == 0
    ensures t.pipe.out.stray == Some((0, 1)) && !t.ledger.racing
  {
    hide Reachable;
    t := TableSwept();
    t := Quietly(t, P.Term(P.Next));
  }

  // ----- a user's Terminate with a task that pops after another was interrupted

  // the grace period is over
  function TimedOut(pc: P.TermPC, undelivered: nat): P.Terminator {
    P.Terminator(if pc.Gone? then P.Terminated else P.Terminating, pc, false, true, undelivered,
                 P.Rank(pc) > 2, P.Rank(pc) > 3, P.Rank(pc) > 5, P.Rank(pc) > 6)
  }

  lemma FirstBlocked() returns (t: State)
    ensures Reachable(t) && t == Two(map[1 := 0], Scene(BOTH, FirstTask(P.Blocked), NONE_YET, TimedOut(P.Hook1, 0)))
  {
    hide Reachable;
    t := FirstSending();
    t := Quietly(t, P.Task(P.WouldBlock));
    t := Quietly(t, P.Term(P.Terminate(true)));
  }

  lemma GracePeriod() returns (t: State)
    ensures Reachable(t) && t == Two(map[1 := 0], Scene(BOTH, FirstTask(P.Blocked), NONE_YET, TimedOut(P.AwaitDrain, 0)))
  {
    hide Reachable;
    t := FirstBlocked();
    t := Quietly(t, P.Term(P.Next));
    t := Quietly(t, P.Term(P.Next));
    t := Quietly(t, P.Term(P.Next));
  }

  lemma GraceOver() returns (t: State)
    ensures Reachable(t) && t == Two(map[1 := 0], Scene(BOTH, FirstTask(P.Blocked), NONE_YET, TimedOut(P.CloseUngraceful, 0)))
  {
    hide Reachable;
    t := GracePeriod();
    t := Quietly(t, P.Term(P.Timer));
    t := Quietly(t, P.Term(P.Next));
  }

  const INTERRUPTED := P.Outcomes([], [], [0], [], None, false)

  lemma FirstInterrupted() returns (t: State)
    ensures Reachable(t) && t == Two(map[], Scene(BOTH, FirstTask(P.Ending), INTERRUPTED, TimedOut(P.CloseUngraceful, 0)))
  {
    hide Reachable;
    t := GraceOver();
    t := Do(t, Pipe(P.Task(P.Interrupt)));
    assert t.table == map[];
  }

  function SecondTask(stage: P.Stage): P.TaskBuffer {
    P.TaskBuffer([], false, P.Busy(1, stage), 2, 2, 0, false)
  }

  lemma SecondTaken() returns (t: State)
    ensures Reachable(t)
    ensures t == Two(map[], Scene(BOTH, P.TaskBuffer([], false, P.Offering(1), 2, 2, 0, false), INTERRUPTED, TimedOut(P.CloseUngraceful, 0)))
  {
    hide Reachable;
    t := FirstInterrupted();
    t := Quietly(t, P.Task(P.Return));
    t := Quietly(t, P.Loop(P.Advance));
    t := Quietly(t, P.Loop(P.Advance));
    t := Quietly(t, P.Loop(P.Take));
  }

  lemma SecondSent() returns (t: State)
    ensures Reachable(t)
    ensures t == Two(map[2 := 1], Scene(BOTH, SecondTask(P.Popping(false)), INTERRUPTED.(wire := [1]), TimedOut(P.CloseUngraceful, 0)))
  {
    hide Reachable;
    t := SecondTaken();
    t := Quietly(t, P.Loop(P.Hand));
    t := Do(t, Pipe(P.Task(P.Begin)));
    assert t.table == map[2 := 1];
    t := Quietly(t, P.Task(P.NativeOk));
  }

  const LATE := Start().ledger.(doubled := multiset{1}, lost := multiset{0})

  function Late(table: map<nat, nat>, buffer: P.Buffer, tasks: P.TaskBuffer, term: P.Terminator, ledger: Ledger): State {
    Two(table, Scene(buffer, tasks, P.Outcomes([1], [], [0], [], Some((1, 0)), true), term)).(ledger := ledger)
  }

  lemma FirstPopped() returns (t: State)
    ensures Reachable(t)
    ensures t == Late(map[2 := 1], P.Buffer([1], false, [0], []), SecondTask(P.Popped(false, Some(0))), TimedOut(P.CloseUngraceful, 0), LATE)
  {
    hide Reachable;
    t := SecondSent();
    t := Do(t, Pipe(P.Task(P.Pop)));
    assert t.ledger == LATE;
  }

  const ENDED := P.TaskBuffer([], true, P.Finished, 2, 2, 0, false)

  lemma SecondEnding() returns (t: State)
    ensures Reachable(t)
    ensures t == Late(map[2 := 1], P.Buffer([1], false, [0], []), SecondTask(P.Ending), TimedOut(P.CloseUngraceful, 0), LATE)
  {
    hide Reachable;
    t := FirstPopped();
    t := Quietly(t, P.Task(P.Settle));
  }

  lemma SecondReturned() returns (t: State)
    ensures Reachable(t)
    ensures t == Late(map[2 := 1], P.Buffer([1], false, [0], []), P.TaskBuffer([], false, P.Top, 2, 2, 0, false),
                      TimedOut(P.AwaitComplete, 0), LATE)
  {
    hide Reachable;
    t := SecondEnding();
    t := Quietly(t, P.Task(P.Return));
    t := Quietly(t, P.Term(P.Next));
  }

  lemma LoopEnded() returns (t: State)
    ensures Reachable(t)
    ensures t == Late(map[2 := 1], P.Buffer([1], false, [0], []), ENDED, TimedOut(P.Hook2, 0), LATE)
  {
    hide Reachable;
    t := SecondReturned();
    t := Quietly(t, P.Loop(P.Advance));
    t := Quietly(t, P.Loop(P.Advance));
    t := Quietly(t, P.Term(P.Next));
  }

  const SKIPPED := Wait(Passed, false, 0, map[], false)

  lemma HandlerGone() returns (t: State)
    ensures Reachable(t)
    ensures t == Late(map[2 := 1], P.Buffer([1], false, [0], []), ENDED, TimedOut(P.Hook2, 0), LATE).(wait := SKIPPED, ackOn := false)
  {
    hide Reachable;
    t := LoopEnded();
    t := Finally(t, SkipWait);
    t := Finally(t, RemoveHandler);
    assert t.wait == SKIPPED;
  }

  lemma BufferShutToo() returns (t: State)
    ensures Reachable(t)
    ensures t == Late(map[2 := 1], P.Buffer([1], true, [0], []), ENDED, TimedOut(P.Drain, 0), LATE).(wait := SKIPPED, ackOn := false)
  {
    hide Reachable;
    t := HandlerGone();
    t := Quietly(t, P.Term(P.Next));
    assert t.pipe.term == TimedOut(P.CloseBuffer, 0);
    t := Quietly(t, P.Term(P.Next));
  }

  lemma SecondDrained() returns (t: State)
    ensures Reachable(t)
    ensures t == Late(map[2 := 1], P.Buffer([], true, [0], [1]), ENDED, TimedOut(P.Drain, 1), LATE.(returned := multiset{1})).(
                   wait := SKIPPED, ackOn := false)
  {
    hide Reachable;
    t := BufferShutToo();
    t := Do(t, Pipe(P.Term(P.Next)));
    assert t.ledger == LATE.(returned := multiset{1});
  }

  lemma SecondReturnedToo() returns (t: State)
    ensures Reachable(t)
    ensures t == Late(map[2 := 1], P.Buffer([], true, [0], [1]), ENDED, TimedOut(P.Hook3, 1), LATE.(returned := multiset{1})).(
                   wait := SKIPPED, ackOn := false)
  {
    hide Reachable;
    t := SecondDrained();
    t := Quietly(t, P.Term(P.Next));
  }

  const ASTRAY := LATE.(returned := multiset{1}, cleared := multiset{1})

  lemma EntryCleared() returns (t: State)
    ensures Reachable(t)
    ensures t == Late(map[], P.Buffer([], true, [0], [1]), ENDED, TimedOut(P.Hook3, 1), ASTRAY).(
                   wait := SKIPPED, ackOn := false, swept := true, unackedCount := 1)
  {
    hide Reachable;
    t := SecondReturnedToo();
    t := Finally(t, LockTable);
    assert t.locked && t.ledger == LATE.(returned := multiset{1});
    t := Finally(t, Clear(2));
    assert t.table == map[] && t.ledger == ASTRAY;
    t := Finally(t, UnlockTable);
  }

  // A whole run of Terminate: the interrupted first message is lost, and the second, which was
  // sent, is counted both as undelivered and as unacknowledged.
  lemma LostAndCountedTwice() returns (t: State)
    ensures Reachable(t) && T.AtRest(t) && |t.pipe.front.pushed| == 2
    ensures Count(t.ledger, 0) == 0 && Count(t.ledger, 1) == 2
    ensures t.pipe.out.late && !t.ledger.racing && T.Incomplete(t) == Some((1, 1))
  {
    hide Reachable;
    t := EntryCleared();
    t := Quietly(t, P.Term(P.Next));
  }
}
