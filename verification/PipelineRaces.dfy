/** Concrete runs of the publish path that leave the orderly picture. */
module PipelineRaces {
  import opened Pipeline
  import opened Wrappers

  const CAPACITY: nat := 2

  function Start(): State {
    Init(CAPACITY, false)
  }

  lemma Do(run: seq<Action>, s: State, a: Action) returns (longer: seq<Action>, t: State)
    requires Run(Start(), run, s) && Enabled(s, a)
    ensures Run(Start(), longer, t) && t == Step(s, a) && longer == run + [a]
  {
    RunThen(Start(), run, s, a);
    longer, t := run + [a], Step(s, a);
  }

  // nothing has been reported, and nobody terminates
  predicate Early(run: seq<Action>) {
    forall i :: 0 <= i < |run| ==> !run[i].Term? && run[i] != Task(Report)
  }

  // a call enters and pushes its message
  lemma Push(run: seq<Action>, s: State, c: nat) returns (longer: seq<Action>, t: State)
    requires Run(Start(), run, s) && s.term.life == Started && s.front.lock == None && !s.buffer.closed
    requires |s.front.calls| == c && |s.buffer.items| < s.capacity
    ensures Run(Start(), longer, t)
    ensures var m := |s.front.pushed|;
            t == s.(front := Front(s.front.calls + [Pushed(m)], Some(c), s.front.pushed + [c]),
                    buffer := s.buffer.(items := s.buffer.items + [m]))
    ensures Early(run) ==> Early(longer)
  {
    longer, t := Do(run, s, Enter);
    longer, t := Do(longer, t, Call(c, Check));
    longer, t := Do(longer, t, Call(c, Lock));
    longer, t := Do(longer, t, Call(c, CallOp.Push));
  }

  lemma Publish(run: seq<Action>, s: State, c: nat) returns (longer: seq<Action>, t: State)
    requires Run(Start(), run, s) && s.term.life == Started && s.front.lock == None && !s.buffer.closed && !s.tasks.complete
    requires |s.front.calls| == c && |s.buffer.items| < s.capacity && |s.tasks.queue| < s.capacity
    ensures Run(Start(), longer, t)
    ensures var m := |s.front.pushed|;
            t == s.(front := Front(s.front.calls + [Accepted(m)], None, s.front.pushed + [c]),
                    buffer := s.buffer.(items := s.buffer.items + [m]), tasks := s.tasks.Enqueue(m))
    ensures Early(run) ==> Early(longer)
  {
    hide Run;
    longer, t := Push(run, s, c);
    longer, t := Do(longer, t, Call(c, Probe));
    longer, t := Do(longer, t, Call(c, Submit));
  }

  const TWO_CALLS := Front([Accepted(0), Accepted(1)], None, [0, 1])

  // the Run loop has handed over the first of two tasks, which calls the native send
  lemma FirstInSend() returns (run: seq<Action>, t: State)
    ensures Run(Start(), run, t)
    ensures t == Start().(front := TWO_CALLS, buffer := Buffer([0, 1], false, [], []),
                          tasks := TaskBuffer([1], false, Busy(0, Sending), 2, 1, 0, false))
    ensures Early(run)
  {
    run, t := Publish([], Start(), 0);
    run, t := Publish(run, t, 1);
    run, t := Do(run, t, Loop(Advance));
    run, t := Do(run, t, Loop(Advance));
    run, t := Do(run, t, Loop(Take));
    run, t := Do(run, t, Loop(Hand));
    run, t := Do(run, t, Task(Begin));
  }

  lemma CloseTwoSignals(run: seq<Action>, s: State, u: bool) returns (longer: seq<Action>, t: State)
    requires Run(Start(), run, s) && s.term == Terminator(Terminating, Hook1, u, !u, 0, false, false, false, false)
    ensures Run(Start(), longer, t)
    ensures t == s.(term := Terminator(Terminating, if u then CloseStopTask else AwaitDrain, u, !u, 0, true, true, false, false))
  {
    hide Run;
    longer, t := Do(run, s, Term(Next));
    longer, t := Do(longer, t, Term(Next));
    assert t == s.(term := Terminator(Terminating, CloseGraceful, u, !u, 0, true, false, false, false));
    longer, t := Do(longer, t, Term(Next));
  }

  // the terminator begins and closes its first two signals
  lemma Claim(run: seq<Action>, s: State, op: TermOp) returns (longer: seq<Action>, t: State)
    requires Run(Start(), run, s) && (op == Terminate(true) || op == Unsolicited)
    requires s.term == Start().term
    ensures Run(Start(), longer, t)
    ensures t == s.(term := Terminator(Terminating, if op.Unsolicited? then CloseStopTask else AwaitDrain,
                                       op.Unsolicited?, !op.Unsolicited?, 0, true, true, false, false))
  {
    hide Run;
    longer, t := Do(run, s, Term(op));
    longer, t := CloseTwoSignals(longer, t, op.Unsolicited?);
  }

  // the first task waits for the transport when the grace period ends
  lemma FirstBlocked() returns (run: seq<Action>, t: State)
    ensures Run(Start(), run, t)
    ensures t == Start().(front := TWO_CALLS, buffer := Buffer([0, 1], false, [], []),
                          tasks := TaskBuffer([1], false, Busy(0, Blocked), 2, 1, 0, false),
                          term := Terminator(Terminating, CloseStopTask, false, true, 0, true, true, false, false))
  {
    hide Run;
    run, t := FirstInSend();
    run, t := Do(run, t, Task(WouldBlock));
    run, t := Claim(run, t, Terminate(true));
    run, t := Do(run, t, Term(Timer));
  }

  lemma FirstInterrupted() returns (run: seq<Action>, t: State)
    ensures Run(Start(), run, t)
    ensures t == Start().(front := TWO_CALLS, buffer := Buffer([0, 1], false, [], []),
                          tasks := TaskBuffer([1], false, Top, 2, 1, 0, false), out := Outcomes([], [], [0], [], None, false),
                          term := Terminator(Terminating, CloseUngraceful, false, true, 0, true, true, true, false))
  {
    hide Run;
    run, t := FirstBlocked();
    run, t := Do(run, t, Term(Next));
    run, t := Do(run, t, Task(Interrupt));
    run, t := Do(run, t, Task(Return));
  }

  // Terminate closes the task signal before the ungraceful signal. In between, the Run loop can
  // start the next task.
  lemma SecondStarting() returns (run: seq<Action>, t: State)
    ensures Run(Start(), run, t)
    ensures t == Start().(front := TWO_CALLS, buffer := Buffer([0, 1], false, [], []),
                          tasks := TaskBuffer([], false, Busy(1, Starting), 2, 2, 0, false), out := Outcomes([], [], [0], [], None, false),
                          term := Terminator(Terminating, CloseUngraceful, false, true, 0, true, true, true, false))
  {
    hide Run;
    run, t := FirstInterrupted();
    run, t := Do(run, t, Loop(Advance));
    run, t := Do(run, t, Loop(Advance));
    run, t := Do(run, t, Loop(Take));
    run, t := Do(run, t, Loop(Hand));
  }

  // The next task then pops the message of the interrupted one.
  lemma NextTaskPopsInterruptedMessage() returns (run: seq<Action>, t: State)
    ensures Run(Start(), run, t)
    ensures t.out.interrupted == [0] && t.out.wire == [1]
    ensures t.tasks.loop == Busy(1, Popping(false)) && t.buffer.items == [0, 1]
    ensures t == SecondSent()
  {
    hide Run;
    run, t := SecondStarting();
    run, t := Do(run, t, Task(Begin));
    run, t := Do(run, t, Task(NativeOk));
  }

  function SecondSent(): State {
    Start().(front := TWO_CALLS, buffer := Buffer([0, 1], false, [], []),
             tasks := TaskBuffer([], false, Busy(1, Popping(false)), 2, 2, 0, false), out := Outcomes([1], [], [0], [], None, false),
             term := Terminator(Terminating, CloseUngraceful, false, true, 0, true, true, true, false))
  }

  // what the run of a user's Terminate continues with: the first task was interrupted, the second
  // has sent and popped the first one's message
  function Misaligned(buffer: Buffer, tasks: TaskBuffer, term: Terminator): State {
    Start().(front := TWO_CALLS, buffer := buffer, tasks := tasks, term := term,
             out := Outcomes([1], [], [0], [], Some((1, 0)), true))
  }

  // the end of a user's Terminate whose grace period was over
  function TimedOut(pc: TermPC, undelivered: nat): Terminator {
    Terminator(if pc.Gone? then Terminated else Terminating, pc, false, true, undelivered, true, true, true, pc.AwaitComplete? || Rank(pc) > 7)
  }

  lemma InterruptedMessagePopped() returns (run: seq<Action>, t: State)
    ensures Run(Start(), run, t)
    ensures t == Misaligned(Buffer([1], false, [0], []), TaskBuffer([], false, Busy(1, Popped(false, Some(0))), 2, 2, 0, false),
                            TimedOut(CloseUngraceful, 0))
  {
    hide Run;
    run, t := NextTaskPopsInterruptedMessage();
    run, t := Do(run, t, Task(Pop));
  }

  lemma LoopOver() returns (run: seq<Action>, t: State)
    ensures Run(Start(), run, t)
    ensures t == Misaligned(Buffer([1], false, [0], []), TaskBuffer([], true, Finished, 2, 2, 0, false), TimedOut(AwaitComplete, 0))
  {
    hide Run;
    run, t := InterruptedMessagePopped();
    run, t := Do(run, t, Task(Settle));
    run, t := Do(run, t, Task(Return));
    run, t := Do(run, t, Term(Next));
    assert t == Misaligned(Buffer([1], false, [0], []), TaskBuffer([], false, Top, 2, 2, 0, false), TimedOut(AwaitComplete, 0));
    run, t := Do(run, t, Loop(Advance));
    run, t := Do(run, t, Loop(Advance));
  }

  lemma BufferClosed() returns (run: seq<Action>, t: State)
    ensures Run(Start(), run, t)
    ensures t == Misaligned(Buffer([1], true, [0], []), TaskBuffer([], true, Finished, 2, 2, 0, false), TimedOut(Drain, 0))
  {
    hide Run;
    run, t := LoopOver();
    run, t := Do(run, t, Term(Next));
    run, t := Do(run, t, Term(Next));
    assert t.term == TimedOut(CloseBuffer, 0);
    run, t := Do(run, t, Term(Next));
  }

  lemma Drained() returns (run: seq<Action>, t: State)
    ensures Run(Start(), run, t)
    ensures t == Misaligned(Buffer([], true, [0], [1]), TaskBuffer([], true, Finished, 2, 2, 0, false), TimedOut(Drain, 1))
  {
    hide Run;
    run, t := BufferClosed();
    run, t := Do(run, t, Term(Next));
  }

  // A whole run of a user's Terminate: the counts balance, but message 0 is lost, and message 1 is
  // sent and counted as undelivered.
  lemma LostAndSentUndelivered() returns (run: seq<Action>, t: State)
    ensures Run(Start(), run, t) && t.term.pc.Gone? && !t.term.unsolicited && t.tasks.loop.Finished?
    ensures |t.front.pushed| == 2 && t.out.wire == [1] && t.out.failures == [] && t.buffer.drained == [1] && t.term.undelivered == 1
    ensures t.out.late && t.out.stray == Some((1, 0))
  {
    hide Run;
    run, t := Drained();
    run, t := Do(run, t, Term(Next));
    run, t := Do(run, t, Term(Next));
  }

  // the first task has sent when an unsolicited termination begins
  lemma SentAndClaimed() returns (run: seq<Action>, t: State)
    ensures Run(Start(), run, t)
    ensures t == Start().(front := TWO_CALLS, buffer := Buffer([0, 1], false, [], []), out := Outcomes([0], [], [], [], None, false),
                          tasks := TaskBuffer([1], false, Busy(0, Popping(false)), 2, 1, 0, false),
                          term := Terminator(Terminating, CloseStopTask, true, false, 0, true, true, false, false))
  {
    hide Run;
    run, t := FirstInSend();
    run, t := Do(run, t, Task(NativeOk));
    run, t := Claim(run, t, Unsolicited);
  }

  lemma ReadyToDrain() returns (run: seq<Action>, t: State)
    ensures Run(Start(), run, t)
    ensures t == Start().(front := TWO_CALLS, buffer := Buffer([0, 1], false, [], []), out := Outcomes([0], [], [], [], None, false),
                          tasks := TaskBuffer([1], false, Busy(0, Popping(false)), 2, 1, 0, false),
                          term := Terminator(Terminating, CloseBuffer, true, false, 0, true, true, true, true))
  {
    hide Run;
    run, t := SentAndClaimed();
    run, t := Do(run, t, Term(Next));
    run, t := Do(run, t, Term(Next));
  }

  // TerminateNow does not wait for the task in hand: a message that was sent natively is drained
  // and reported as undelivered, and its own task will pop the message of another.
  lemma SentMessageReportedUndelivered() returns (run: seq<Action>, t: State)
    ensures Run(Start(), run, t)
    ensures t.out.wire == [0] && t.buffer.drained == [0]
    ensures t.tasks.loop == Busy(0, Popping(false)) && t.buffer.items == [1]
  {
    hide Run;
    run, t := ReadyToDrain();
    run, t := Do(run, t, Term(Next));
    run, t := Do(run, t, Term(Next));
  }
}
