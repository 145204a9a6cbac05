/** A concrete run of the request/reply publisher in which an unsolicited termination strands an
    accepted request. */
module RequestReplyRaces {
  import opened ReplyDesk
  import opened RequestReplyProtocol
  import opened Wrappers
  import P = Pipeline
  import S = RequestReplyStranded

  function Start(): State {
    Init(2, false, 0)
  }

  ghost predicate Reachable(s: State) {
    exists actions :: Run(Start(), actions, s)
  }

  lemma {:induction false} RunThen(s: State, actions: seq<Action>, t: State, a: Action)
    requires Run(s, actions, t) && Enabled(t, a)
    ensures Run(s, actions + [a], Step(t, a))
    decreases |actions|
  {
    var longer := actions + [a];
    if actions == [] {
      assert longer[1..] == [];
    } else {
      assert longer[1..] == actions[1..] + [a];
      RunThen(Step(s, actions[0]), actions[1..], t, a);
    }
  }

  lemma Do(s: State, a: Action) returns (t: State)
    requires Reachable(s) && Enabled(s, a)
    ensures Reachable(t) && t == Step(s, a)
  {
    var actions :| Run(Start(), actions, s);
    RunThen(Start(), actions, s, a);
    t := Step(s, a);
  }

  // a step of the pipeline after which no signal is due
  lemma Quietly(s: State, a: P.Action) returns (t: State)
    requires Reachable(s) && PipeEnabled(s, a) && !(a.Task? && Ends(a.task)) && !P.Drains(s.pipe, a)
    ensures Reachable(t) && t == s.(pipe := P.Step(s.pipe, a))
  {
    t := Do(s, Pipe(a));
  }

  // ----- two accepted requests

  const NEW := Entry(0, false, true, Chan([], 0), Chan([], 0), false, 0, false, Publishing)

  lemma Enter(s: State, c: nat) returns (t: State)
    requires Reachable(s) && s.pipe.term.life == P.Started && s.pipe.front.lock == None
    requires |s.pipe.front.calls| == c && c !in s.refs
    ensures Reachable(t)
    ensures t == s.(desk := s.desk.Create(false, true), refs := s.refs[c := |s.desk.entries|],
                    pipe := s.pipe.(front := P.Front(s.pipe.front.calls + [P.Checked], None, s.pipe.front.pushed)))
  {
    t := Quietly(s, P.Enter);
    t := Quietly(t, P.Call(c, P.Check));
    t := Do(t, Create(c, false, true));
  }

  lemma Push(s: State, c: nat) returns (t: State)
    requires Reachable(s) && s.pipe.term.life == P.Started && s.pipe.front.lock == None && !s.pipe.buffer.closed
    requires |s.pipe.front.calls| == c && c !in s.refs && |s.pipe.buffer.items| < s.pipe.capacity
    ensures Reachable(t)
    ensures var m := |s.pipe.front.pushed|;
            t == s.(desk := s.desk.Create(false, true), refs := s.refs[c := |s.desk.entries|],
                    pipe := s.pipe.(front := P.Front(s.pipe.front.calls + [P.Pushed(m)], Some(c), s.pipe.front.pushed + [c]),
                                    buffer := s.pipe.buffer.(items := s.pipe.buffer.items + [m])))
  {
    hide Reachable;
    t := Enter(s, c);
    t := Quietly(t, P.Call(c, P.Lock));
    t := Quietly(t, P.Call(c, P.Push));
  }

  lemma Publish(s: State, c: nat) returns (t: State)
    requires Reachable(s) && s.pipe.term.life == P.Started && s.pipe.front.lock == None && !s.pipe.buffer.closed
    requires |s.pipe.front.calls| == c && c !in s.refs && |s.pipe.buffer.items| < s.pipe.capacity
    requires !s.pipe.tasks.complete && |s.pipe.tasks.queue| < s.pipe.capacity
    ensures Reachable(t)
    ensures var m := |s.pipe.front.pushed|;
            t == s.(desk := s.desk.Create(false, true), refs := s.refs[c := |s.desk.entries|],
                    pipe := s.pipe.(front := P.Front(s.pipe.front.calls + [P.Accepted(m)], None, s.pipe.front.pushed + [c]),
                                    buffer := s.pipe.buffer.(items := s.pipe.buffer.items + [m]),
                                    tasks := s.pipe.tasks.Enqueue(m)))
  {
    hide Reachable;
    t := Push(s, c);
    t := Quietly(t, P.Call(c, P.Probe));
    t := Quietly(t, P.Call(c, P.Submit));
  }

  const BOTH := P.Buffer([0, 1], false, [], [])
  const FAILED := P.Outcomes([], [0], [], [], None, false)
  const STRAY := P.Outcomes([], [0], [], [], Some((0, 1)), false)
  const LAST := P.Buffer([], true, [1], [0])
  const STARTED := P.Init(2, false).term

  function FirstTask(stage: P.Stage): P.TaskBuffer {
    P.TaskBuffer([1], false, P.Busy(0, stage), 2, 1, 0, false)
  }

  function Down(pc: P.TermPC, undelivered: nat): P.Terminator {
    P.Terminator(if pc.Gone? then P.Terminated else P.Terminating, pc, true, false, undelivered,
                 P.Rank(pc) > 2, P.Rank(pc) > 3, P.Rank(pc) > 5, P.Rank(pc) > 6)
  }

  // the second request waits for its signal; the first one is here
  function Scene(first: Entry, buffer: P.Buffer, tasks: P.TaskBuffer, out: P.Outcomes, term: P.Terminator): State {
    Start().(desk := Desk([first, NEW.(id := 1, owner := AwaitSent)], map[0 := 0, 1 := 1], 2, false, 0),
             refs := map[0 := 0, 1 := 1],
             pipe := P.Init(2, false).(front := P.Front([P.Accepted(0), P.Accepted(1)], None, [0, 1]),
                                       buffer := buffer, tasks := tasks, out := out, term := term))
  }

  lemma OneAccepted() returns (t: State)
    ensures Reachable(t)
    ensures t == Start().(desk := Desk([NEW], map[0 := 0], 1, false, 0), refs := map[0 := 0],
                          pipe := P.Init(2, false).(front := P.Front([P.Accepted(0)], None, [0]),
                                                    buffer := P.Buffer([0], false, [], []),
                                                    tasks := P.TaskBuffer([0], false, P.Top, 1, 0, 0, false)))
  {
    assert Run(Start(), [], Start());
    t := Publish(Start(), 0);
    assert t.desk == Desk([NEW], map[0 := 0], 1, false, 0);
  }

  lemma TwoAccepted() returns (t: State)
    ensures Reachable(t)
    ensures t == Scene(NEW, BOTH, P.TaskBuffer([0, 1], false, P.Top, 2, 0, 0, false), P.Init(2, false).out, STARTED).(
                   desk := Desk([NEW, NEW.(id := 1)], map[0 := 0, 1 := 1], 2, false, 0))
  {
    hide Reachable;
    t := OneAccepted();
    t := Publish(t, 1);
    assert t.desk.entries == [NEW, NEW.(id := 1)];
  }

  // both closures wait for their signals
  lemma TwoWaiting() returns (t: State)
    ensures Reachable(t)
    ensures t == Scene(NEW.(owner := AwaitSent), BOTH, P.TaskBuffer([0, 1], false, P.Top, 2, 0, 0, false), P.Init(2, false).out, STARTED)
  {
    hide Reachable;
    t := TwoAccepted();
    t := Do(t, Owner(0, Accept));
    assert t.desk.entries == [NEW.(owner := AwaitSent), NEW.(id := 1)];
    t := Do(t, Owner(1, Accept));
    assert t.desk.entries == [NEW.(owner := AwaitSent), NEW.(id := 1, owner := AwaitSent)];
  }

  lemma FirstHanded() returns (t: State)
    ensures Reachable(t)
    ensures t == Scene(NEW.(owner := AwaitSent), BOTH, FirstTask(P.Starting), P.Init(2, false).out, STARTED)
  {
    hide Reachable;
    t := TwoWaiting();
    t := Quietly(t, P.Loop(P.Advance));
    t := Quietly(t, P.Loop(P.Advance));
    t := Quietly(t, P.Loop(P.Take));
    t := Quietly(t, P.Loop(P.Hand));
  }

  // the first request fails to be sent, and its closure hears of it
  const REFUSED := NEW.(owner := Dispatch(None))

  lemma FirstFailed() returns (t: State)
    ensures Reachable(t)
    ensures t == Scene(NEW.(owner := AwaitSent), BOTH, FirstTask(P.Popping(true)), FAILED, STARTED).(taskOwes := Some((0, false)))
  {
    hide Reachable;
    t := FirstHanded();
    t := Quietly(t, P.Task(P.Begin));
    t := Do(t, Pipe(P.Task(P.NativeFail)));
  }

  lemma FirstTold() returns (t: State)
    ensures Reachable(t) && t == Scene(REFUSED, BOTH, FirstTask(P.Popping(true)), FAILED, STARTED)
  {
    hide Reachable;
    t := FirstFailed();
    t := Do(t, TaskSignal);
    assert t.desk.entries[0] == NEW.(owner := AwaitSent, sent := Chan([false], 0));
    t := Do(t, Owner(0, TakeSent));
    assert t.desk.entries[0] == REFUSED;
  }

  lemma ServiceLost() returns (t: State)
    ensures Reachable(t) && t == Scene(REFUSED, BOTH, FirstTask(P.Popping(true)), FAILED, Down(P.CloseGraceful, 0))
  {
    hide Reachable;
    t := FirstTold();
    t := Quietly(t, P.Term(P.Unsolicited));
    t := Quietly(t, P.Term(P.Next));
    t := Quietly(t, P.Term(P.Next));
  }

  lemma SignalsClosed() returns (t: State)
    ensures Reachable(t) && t == Scene(REFUSED, BOTH, FirstTask(P.Popping(true)), FAILED, Down(P.CloseBuffer, 0))
  {
    hide Reachable;
    t := ServiceLost();
    t := Quietly(t, P.Term(P.Next));
    t := Quietly(t, P.Term(P.Next));
    t := Quietly(t, P.Term(P.Next));
  }

  const DROPPED := REFUSED.(sent := Chan([false], 0))

  lemma FirstDrained() returns (t: State)
    ensures Reachable(t)
    ensures t == Scene(DROPPED, P.Buffer([1], true, [], [0]), FirstTask(P.Popping(true)), FAILED, Down(P.Drain, 1))
  {
    hide Reachable;
    t := SignalsClosed();
    t := Quietly(t, P.Term(P.Next));
    t := Do(t, Pipe(P.Term(P.Next)));
    assert t.drainOwes == Some(0);
    t := Do(t, DrainSignal);
    assert t.desk.entries[0] == DROPPED;
  }

  lemma SecondPopped() returns (t: State)
    ensures Reachable(t) && t == Scene(DROPPED, LAST, FirstTask(P.Reporting), STRAY, Down(P.Drain, 1))
  {
    hide Reachable;
    t := FirstDrained();
    t := Quietly(t, P.Task(P.Pop));
    t := Quietly(t, P.Task(P.Settle));
  }

  lemma LoopLeft() returns (t: State)
    ensures Reachable(t)
    ensures t == Scene(DROPPED, LAST, P.TaskBuffer([1], false, P.Leaving, 2, 1, 0, false), STRAY, Down(P.Drain, 1))
  {
    hide Reachable;
    t := SecondPopped();
    t := Quietly(t, P.Task(P.Report));
    t := Quietly(t, P.Task(P.Return));
    t := Quietly(t, P.Loop(P.Advance));
  }

  // The task of the first request popped the message of the second one, which is then neither sent
  // nor drained. Its closure waits for a signal that nobody will send, with a timeout that does not
  // cover this wait.
  lemma RequestStranded() returns (t: State)
    ensures Reachable(t) && S.Over(t) && S.Waiting(t, 1) && !S.CanProceed(t, 1)
    ensures t.pipe.front.calls[1] == P.Accepted(1)
    ensures var e := t.desk.entries[t.refs[1]]; e.timed && e.owner == AwaitSent
    ensures t.pipe.out.stray == Some((0, 1))
  {
    hide Reachable;
    t := LoopLeft();
    t := Quietly(t, P.Loop(P.Advance));
    t := Quietly(t, P.Term(P.Next));
    t := Quietly(t, P.Term(P.Next));
  }
}
