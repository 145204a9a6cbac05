/** A concrete run of the direct publisher in which the failure listener hears of one message
    twice and of another never. */
module DirectRaces {
  import opened DirectProtocol
  import opened Wrappers
  import P = Pipeline
  import R = PipelineRaces
  import T = DirectTheorems

  function Start(): State {
    Init(R.CAPACITY, false, true)
  }

  ghost predicate Reachable(s: State) {
    exists actions :: Run(Start(), actions, s)
  }

  lemma {:induction false} RunThen(s: State, actions: seq<Action>, t: State, a: Action)
    requires Run(s, actions, t) && Enabled(t, a)
    ensures Run(s, actions + [a], Step(t, a))
    decreases |actions|
  {
    var longer := actions + [a];
    if actions == [] {
      assert longer[1..] == [];
    } else {
      assert longer[1..] == actions[1..] + [a];
      RunThen(Step(s, actions[0]), actions[1..], t, a);
    }
  }

  lemma Do(s: State, a: Action) returns (t: State)
    requires Reachable(s) && Enabled(s, a)
    ensures Reachable(t) && t == Step(s, a)
  {
    var actions :| Run(Start(), actions, s);
    RunThen(Start(), actions, s, a);
    t := Step(s, a);
  }

  // a step of the pipeline that submits no event and takes no message
  lemma Quietly(s: State, a: P.Action) returns (t: State)
    requires Reachable(s) && Enabled(s, Pipe(a)) && a != P.Task(P.Report) && !P.Drains(s.pipe, a)
    ensures Reachable(t) && t == s.(pipe := P.Step(s.pipe, a))
  {
    t := Do(s, Pipe(a));
  }

  // a run of the pipeline without events is one of the publisher
  lemma {:induction false} Lift(s: State, run: seq<P.Action>, q: P.State)
    requires Reachable(s) && P.Run(s.pipe, run, q) && R.Early(run)
    ensures Reachable(s.(pipe := q))
    decreases |run|
  {
    if run == [] {
      assert s.(pipe := q) == s;
    } else {
      var t := Quietly(s, run[0]);
      Lift(t, run[1..], q);
      assert t.(pipe := q) == s.(pipe := q);
    }
  }

  const BOTH := P.Buffer([0, 1], false, [], [])
  const FAILED := P.Outcomes([], [0], [], [], None, false)
  const STRAY := P.Outcomes([], [0], [], [], Some((0, 1)), false)
  const LAST := P.Buffer([], true, [1], [0])

  function FirstTask(stage: P.Stage): P.TaskBuffer {
    P.TaskBuffer([1], false, P.Busy(0, stage), 2, 1, 0, false)
  }

  function Down(pc: P.TermPC, undelivered: nat): P.Terminator {
    P.Terminator(if pc.Gone? then P.Terminated else P.Terminating, pc, true, false, undelivered,
                 P.Rank(pc) > 2, P.Rank(pc) > 3, P.Rank(pc) > 5, P.Rank(pc) > 6)
  }

  function Scene(buffer: P.Buffer, tasks: P.TaskBuffer, out: P.Outcomes, term: P.Terminator): State {
    Start().(pipe := P.Init(R.CAPACITY, false).(front := R.TWO_CALLS, buffer := buffer, tasks := tasks, out := out, term := term))
  }

  lemma FirstFailed() returns (t: State)
    ensures Reachable(t) && t == Scene(BOTH, FirstTask(P.Popping(true)), FAILED, P.Init(R.CAPACITY, false).term)
  {
    var run, q := R.FirstInSend();
    assert Run(Start(), [], Start());
    Lift(Start(), run, q);
    hide Reachable;
    t := Quietly(Start().(pipe := q), P.Task(P.NativeFail));
  }

  lemma ServiceLost() returns (t: State)
    ensures Reachable(t) && t == Scene(BOTH, FirstTask(P.Popping(true)), FAILED, Down(P.CloseInterrupt, 0))
  {
    hide Reachable;
    t := FirstFailed();
    t := Quietly(t, P.Term(P.Unsolicited));
    t := Quietly(t, P.Term(P.Next));
  }

  lemma WaitsInterrupted() returns (t: State)
    ensures Reachable(t) && t == Scene(BOTH, FirstTask(P.Popping(true)), FAILED, Down(P.CloseStopTask, 0))
  {
    hide Reachable;
    t := ServiceLost();
    t := Quietly(t, P.Term(P.Next));
    t := Quietly(t, P.Term(P.Next));
  }

  lemma BufferClosed() returns (t: State)
    ensures Reachable(t) && t == Scene(P.Buffer([0, 1], true, [], []), FirstTask(P.Popping(true)), FAILED, Down(P.Drain, 0))
  {
    hide Reachable;
    t := WaitsInterrupted();
    t := Quietly(t, P.Term(P.Next));
    t := Quietly(t, P.Term(P.Next));
    t := Quietly(t, P.Term(P.Next));
  }

  lemma FirstDrained() returns (t: State)
    ensures Reachable(t)
    ensures t == Scene(P.Buffer([1], true, [], [0]), FirstTask(P.Popping(true)), FAILED, Down(P.Drain, 1)).(events := [Undelivered(0)])
  {
    hide Reachable;
    t := BufferClosed();
    t := Do(t, Pipe(P.Term(P.Next)));
    assert t.owed == Some(0) && t.pipe.buffer == P.Buffer([1], true, [], [0]);
    t := Do(t, SubmitUndelivered);
  }

  lemma SecondPopped() returns (t: State)
    ensures Reachable(t)
    ensures t == Scene(LAST, FirstTask(P.Reporting), STRAY, Down(P.Drain, 1)).(events := [Undelivered(0)])
  {
    hide Reachable;
    t := FirstDrained();
    t := Quietly(t, P.Task(P.Pop));
    assert t.pipe.tasks == FirstTask(P.Popped(true, Some(1)));
    t := Quietly(t, P.Task(P.Settle));
  }

  const TWICE := [Undelivered(0), SendFailed(0)]

  lemma FirstReported() returns (t: State)
    ensures Reachable(t) && t == Scene(LAST, FirstTask(P.Ending), STRAY, Down(P.Drain, 1)).(events := TWICE)
  {
    hide Reachable;
    t := SecondPopped();
    t := Do(t, Pipe(P.Task(P.Report)));
    assert t.events == TWICE;
  }

  lemma LoopOver() returns (t: State)
    ensures Reachable(t)
    ensures t == Scene(LAST, P.TaskBuffer([1], true, P.Finished, 2, 1, 0, false), STRAY, Down(P.Drain, 1)).(events := TWICE)
  {
    hide Reachable;
    t := FirstReported();
    t := Quietly(t, P.Task(P.Return));
    t := Quietly(t, P.Loop(P.Advance));
    t := Quietly(t, P.Loop(P.Advance));
  }

  // The drain reports message 0 while its task is about to report it too; that task pops message
  // 1, which nobody sends and nobody reports.
  lemma ReportedTwiceAndNever() returns (t: State)
    ensures Reachable(t) && T.Over(t) && |t.pipe.front.pushed| == 2 && t.pipe.out.wire == []
    ensures t.events == [Undelivered(0), SendFailed(0)] && Told(t.events, 0) == 2 && Told(t.events, 1) == 0
    ensures t.pipe.out.stray == Some((0, 1)) && t.muted == []
  {
    hide Reachable;
    t := LoopOver();
    t := Quietly(t, P.Term(P.Next));
    t := Do(t, CloseExecutor);
    t := Quietly(t, P.Term(P.Next));
    assert t.events == TWICE;
  }
}
