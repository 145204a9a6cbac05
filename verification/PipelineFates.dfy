/** What becomes of each message: who removed it from the buffer, and whether its own task was done
    with it. The first task that pops another's message loses that message for good. */
module PipelineFates {
  import opened Pipeline
  import opened Wrappers

  // how often the send of m had a final native result
  function Done(o: Outcomes, m: nat): nat {
    multiset(o.wire)[m] + multiset(o.failures)[m]
  }

  // the send of the task in hand has its result, and the task has not popped yet
  predicate AboutToPop(pc: LoopPC, m: nat) {
    pc.Busy? && pc.stage.Popping? && pc.msg == m
  }

  // a message that has left the buffer was popped or drained, once
  ghost predicate Removal(b: Buffer, m: nat) {
    multiset(b.taken)[m] + multiset(b.drained)[m] == Flag(m < b.Removed())
  }

  // a send has at most one final result, which its task has before it pops
  ghost predicate Result(o: Outcomes, q: TaskBuffer, m: nat) {
    && Done(o, m) <= 1 && (Done(o, m) > 0 ==> m + Undecided(q.loop) < q.dequeued)
    && (AboutToPop(q.loop, m) ==> Done(o, m) == 1 && (q.loop.stage.failed || m in o.wire))
  }

  // as long as each pop is a task's own
  ghost predicate Completion(s: State, m: nat) {
    s.out.stray.None? ==>
      Done(s.out, m) == multiset(s.buffer.taken)[m] + multiset(s.out.vain)[m] + Flag(AboutToPop(s.tasks.loop, m))
  }

  ghost predicate Fate(s: State, m: nat) {
    Removal(s.buffer, m) && Result(s.out, s.tasks, m) && Completion(s, m)
  }

  // the Run loop will not let another task get as far as its pop
  predicate NoMore(s: State) {
    var pc := s.tasks.loop;
    s.term.ungraceful
    && (pc.Top? || pc.Leaving? || pc.Finished? || (pc.Busy? && (pc.stage.Popped? || pc.stage.Reporting? || pc.stage.Ending?)))
  }

  // Task d popped message l, whose own task has no result and will have none: it was passed over,
  // or will not begin any more.
  ghost predicate Strays(s: State) {
    s.out.stray.Some? ==>
      var (d, l) := s.out.stray.value;
      && d != l && d < s.tasks.dequeued && multiset(s.buffer.taken)[l] > 0 && Done(s.out, l) == 0
      && (l < d || (NoMore(s) && (s.tasks.loop.Busy? ==> s.tasks.loop.msg == d)))
  }

  ghost predicate Ends(s: State) {
    && |s.out.vain| <= 1 && (s.out.vain != [] ==> NoMore(s))
    && (!s.term.unsolicited ==> s.out.vain == [] && (s.out.late <==> s.out.stray.Some?))
    && (s.out.late ==> s.out.interrupted != [])
  }

  ghost predicate Fates(s: State) {
    (forall m: nat :: Fate(s, m)) && Strays(s) && Ends(s)
  }

  lemma InitFates(capacity: nat, waits: bool)
    ensures Fates(Init(capacity, waits))
  {
  }

  // ----- every step keeps it

  // a step of the Run loop, a call or the terminator that pops and drains nothing
  ghost predicate Still(s: State, t: State) {
    && t.buffer.taken == s.buffer.taken && t.buffer.drained == s.buffer.drained && t.out == s.out
    && s.tasks.dequeued - Undecided(s.tasks.loop) <= t.tasks.dequeued - Undecided(t.tasks.loop)
    && s.tasks.dequeued <= t.tasks.dequeued
    && (NoMore(s) ==> NoMore(t) && (t.tasks.loop.Busy? ==> s.tasks.loop.Busy? && t.tasks.loop.msg == s.tasks.loop.msg))
    && (s.term.unsolicited ==> t.term.unsolicited)
    && (forall m: nat :: AboutToPop(t.tasks.loop, m) == AboutToPop(s.tasks.loop, m))
    && (t.tasks.loop.Busy? && t.tasks.loop.stage.Popping? ==> t.tasks.loop == s.tasks.loop)
  }

  lemma StillKeeps(s: State, t: State)
    requires Fates(s) && Still(s, t)
    ensures Fates(t)
  {
    forall m: nat
      ensures Fate(t, m)
    {
      assert Fate(s, m);
    }
  }

  lemma CallIsStill(s: State, c: nat, op: CallOp)
    requires CallEnabled(s, c, op)
    ensures Still(s, CallStep(s, c, op))
  {
  }

  lemma LoopIsStill(s: State, op: LoopOp)
    requires LoopEnabled(s, op)
    ensures Still(s, LoopStep(s, op))
  {
  }

  lemma PhaseIsStill(s: State, op: TermOp)
    requires TermEnabled(s, op) && !Drains(s, Term(op)) && (s.term.pc.Idle? ==> !s.term.unsolicited)
    ensures Still(s, TermStep(s, op))
  {
  }

  lemma Appended(xs: seq<nat>, x: nat, m: nat)
    ensures multiset(xs + [x])[m] == multiset(xs)[m] + Flag(x == m)
  {
  }

  lemma DrainKeeps(s: State)
    requires Inv(s) && Fates(s) && s.term.pc.Drain? && s.buffer.items != []
    ensures Fates(NextStep(s))
  {
    BufferTail(s);
    hide Inv;
    var t := NextStep(s);
    forall m: nat
      ensures Fate(t, m)
    {
      assert Fate(s, m);
      Appended(s.buffer.drained, s.buffer.items[0], m);
    }
  }

  lemma TermKeepsFates(s: State, op: TermOp)
    requires Inv(s) && Fates(s) && TermEnabled(s, op)
    ensures Fates(TermStep(s, op))
  {
    hide Fates, Order, Calls, Tasks, Apart, Failed, Submission;
    if op == Next && s.term.pc.Drain? && s.buffer.items != [] {
      DrainKeeps(s);
    } else {
      PhaseIsStill(s, op);
      StillKeeps(s, TermStep(s, op));
    }
  }

  // A pop finds the buffer empty, or drained in part, only in an unsolicited termination, when no
  // other task will follow.
  lemma PopFacts(s: State)
    requires Inv(s) && TaskEnabled(s, Pop)
    ensures s.buffer.items == [] || s.buffer.drained != [] ==> s.term.ungraceful && s.term.unsolicited
    ensures s.buffer.items != [] ==> s.buffer.items[0] == s.buffer.Removed() && s.out.vain == []
    ensures s.buffer.items != [] && s.tasks.loop.msg < s.buffer.items[0] ==> s.buffer.drained != []
    ensures s.buffer.items != [] && s.buffer.drained == [] ==>
              (s.buffer.items[0] == s.tasks.loop.msg <==> s.out.interrupted == [])
    ensures s.tasks.loop.msg + 1 == s.tasks.dequeued
  {
  }

  lemma VainPopFate(s: State, m: nat)
    requires TaskEnabled(s, Pop) && Fate(s, m) && s.buffer.items == []
    ensures Fate(TaskStep(s, Pop), m)
  {
    Appended(s.out.vain, s.tasks.loop.msg, m);
  }

  lemma PopRemoval(b: Buffer, m: nat)
    requires Removal(b, m) && b.items != [] && b.items[0] == b.Removed()
    ensures Removal(b.Take(), m) && multiset(b.Take().taken)[m] == multiset(b.taken)[m] + Flag(b.items[0] == m)
  {
    Appended(b.taken, b.items[0], m);
  }

  lemma PopFate(s: State, m: nat)
    requires TaskEnabled(s, Pop) && Fate(s, m) && s.buffer.items != [] && s.buffer.items[0] == s.buffer.Removed()
    ensures Fate(TaskStep(s, Pop), m)
  {
    PopRemoval(s.buffer, m);
    hide Removal;
    assert TaskStep(s, Pop).out.wire == s.out.wire && TaskStep(s, Pop).out.failures == s.out.failures;
    assert Result(TaskStep(s, Pop).out, TaskStep(s, Pop).tasks, m);
  }

  // what a pop takes has no result, unless it is the task's own
  lemma PopStrays(s: State)
    requires TaskEnabled(s, Pop) && Strays(s) && s.tasks.loop.msg + 1 == s.tasks.dequeued
    requires Fate(s, s.tasks.loop.msg) && (s.buffer.items != [] ==> Fate(s, s.buffer.items[0]))
    requires s.buffer.items != [] ==> s.buffer.items[0] == s.buffer.Removed() && s.out.vain == []
    requires s.buffer.items != [] && s.tasks.loop.msg < s.buffer.items[0] ==> s.term.ungraceful
    ensures Strays(TaskStep(s, Pop))
  {
    if s.buffer.items != [] {
      Appended(s.buffer.taken, s.buffer.items[0], s.buffer.items[0]);
    }
  }

  lemma PopEnds(s: State)
    requires TaskEnabled(s, Pop) && Ends(s)
    requires s.buffer.items == [] || s.buffer.drained != [] ==> s.term.ungraceful && s.term.unsolicited
    requires s.buffer.items != [] ==> s.out.vain == []
    requires s.buffer.items != [] && s.buffer.drained == [] ==>
               (s.buffer.items[0] == s.tasks.loop.msg <==> s.out.interrupted == [])
    ensures Ends(TaskStep(s, Pop))
  {
  }

  lemma PopKeepsFates(s: State)
    requires Inv(s) && Fates(s) && TaskEnabled(s, Pop)
    ensures Fates(TaskStep(s, Pop))
  {
    PopFacts(s);
    hide Inv, Strays, Ends, Fate, TaskStep, NoMore;
    assert Fate(s, s.tasks.loop.msg) && (s.buffer.items != [] ==> Fate(s, s.buffer.items[0]));
    PopStrays(s);
    PopEnds(s);
    forall m: nat
      ensures Fate(TaskStep(s, Pop), m)
    {
      if s.buffer.items == [] { VainPopFate(s, m); } else { PopFate(s, m); }
    }
  }

  lemma TaskFate(s: State, op: TaskOp, m: nat)
    requires TaskEnabled(s, op) && op != Pop && Fate(s, m) && s.tasks.loop.msg + 1 == s.tasks.dequeued
    ensures Fate(TaskStep(s, op), m)
  {
    if op == NativeOk {
      Appended(s.out.wire, s.tasks.loop.msg, m);
    } else if op == NativeFail {
      Appended(s.out.failures, s.tasks.loop.msg, m);
    }
  }

  // a result belongs to the task in hand, which comes after the one that went astray
  lemma TaskStrays(s: State, op: TaskOp)
    requires TaskEnabled(s, op) && op != Pop && Strays(s) && Ends(s) && s.tasks.loop.msg + 1 == s.tasks.dequeued
    ensures Strays(TaskStep(s, op)) && Ends(TaskStep(s, op))
  {
    if s.out.stray.Some? {
      var l := s.out.stray.value.1;
      Appended(s.out.wire, s.tasks.loop.msg, l);
      Appended(s.out.failures, s.tasks.loop.msg, l);
    }
  }

  lemma TaskKeepsFates(s: State, op: TaskOp)
    requires Inv(s) && Fates(s) && TaskEnabled(s, op)
    ensures Fates(TaskStep(s, op))
  {
    if op == Pop {
      PopKeepsFates(s);
    } else {
      assert s.tasks.loop.msg + 1 == s.tasks.dequeued;
      hide Inv, Strays, Ends, Fate, TaskStep;
      TaskStrays(s, op);
      forall m: nat
        ensures Fate(TaskStep(s, op), m)
      {
        TaskFate(s, op, m);
      }
    }
  }

  lemma FatesStepKeeps(s: State, a: Action)
    requires Inv(s) && Fates(s) && Enabled(s, a)
    ensures Fates(Step(s, a))
  {
    match a
    case Enter => StillKeeps(s, EnterStep(s));
    case ServiceDown => StillKeeps(s, s.(down := true));
    case Call(c, op) => CallIsStill(s, c, op); StillKeeps(s, CallStep(s, c, op));
    case Loop(op) => LoopIsStill(s, op); StillKeeps(s, LoopStep(s, op));
    case Task(op) => TaskKeepsFates(s, op);
    case Term(op) => TermKeepsFates(s, op);
  }

  lemma {:induction false} FatesRunKeeps(s: State, actions: seq<Action>, t: State)
    requires Inv(s) && Fates(s) && Run(s, actions, t)
    ensures Inv(t) && Fates(t)
    decreases |actions|
  {
    if actions != [] {
      StepKeeps(s, actions[0]);
      FatesStepKeeps(s, actions[0]);
      FatesRunKeeps(Step(s, actions[0]), actions[1..], t);
    }
  }

  lemma ReachableFates(capacity: nat, waits: bool, actions: seq<Action>, t: State)
    requires Run(Init(capacity, waits), actions, t)
    ensures Inv(t) && Fates(t)
  {
    InitInv(capacity, waits);
    InitFates(capacity, waits);
    FatesRunKeeps(Init(capacity, waits), actions, t);
  }
}
