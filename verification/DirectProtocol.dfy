/** The failure events of the direct publisher with buffered backpressure: the publish path of
    Pipeline together with the event executor, to which drainQueue and the send task submit while
    the terminator closes it at the end. The executor is the queue that ExecutorProtocol proves it
    to be: it takes what is submitted, in that order, until it is closed. Readiness events are not
    part of this model. */
module DirectProtocol {
  import opened Wrappers
  import F = PipelineFates
  import P = Pipeline

  // what the failure listener is called with: the message that the drain found, or that of the task
  datatype Event = Undelivered(msg: nat) | SendFailed(msg: nat)

  // owed is the drained message whose event is still to be submitted; muted are the tasks whose
  // event the closed executor refused
  datatype State = State(
    pipe: P.State, listener: bool, open: bool, events: seq<Event>, owed: Option<nat>, muted: seq<nat>)

  datatype Action = Pipe(action: P.Action) | SubmitUndelivered | CloseExecutor

  function Init(capacity: nat, waits: bool, listener: bool): State {
    State(P.Init(capacity, waits), listener, true, [], None, [])
  }

  predicate Enabled(s: State, a: Action) {
    match a
    case Pipe(pa) =>
      P.Enabled(s.pipe, pa) && (pa == P.Term(P.Next) ==> s.owed == None && (s.pipe.term.pc.Hook3? ==> !s.open))
    case SubmitUndelivered => s.owed.Some?
    case CloseExecutor => s.pipe.term.pc.Hook3? && s.open
  }

  // only the unsolicited termination hands the listener to drainQueue
  predicate DrainReports(s: State) {
    s.listener && s.pipe.term.unsolicited
  }

  function SubmitEvent(s: State, e: Event): State {
    if s.open then s.(events := s.events + [e]) else s.(muted := s.muted + [e.msg])
  }

  function Effect(s: State, a: P.Action): State
    requires P.Enabled(s.pipe, a)
  {
    if P.Drains(s.pipe, a) && DrainReports(s) then s.(owed := Some(s.pipe.buffer.items[0]))
    else if a == P.Task(P.Report) && s.listener then SubmitEvent(s, SendFailed(s.pipe.tasks.loop.msg))
    else s
  }

  function PipeStep(s: State, a: P.Action): State
    requires P.Enabled(s.pipe, a)
  {
    Effect(s, a).(pipe := P.Step(s.pipe, a))
  }

  function Step(s: State, a: Action): State
    requires Enabled(s, a)
  {
    match a
    case Pipe(pa) => PipeStep(s, pa)
    case SubmitUndelivered => SubmitEvent(s, Undelivered(s.owed.value)).(owed := None)
    case CloseExecutor => s.(open := false)
  }

  predicate Run(s: State, actions: seq<Action>, t: State)
    decreases |actions|
  {
    if actions == [] then s == t
    else Enabled(s, actions[0]) && Run(Step(s, actions[0]), actions[1..], t)
  }

  // ----- the invariant

  // the task of message m failed to send and has not come to its event yet
  predicate Owes(pc: P.LoopPC, m: nat) {
    && pc.Busy? && pc.msg == m
    && (((pc.stage.Popping? || (pc.stage.Popped? && pc.stage.got.Some?)) && pc.stage.failed) || pc.stage.Reporting?)
  }

  // how often message m was taken to the listener
  function Told(events: seq<Event>, m: nat): nat {
    multiset(events)[Undelivered(m)] + multiset(events)[SendFailed(m)]
  }

  // every failure has had its event or will have it, except those of a task that found the buffer
  // drained or the executor closed
  ghost predicate FailureTold(s: State, m: nat) {
    var o := s.pipe.out;
    multiset(s.events)[SendFailed(m)] + multiset(s.muted)[m] + Flag(s.listener && Owes(s.pipe.tasks.loop, m))
    + (if s.listener && m in o.failures then multiset(o.vain)[m] else 0)
    == (if s.listener then multiset(o.failures)[m] else 0)
  }

  ghost predicate DrainTold(s: State, m: nat) {
    multiset(s.events)[Undelivered(m)] + Flag(s.owed == Some(m))
    == if DrainReports(s) then multiset(s.pipe.buffer.drained)[m] else 0
  }

  // the messages of the drain's events, in order
  function Undelivereds(events: seq<Event>): seq<nat> {
    if events == [] then []
    else
      var init, last := events[..|events| - 1], events[|events| - 1];
      if last.Undelivered? then Undelivereds(init) + [last.msg] else Undelivereds(init)
  }

  // the messages of the tasks' events, in order
  function SendFailures(events: seq<Event>): seq<nat> {
    if events == [] then []
    else
      var init, last := events[..|events| - 1], events[|events| - 1];
      if last.SendFailed? then SendFailures(init) + [last.msg] else SendFailures(init)
  }

  function OwedOf(s: State): seq<nat> {
    if s.owed.Some? then [s.owed.value] else []
  }

  // the failure of the task in hand that is still to be told
  function PendingOf(pc: P.LoopPC): seq<nat> {
    if pc.Busy? && Owes(pc, pc.msg) then [pc.msg] else []
  }

  ghost predicate InOrder(s: State) {
    && Undelivereds(s.events) + OwedOf(s) == (if DrainReports(s) then s.pipe.buffer.drained else [])
    && (s.listener && !s.pipe.term.unsolicited ==>
          SendFailures(s.events) + PendingOf(s.pipe.tasks.loop) == s.pipe.out.failures)
  }

  ghost predicate Stages(s: State) {
    var pc := s.pipe.term.pc;
    && (s.owed.Some? ==> pc.Drain? && DrainReports(s))
    && (!s.open ==> pc.Hook3? || pc.Gone?) && (pc.Gone? ==> !s.open)
    && (!s.listener ==> s.events == [] && s.muted == [])
    && (!s.pipe.term.unsolicited ==> s.muted == [])
  }

  ghost predicate Books(s: State) {
    InOrder(s) && (forall m: nat :: FailureTold(s, m)) && (forall m: nat :: DrainTold(s, m))
  }

  ghost predicate Inv(s: State) {
    P.Inv(s.pipe) && F.Fates(s.pipe) && Stages(s) && Books(s)
  }

  lemma InitInv(capacity: nat, waits: bool, listener: bool)
    ensures Inv(Init(capacity, waits, listener))
  {
    P.InitInv(capacity, waits);
    F.InitFates(capacity, waits);
  }

  // ----- every step keeps it

  lemma Counted(events: seq<Event>, e: Event, x: Event)
    ensures multiset(events + [e])[x] == multiset(events)[x] + Flag(e == x)
  {
  }

  lemma Projected(events: seq<Event>, e: Event)
    ensures Undelivereds(events + [e]) == Undelivereds(events) + (if e.Undelivered? then [e.msg] else [])
    ensures SendFailures(events + [e]) == SendFailures(events) + (if e.SendFailed? then [e.msg] else [])
  {
    assert (events + [e])[..|events|] == events;
  }

  // a step of the pipeline that neither submits an event nor changes who is owed one
  ghost predicate Calm(p: P.State, q: P.State) {
    && q.out.failures == p.out.failures && q.out.vain == p.out.vain && q.buffer.drained == p.buffer.drained
    && (forall m: nat :: Owes(q.tasks.loop, m) == Owes(p.tasks.loop, m))
    && PendingOf(q.tasks.loop) == PendingOf(p.tasks.loop)
  }

  lemma CalmKeeps(s: State, t: State)
    requires Calm(s.pipe, t.pipe) && t == s.(pipe := t.pipe) && Books(s)
    requires t.pipe.term.unsolicited == s.pipe.term.unsolicited || (s.pipe.buffer.drained == [] && t.pipe.term.unsolicited)
    ensures Books(t)
  {
    forall m: nat
      ensures FailureTold(t, m) && DrainTold(t, m)
    {
      assert FailureTold(s, m) && DrainTold(s, m);
    }
  }

  // the steps of the send task that change who is owed an event
  predicate Tells(p: P.State, a: P.Action) {
    a == P.Task(P.NativeFail) || a == P.Task(P.Pop) || a == P.Task(P.Report) || P.Drains(p, a)
  }

  lemma CalmTask(p: P.State, op: P.TaskOp)
    requires P.TaskEnabled(p, op) && !Tells(p, P.Task(op))
    ensures Calm(p, P.TaskStep(p, op))
  {
  }

  lemma CalmStep(p: P.State, a: P.Action)
    requires P.Enabled(p, a) && !Tells(p, a)
    ensures Calm(p, P.Step(p, a))
  {
    match a
    case Call(c, op) => assert P.CallStep(p, c, op).tasks.loop == p.tasks.loop;
    case Loop(op) => assert !p.tasks.loop.Busy?;
    case Task(op) => CalmTask(p, op);
    case _ =>
  }

  // what a step of the send task of message k changes
  ghost predicate TaskMove(p: P.State, q: P.State, k: nat) {
    && p.tasks.loop.Busy? && p.tasks.loop.msg == k && q.term == p.term && q.buffer.drained == p.buffer.drained
    && (forall m: nat :: m != k ==> !Owes(p.tasks.loop, m) && !Owes(q.tasks.loop, m))
  }

  // NativeFail

  ghost predicate FailMove(p: P.State, q: P.State, k: nat) {
    && TaskMove(p, q, k) && p.out.vain == [] == q.out.vain && q.out.failures == p.out.failures + [k]
    && !Owes(p.tasks.loop, k) && Owes(q.tasks.loop, k) && q.tasks.loop.msg == k
  }

  lemma FailIsMove(p: P.State)
    requires P.TaskEnabled(p, P.NativeFail) && F.Ends(p)
    ensures FailMove(p, P.TaskStep(p, P.NativeFail), p.tasks.loop.msg)
  {
  }

  lemma FailKeepsBooks(s: State, q: P.State, k: nat)
    requires FailMove(s.pipe, q, k) && Books(s)
    ensures Books(s.(pipe := q))
  {
    forall m: nat
      ensures FailureTold(s.(pipe := q), m) && DrainTold(s.(pipe := q), m)
    {
      assert FailureTold(s, m) && DrainTold(s, m);
      F.Appended(s.pipe.out.failures, k, m);
    }
  }

  // Pop finds nothing

  ghost predicate VainMove(p: P.State, q: P.State, k: nat) {
    && TaskMove(p, q, k) && p.term.unsolicited && q.out.vain == p.out.vain + [k] && q.out.failures == p.out.failures
    && !Owes(q.tasks.loop, k) && (Owes(p.tasks.loop, k) <==> k in p.out.failures)
  }

  lemma VainIsMove(p: P.State)
    requires P.Inv(p) && F.Fates(p) && P.TaskEnabled(p, P.Pop) && p.buffer.items == []
    ensures VainMove(p, P.TaskStep(p, P.Pop), p.tasks.loop.msg)
  {
    F.PopFacts(p);
    assert F.Fate(p, p.tasks.loop.msg);
  }

  lemma VainKeepsBooks(s: State, q: P.State, k: nat)
    requires VainMove(s.pipe, q, k) && Books(s)
    ensures Books(s.(pipe := q))
  {
    forall m: nat
      ensures FailureTold(s.(pipe := q), m) && DrainTold(s.(pipe := q), m)
    {
      assert FailureTold(s, m) && DrainTold(s, m);
      F.Appended(s.pipe.out.vain, k, m);
    }
  }

  lemma PopIsCalm(p: P.State)
    requires P.TaskEnabled(p, P.Pop) && p.buffer.items != []
    ensures Calm(p, P.TaskStep(p, P.Pop))
  {
  }

  // Report

  ghost predicate ReportMove(p: P.State, q: P.State, k: nat) {
    TaskMove(p, q, k) && q.out == p.out && Owes(p.tasks.loop, k) && !Owes(q.tasks.loop, k)
  }

  lemma ReportIsMove(p: P.State)
    requires P.TaskEnabled(p, P.Report)
    ensures ReportMove(p, P.TaskStep(p, P.Report), p.tasks.loop.msg)
  {
  }

  function ReportEffect(s: State, q: P.State, k: nat): State {
    (if s.listener then SubmitEvent(s, SendFailed(k)) else s).(pipe := q)
  }

  lemma ReportTells(s: State, q: P.State, k: nat, m: nat)
    requires ReportMove(s.pipe, q, k) && FailureTold(s, m) && DrainTold(s, m)
    ensures FailureTold(ReportEffect(s, q, k), m) && DrainTold(ReportEffect(s, q, k), m)
  {
    Counted(s.events, SendFailed(k), SendFailed(m));
    Counted(s.events, SendFailed(k), Undelivered(m));
    F.Appended(s.muted, k, m);
  }

  lemma ReportKeepsOrder(s: State, q: P.State, k: nat)
    requires ReportMove(s.pipe, q, k) && InOrder(s) && (s.open || s.pipe.term.unsolicited)
    ensures InOrder(ReportEffect(s, q, k))
  {
    Projected(s.events, SendFailed(k));
    hide Undelivereds, SendFailures;
  }

  lemma ReportKeepsBooks(s: State, q: P.State, k: nat)
    requires ReportMove(s.pipe, q, k) && Books(s) && (s.open || s.pipe.term.unsolicited)
    ensures Books(ReportEffect(s, q, k))
  {
    hide FailureTold, DrainTold, InOrder, ReportMove, ReportEffect;
    ReportKeepsOrder(s, q, k);
    forall m: nat
      ensures FailureTold(ReportEffect(s, q, k), m) && DrainTold(ReportEffect(s, q, k), m)
    {
      assert FailureTold(s, m) && DrainTold(s, m);
      ReportTells(s, q, k, m);
    }
  }

  // only an unsolicited termination closes the executor while a task is in hand
  lemma LoopOutlastsExecutor(s: State)
    requires P.Inv(s.pipe) && Stages(s) && s.pipe.tasks.loop.Busy?
    ensures s.open || s.pipe.term.unsolicited
  {
  }

  // the drain

  function DrainEffect(s: State, q: P.State, k: nat): State {
    (if DrainReports(s) then s.(owed := Some(k)) else s).(pipe := q)
  }

  ghost predicate DrainMove(p: P.State, q: P.State, k: nat) {
    && q.buffer.drained == p.buffer.drained + [k] && q.tasks == p.tasks && q.out == p.out
    && q.term.unsolicited == p.term.unsolicited
  }

  lemma DrainKeepsBooks(s: State, q: P.State, k: nat)
    requires DrainMove(s.pipe, q, k) && Books(s) && s.owed == None
    ensures Books(DrainEffect(s, q, k))
  {
    forall m: nat
      ensures FailureTold(DrainEffect(s, q, k), m) && DrainTold(DrainEffect(s, q, k), m)
    {
      assert FailureTold(s, m) && DrainTold(s, m);
      F.Appended(s.pipe.buffer.drained, k, m);
    }
  }

  lemma SubmitKeepsOrder(s: State)
    requires s.owed.Some? && s.open && InOrder(s)
    ensures InOrder(Step(s, SubmitUndelivered))
  {
    Projected(s.events, Undelivered(s.owed.value));
    hide Undelivereds, SendFailures;
  }

  lemma SubmitTells(s: State, m: nat)
    requires s.owed.Some? && s.open && FailureTold(s, m) && DrainTold(s, m)
    ensures FailureTold(Step(s, SubmitUndelivered), m) && DrainTold(Step(s, SubmitUndelivered), m)
  {
    Counted(s.events, Undelivered(s.owed.value), SendFailed(m));
    Counted(s.events, Undelivered(s.owed.value), Undelivered(m));
  }

  lemma SubmitKeepsBooks(s: State)
    requires s.owed.Some? && s.open && Books(s)
    ensures Books(Step(s, SubmitUndelivered))
  {
    hide FailureTold, DrainTold, InOrder;
    SubmitKeepsOrder(s);
    forall m: nat
      ensures FailureTold(Step(s, SubmitUndelivered), m) && DrainTold(Step(s, SubmitUndelivered), m)
    {
      assert FailureTold(s, m) && DrainTold(s, m);
      SubmitTells(s, m);
    }
  }

  lemma CloseKeepsBooks(s: State)
    requires Books(s)
    ensures Books(s.(open := false))
  {
    forall m: nat
      ensures FailureTold(s.(open := false), m) && DrainTold(s.(open := false), m)
    {
      assert FailureTold(s, m) && DrainTold(s, m);
    }
  }

  // ----- together

  // the mode of the terminator does not change once it has drained something
  lemma ModeIsSettled(p: P.State, a: P.Action)
    requires P.Inv(p) && P.Enabled(p, a)
    ensures var q := P.Step(p, a);
            q.term.unsolicited == p.term.unsolicited || (p.buffer.drained == [] && q.term.unsolicited)
  {
    P.TermIsApart(p, a);
  }

  // what PipeStep comes to, case by case
  lemma PipeEffect(s: State, a: P.Action)
    requires P.Enabled(s.pipe, a)
    ensures var t, q, k := PipeStep(s, a), P.Step(s.pipe, a), s.pipe.tasks.Msg();
            if a == P.Task(P.Report) then t == ReportEffect(s, q, k)
            else if P.Drains(s.pipe, a) then t == DrainEffect(s, q, s.pipe.buffer.items[0])
            else t == s.(pipe := q)
  {
    hide P.Step;
  }

  lemma PipeMoves(s: State, a: P.Action)
    requires P.Inv(s.pipe) && F.Fates(s.pipe) && P.Enabled(s.pipe, a)
    ensures var p, q, k := s.pipe, P.Step(s.pipe, a), s.pipe.tasks.Msg();
            if a == P.Task(P.NativeFail) then FailMove(p, q, k)
            else if a == P.Task(P.Report) then ReportMove(p, q, k)
            else if P.Drains(p, a) then DrainMove(p, q, p.buffer.items[0])
            else if a == P.Task(P.Pop) && p.buffer.items == [] then VainMove(p, q, k)
            else Calm(p, q)
  {
    if a == P.Task(P.NativeFail) {
      FailIsMove(s.pipe);
    } else if a == P.Task(P.Report) {
      ReportIsMove(s.pipe);
    } else if a == P.Task(P.Pop) {
      if s.pipe.buffer.items == [] { VainIsMove(s.pipe); } else { PopIsCalm(s.pipe); }
    } else if !P.Drains(s.pipe, a) {
      CalmStep(s.pipe, a);
    }
  }

  lemma PipeKeepsBooks(s: State, a: P.Action)
    requires Inv(s) && Enabled(s, Pipe(a)) && (a == P.Task(P.Report) ==> s.open || s.pipe.term.unsolicited)
    ensures Books(PipeStep(s, a))
  {
    var q, k := P.Step(s.pipe, a), s.pipe.tasks.Msg();
    ModeIsSettled(s.pipe, a);
    PipeEffect(s, a);
    PipeMoves(s, a);
    hide P.Inv, F.Fates, P.Step, Books, Stages, PipeStep, Calm, FailMove, ReportMove, DrainMove, VainMove, ReportEffect, DrainEffect;
    if a == P.Task(P.NativeFail) {
      FailKeepsBooks(s, q, k);
    } else if a == P.Task(P.Report) {
      ReportKeepsBooks(s, q, k);
    } else if P.Drains(s.pipe, a) {
      DrainKeepsBooks(s, q, s.pipe.buffer.items[0]);
    } else if a == P.Task(P.Pop) && s.pipe.buffer.items == [] {
      VainKeepsBooks(s, q, k);
    } else {
      CalmKeeps(s, PipeStep(s, a));
    }
  }

  lemma PipeKeepsStages(s: State, a: P.Action)
    requires Stages(s) && Enabled(s, Pipe(a)) && P.Signals(s.pipe.term)
    requires a == P.Task(P.Report) ==> s.open || s.pipe.term.unsolicited
    ensures Stages(PipeStep(s, a))
  {
    P.TermIsApart(s.pipe, a);
    if a.Term? {
      TermKeepsStages(s, a.term);
    } else {
      hide P.Step, P.Signals;
    }
  }

  lemma TermKeepsStages(s: State, op: P.TermOp)
    requires Stages(s) && Enabled(s, Pipe(P.Term(op))) && P.Signals(s.pipe.term)
    ensures Stages(PipeStep(s, P.Term(op)))
  {
  }

  lemma PipeKeeps(s: State, a: P.Action)
    requires Inv(s) && Enabled(s, Pipe(a))
    ensures Inv(PipeStep(s, a))
  {
    if a == P.Task(P.Report) { LoopOutlastsExecutor(s); }
    PipeKeepsStages(s, a);
    hide Stages, Books, F.Fates, P.Inv, P.Step;
    P.StepKeeps(s.pipe, a);
    F.FatesStepKeeps(s.pipe, a);
    PipeKeepsBooks(s, a);
  }

  lemma StepKeeps(s: State, a: Action)
    requires Inv(s) && Enabled(s, a)
    ensures Inv(Step(s, a))
  {
    match a
    case Pipe(pa) =>
      PipeKeeps(s, pa);
    case SubmitUndelivered =>
      hide P.Inv, F.Fates, Books;
      SubmitKeepsBooks(s);
    case CloseExecutor =>
      hide P.Inv, F.Fates, Books;
      CloseKeepsBooks(s);
  }

  lemma {:induction false} RunKeeps(s: State, actions: seq<Action>, t: State)
    requires Inv(s) && Run(s, actions, t)
    ensures Inv(t)
    decreases |actions|
  {
    if actions != [] {
      StepKeeps(s, actions[0]);
      RunKeeps(Step(s, actions[0]), actions[1..], t);
    }
  }

  lemma ReachableInv(capacity: nat, waits: bool, listener: bool, actions: seq<Action>, t: State)
    requires Run(Init(capacity, waits, listener), actions, t)
    ensures Inv(t)
  {
    InitInv(capacity, waits, listener);
    RunKeeps(Init(capacity, waits, listener), actions, t);
  }
}
