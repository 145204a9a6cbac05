/** The buffered publish path that the persistent, direct and request/reply publishers share:
    the bounded message buffer, the task buffer with its Run loop
    (internal/impl/publisher/buffer/publisher_task_buffer.go), the send task, and the phases of
    Terminate and unsolicitedTermination. Any number of publish calls, the Run loop and one
    terminator interleave, one atomic operation a step. Pushes happen one at a time under
    bufferPublishLock, so a message is named by its place in their order; the calls name theirs.
    Native return codes and timers are free choices. */
module Pipeline {
  import opened Wrappers

  datatype Life = Started | Terminating | Terminated

  // what a publish call does next
  datatype CallPC = Entered | Checked | Locked | Pushed(msg: nat) | Submitting(msg: nat) | Accepted(msg: nat) | Refused

  // what the send task in execution does next
  datatype Stage =
    | Starting | Sending | Blocked | Popping(failed: bool)
    | Popped(failed: bool, got: Option<nat>) | Reporting | Ending

  // what the Run loop of the task buffer does next
  datatype LoopPC =
    | Top | Poll | TakeOrStop | Await | Offering(msg: nat) | Busy(msg: nat, stage: Stage) | Leaving | Finished

  // What the one call that won the step to Terminating does next; the Hook states are where the
  // three publishers differ.
  datatype TermPC =
    | Idle | Hook1 | CloseInterrupt | CloseGraceful | AwaitDrain | CloseStopTask | CloseUngraceful
    | AwaitComplete | Hook2 | CloseBuffer | Drain | Hook3 | Gone

  // the publish calls; pushed[m] is the call that pushed message m
  datatype Front = Front(calls: seq<CallPC>, lock: Option<nat>, pushed: seq<nat>) {
    function Move(c: nat, pc: CallPC): Front
      requires c < |calls|
    {
      Front(calls[c := pc], lock, pushed)
    }

    // the call returns and its deferred unlock runs
    function Leave(c: nat, pc: CallPC): Front
      requires c < |calls|
    {
      Front(calls[c := pc], None, pushed)
    }
  }

  // the message buffer, with the record of who removed what
  datatype Buffer = Buffer(items: seq<nat>, closed: bool, taken: seq<nat>, drained: seq<nat>) {
    function Take(): Buffer
      requires items != []
    {
      Buffer(items[1..], closed, taken + [items[0]], drained)
    }

    function DrainOne(): Buffer
      requires items != []
    {
      Buffer(items[1..], closed, taken, drained + [items[0]])
    }

    function Removed(): nat {
      |taken| + |drained|
    }
  }

  // the task buffer; a task is named by its message
  datatype TaskBuffer = TaskBuffer(
    queue: seq<nat>, complete: bool, loop: LoopPC, submitted: nat, dequeued: nat, dropped: nat, overflow: bool) {
    function At(pc: LoopPC): TaskBuffer {
      TaskBuffer(queue, complete, pc, submitted, dequeued, dropped, overflow)
    }

    function Enqueue(m: nat): TaskBuffer {
      TaskBuffer(queue + [m], complete, loop, submitted + 1, dequeued, dropped, overflow)
    }

    function Dequeue(): TaskBuffer
      requires queue != []
    {
      TaskBuffer(queue[1..], complete, Offering(queue[0]), submitted, dequeued + 1, dropped, overflow)
    }

    // the message of the task in execution, or that is about to be
    function Msg(): nat {
      if loop.Busy? || loop.Offering? then loop.msg else 0
    }
  }

  // What became of the tasks: sent, failed to send, interrupted, or found the buffer empty when
  // they came to pop it. stray is the first task that popped the message of another, with that
  // message; late tells whether a task popped after another was interrupted.
  datatype Outcomes = Outcomes(
    wire: seq<nat>, failures: seq<nat>, interrupted: seq<nat>, vain: seq<nat>, stray: Option<(nat, nat)>, late: bool) {
    // the task of message m pops this message, or finds nothing
    function Pop(m: nat, got: Option<nat>): Outcomes {
      Outcomes(wire, failures, interrupted, if got.None? then vain + [m] else vain,
               if stray.None? && got.Some? && got.value != m then Some((m, got.value)) else stray,
               late || (got.Some? && interrupted != []))
    }
  }

  datatype Terminator = Terminator(
    life: Life, pc: TermPC, unsolicited: bool, timed: bool, undelivered: nat,
    interrupt: bool, graceful: bool, stopTask: bool, ungraceful: bool)

  datatype State = State(
    capacity: nat, waits: bool, down: bool,
    front: Front, buffer: Buffer, tasks: TaskBuffer, out: Outcomes, term: Terminator)

  datatype CallOp = Check | Lock | Push | Refuse | Probe | Submit
  datatype LoopOp = Advance | Take | Wake | Hand | Withdraw
  datatype TaskOp = Begin | NativeOk | NativeFail | WouldBlock | Writable | Interrupt | Pop | Settle | Report | Return
  datatype TermOp = Terminate(timed: bool) | Unsolicited | Next | Timer
  datatype Action = Enter | ServiceDown | Call(c: nat, call: CallOp) | Loop(loop: LoopOp) | Task(task: TaskOp) | Term(term: TermOp)

  function Init(capacity: nat, waits: bool): State {
    State(capacity, waits, false, Front([], None, []), Buffer([], false, [], []),
          TaskBuffer([], false, Top, 0, 0, 0, false), Outcomes([], [], [], [], None, false),
          Terminator(Started, Idle, false, false, 0, false, false, false, false))
  }

  // ----- publish

  predicate CallEnabled(s: State, c: nat, op: CallOp) {
    c < |s.front.calls| &&
    var pc := s.front.calls[c];
    match op
    case Check => pc == Entered
    case Lock => pc == Checked && s.front.lock == None
    case Push => pc == Locked && !s.buffer.closed && |s.buffer.items| < s.capacity
    case Refuse =>
      pc == Locked && (s.buffer.closed || (if s.waits then s.term.interrupt else |s.buffer.items| == s.capacity))
    case Probe => pc.Pushed?
    case Submit => pc.Submitting?
  }

  function PushStep(s: State, c: nat): State
    requires c < |s.front.calls|
  {
    var m := |s.front.pushed|;
    s.(front := Front(s.front.calls[c := Pushed(m)], s.front.lock, s.front.pushed + [c]),
       buffer := s.buffer.(items := s.buffer.items + [m]))
  }

  function SubmitStep(s: State, c: nat, m: nat): State
    requires c < |s.front.calls|
  {
    s.(front := s.front.Leave(c, Accepted(m)),
       tasks := if |s.tasks.queue| < s.capacity then s.tasks.Enqueue(m) else s.tasks.(overflow := true))
  }

  function CallStep(s: State, c: nat, op: CallOp): State
    requires CallEnabled(s, c, op)
  {
    match op
    case Check => s.(front := s.front.Move(c, if s.term.life == Started then Checked else Refused))
    case Lock => s.(front := Front(s.front.calls[c := Locked], Some(c), s.front.pushed))
    case Push => PushStep(s, c)
    case Refuse => s.(front := s.front.Leave(c, Refused))
    case Probe =>
      var m := s.front.calls[c].msg;
      s.(front := if s.tasks.complete then s.front.Leave(c, Accepted(m)) else s.front.Move(c, Submitting(m)))
    case Submit => SubmitStep(s, c, s.front.calls[c].msg)
  }

  // ----- the Run loop of the task buffer

  predicate LoopEnabled(s: State, op: LoopOp) {
    var pc := s.tasks.loop;
    match op
    case Advance => pc.Top? || pc.Poll? || pc.Leaving? || (pc.TakeOrStop? && s.tasks.queue == [])
    case Take => (pc.TakeOrStop? || pc.Await?) && s.tasks.queue != []
    case Wake => pc.Await? && s.term.graceful
    case Hand => pc.Offering?
    case Withdraw => pc.Offering? && s.term.ungraceful
  }

  function AdvanceStep(b: TaskBuffer, term: Terminator): TaskBuffer {
    if b.loop.Top? then b.At(if term.ungraceful then Leaving else Poll)
    else if b.loop.Poll? then b.At(if term.graceful then TakeOrStop else Await)
    else b.(loop := Finished, complete := true)
  }

  function LoopStep(s: State, op: LoopOp): State
    requires LoopEnabled(s, op)
  {
    s.(tasks :=
      match op
      case Advance => AdvanceStep(s.tasks, s.term)
      case Take => s.tasks.Dequeue()
      case Wake => s.tasks.At(Top)
      case Hand => s.tasks.At(Busy(s.tasks.loop.msg, Starting))
      case Withdraw => s.tasks.(loop := Leaving, dropped := s.tasks.dropped + 1))
  }

  // ----- the send task

  predicate TaskEnabled(s: State, op: TaskOp) {
    s.tasks.loop.Busy? &&
    var stage := s.tasks.loop.stage;
    match op
    case Begin => stage.Starting?
    case NativeOk => stage.Sending?
    case NativeFail => stage.Sending?
    case WouldBlock => stage.Sending?
    case Writable => stage.Blocked?
    case Interrupt => stage.Blocked? && (s.term.stopTask || s.down)
    case Pop => stage.Popping?
    case Settle => stage.Popped?
    case Report => stage.Reporting?
    case Return => stage.Ending?
  }

  function PopStep(s: State, m: nat, failed: bool): State {
    if s.buffer.items == [] then
      s.(tasks := s.tasks.At(Busy(m, Popped(failed, None))), out := s.out.Pop(m, None))
    else
      s.(tasks := s.tasks.At(Busy(m, Popped(failed, Some(s.buffer.items[0])))), buffer := s.buffer.Take(),
         out := s.out.Pop(m, Some(s.buffer.items[0])))
  }

  // the steps of the send task that only move it on
  function NextStage(stage: Stage, op: TaskOp): Stage {
    match op
    case Begin => Sending
    case NativeOk => Popping(false)
    case NativeFail => Popping(true)
    case WouldBlock => Blocked
    case Writable => Sending
    case Settle => if stage.Popped? && stage.failed && stage.got.Some? then Reporting else Ending
    case _ => Ending
  }

  function Outcome(out: Outcomes, op: TaskOp, m: nat): Outcomes {
    match op
    case NativeOk => out.(wire := out.wire + [m])
    case NativeFail => out.(failures := out.failures + [m])
    case Interrupt => out.(interrupted := out.interrupted + [m])
    case _ => out
  }

  function TaskStep(s: State, op: TaskOp): State
    requires TaskEnabled(s, op)
  {
    var m, stage := s.tasks.loop.msg, s.tasks.loop.stage;
    if op == Pop then PopStep(s, m, stage.failed)
    else s.(tasks := s.tasks.At(if op == Return then Top else Busy(m, NextStage(stage, op))), out := Outcome(s.out, op, m))
  }

  // ----- Terminate and unsolicitedTermination

  predicate TermEnabled(s: State, op: TermOp) {
    match op
    case Terminate(_) => s.term.life == Started
    case Unsolicited => s.term.life == Started
    case Next => !s.term.pc.Idle? && !s.term.pc.Gone? && (s.term.pc.AwaitDrain? || s.term.pc.AwaitComplete? ==> s.tasks.complete)
    case Timer => s.term.pc.AwaitDrain? && s.term.timed
  }

  function Following(pc: TermPC, unsolicited: bool): TermPC {
    match pc
    case Hook1 => CloseInterrupt
    case CloseInterrupt => CloseGraceful
    case CloseGraceful => if unsolicited then CloseStopTask else AwaitDrain
    case AwaitDrain => Hook2
    case CloseStopTask => CloseUngraceful
    case CloseUngraceful => if unsolicited then CloseBuffer else AwaitComplete
    case AwaitComplete => Hook2
    case Hook2 => CloseBuffer
    case CloseBuffer => Drain
    case Drain => Hook3
    case _ => Gone
  }

  // closes the signal that the program counter names, if any, and moves on
  function Phase(t: Terminator): Terminator {
    Terminator(if t.pc.Hook3? then Terminated else t.life, Following(t.pc, t.unsolicited), t.unsolicited, t.timed, t.undelivered,
               t.interrupt || t.pc.CloseInterrupt?, t.graceful || t.pc.CloseGraceful?,
               t.stopTask || t.pc.CloseStopTask?, t.ungraceful || t.pc.CloseUngraceful?)
  }

  function NextStep(s: State): State {
    if s.term.pc.Drain? && s.buffer.items != [] then
      s.(buffer := s.buffer.DrainOne(), term := s.term.(undelivered := s.term.undelivered + 1))
    else
      s.(term := Phase(s.term), buffer := s.buffer.(closed := s.buffer.closed || s.term.pc.CloseBuffer?))
  }

  function TermStep(s: State, op: TermOp): State
    requires TermEnabled(s, op)
  {
    match op
    case Terminate(timed) => s.(term := s.term.(life := Terminating, pc := Hook1, timed := timed))
    case Unsolicited => s.(term := s.term.(life := Terminating, pc := Hook1, unsolicited := true))
    case Timer => s.(term := s.term.(pc := CloseStopTask))
    case Next => NextStep(s)
  }

  // ----- runs

  predicate Enabled(s: State, a: Action) {
    match a
    case Enter => true
    case ServiceDown => true
    case Call(c, op) => CallEnabled(s, c, op)
    case Loop(op) => LoopEnabled(s, op)
    case Task(op) => TaskEnabled(s, op)
    case Term(op) => TermEnabled(s, op)
  }

  function EnterStep(s: State): State {
    s.(front := Front(s.front.calls + [Entered], s.front.lock, s.front.pushed))
  }

  function Step(s: State, a: Action): State
    requires Enabled(s, a)
  {
    match a
    case Enter => EnterStep(s)
    case ServiceDown => s.(down := true)
    case Call(c, op) => CallStep(s, c, op)
    case Loop(op) => LoopStep(s, op)
    case Task(op) => TaskStep(s, op)
    case Term(op) => TermStep(s, op)
  }

  predicate Run(s: State, actions: seq<Action>, t: State)
    decreases |actions|
  {
    if actions == [] then s == t
    else Enabled(s, actions[0]) && Run(Step(s, actions[0]), actions[1..], t)
  }

  // ----- the invariant

  predicate InFlight(pc: CallPC) {
    pc.Pushed? || pc.Submitting?
  }
  predicate Holds(pc: CallPC) {
    pc.Locked? || InFlight(pc)
  }
  predicate HasMessage(pc: CallPC) {
    InFlight(pc) || pc.Accepted?
  }

  // the lock has one holder; calls and messages name each other
  ghost predicate Calls(f: Front) {
    && (f.lock.Some? ==> f.lock.value < |f.calls| && Holds(f.calls[f.lock.value]))
    && (forall c :: 0 <= c < |f.calls| && Holds(f.calls[c]) ==> f.lock == Some(c))
    && (forall c :: 0 <= c < |f.calls| && HasMessage(f.calls[c]) ==> f.calls[c].msg < |f.pushed| && f.pushed[f.calls[c].msg] == c)
    && (forall m :: 0 <= m < |f.pushed| ==>
          f.pushed[m] < |f.calls| && HasMessage(f.calls[f.pushed[m]]) && f.calls[f.pushed[m]].msg == m)
  }

  // the call whose message is in the buffer and whose task is not submitted yet
  predicate HasInFlight(f: Front) {
    f.lock.Some? && f.lock.value < |f.calls| && InFlight(f.calls[f.lock.value])
  }

  predicate Consecutive(xs: seq<nat>, from: nat) {
    forall k :: 0 <= k < |xs| ==> xs[k] == from + k
  }

  // The message buffer and the task queue are stretches of the order of pushes.
  ghost predicate Order(s: State) {
    var b, q := s.buffer, s.tasks;
    && b.Removed() + |b.items| == |s.front.pushed| && Consecutive(b.items, b.Removed())
    && |b.items| <= s.capacity
    && q.dequeued + |q.queue| == q.submitted <= |s.front.pushed| && Consecutive(q.queue, q.dequeued)
    && (q.loop.Offering? || q.loop.Busy? ==> q.loop.msg + 1 == q.dequeued)
  }

  // tasks are submitted in the order of their messages, and a rejected one has no successor
  ghost predicate Submission(s: State) {
    var f, q := s.front, s.tasks;
    && q.submitted + (if HasInFlight(f) then 1 else 0) <= |f.pushed|
    && (q.submitted + (if HasInFlight(f) then 1 else 0) < |f.pushed| ==> q.complete || q.overflow)
    && (q.overflow ==> s.buffer.drained != [] && s.buffer.closed && !HasInFlight(f))
    && (HasInFlight(f) ==> f.calls[f.lock.value].msg + 1 == |f.pushed|)
    && (HasInFlight(f) && f.calls[f.lock.value].Submitting? ==> q.submitted + 1 == |f.pushed|)
  }

  // 1 while the task in hand has not popped the buffer
  function Unpopped(pc: LoopPC): nat {
    if pc.Offering? then 1
    else if pc.Busy? && (pc.stage.Starting? || pc.stage.Sending? || pc.stage.Blocked? || pc.stage.Popping?) then 1
    else 0
  }

  // 1 while the task in hand has no final native result
  function Undecided(pc: LoopPC): nat {
    if pc.Busy? && pc.stage.Popping? then 0 else Unpopped(pc)
  }

  // 1 while the task in hand has not sent its message and may still do so, or failed to
  function Unsent(pc: LoopPC): nat {
    if pc.Busy? && (((pc.stage.Popping? || pc.stage.Popped?) && pc.stage.failed) || pc.stage.Reporting?) then 1
    else Undecided(pc)
  }

  ghost predicate Tasks(s: State) {
    var o, q := s.out, s.tasks;
    && |s.buffer.taken| + |o.interrupted| + |o.vain| + q.dropped + Unpopped(q.loop) == q.dequeued
    && |o.wire| + |o.failures| + Undecided(q.loop) == |s.buffer.taken| + |o.vain| + Unpopped(q.loop)
    && (q.dropped > 0 ==> q.loop.Leaving? || q.loop.Finished?)
    && (o.vain != [] ==> s.buffer.closed && s.buffer.items == [] && s.term.unsolicited)
    && (forall k :: 0 <= k < |o.wire| ==> o.wire[k] + Unsent(q.loop) < q.dequeued)
    && (forall k, m :: 0 <= k < m < |o.wire| ==> o.wire[k] < o.wire[m])
  }

  // Each task has one outcome: an interrupted or failed message is never sent.
  ghost predicate Apart(o: Outcomes, q: TaskBuffer) {
    && (forall k :: 0 <= k < |o.interrupted| ==> o.interrupted[k] + Unpopped(q.loop) < q.dequeued)
    && (forall j, k :: 0 <= j < |o.wire| && 0 <= k < |o.interrupted| ==> o.wire[j] != o.interrupted[k])
  }

  ghost predicate Failed(o: Outcomes, q: TaskBuffer) {
    && (forall k :: 0 <= k < |o.failures| ==> o.failures[k] + Undecided(q.loop) < q.dequeued)
    && (forall j, k :: 0 <= j < |o.wire| && 0 <= k < |o.failures| ==> o.wire[j] != o.failures[k])
    && (Unsent(q.loop) > Undecided(q.loop) ==> o.failures != [] && o.failures[|o.failures| - 1] == q.loop.msg)
  }

  function Rank(pc: TermPC): nat {
    match pc
    case Idle => 0 case Hook1 => 1 case CloseInterrupt => 2 case CloseGraceful => 3 case AwaitDrain => 4
    case CloseStopTask => 5 case CloseUngraceful => 6 case AwaitComplete => 7 case Hook2 => 8
    case CloseBuffer => 9 case Drain => 10 case Hook3 => 11 case Gone => 12
  }

  // which signals are closed follows from how far the terminator is
  ghost predicate Signals(t: Terminator) {
    && (t.life == Started <==> t.pc.Idle?) && (t.life == Terminated <==> t.pc.Gone?)
    && (t.interrupt <==> Rank(t.pc) > 2)
    && (t.graceful <==> Rank(t.pc) > 3)
    && (Rank(t.pc) <= 5 ==> !t.stopTask) && (Rank(t.pc) <= 6 ==> !t.ungraceful)
    && (Rank(t.pc) == 6 || Rank(t.pc) == 7 ==> t.stopTask)
    && (t.unsolicited ==> !t.pc.AwaitDrain? && !t.pc.AwaitComplete? && !t.pc.Hook2?)
    && (t.unsolicited && Rank(t.pc) > 5 ==> t.stopTask) && (t.unsolicited && Rank(t.pc) > 6 ==> t.ungraceful)
    && (t.stopTask || t.pc.CloseStopTask? ==> t.timed || t.unsolicited)
    && (t.pc.Idle? ==> !t.unsolicited)
  }

  ghost predicate Phases(s: State) {
    && Signals(s.term)
    && (s.buffer.closed <==> Rank(s.term.pc) > 9)
    && (s.tasks.complete <==> s.tasks.loop.Finished?)
    && (!s.term.unsolicited && Rank(s.term.pc) > 7 ==> s.tasks.complete)
    && (s.tasks.loop.TakeOrStop? || s.tasks.loop.Finished? || s.tasks.loop.Leaving? ==> s.term.graceful)
    && (s.out.interrupted != [] ==> s.term.stopTask || s.down)
    && s.term.undelivered == |s.buffer.drained|
    && (s.buffer.drained != [] ==> s.buffer.closed)
    && (s.term.pc.Hook3? || s.term.pc.Gone? ==> s.buffer.items == [])
  }

  ghost predicate Inv(s: State) {
    Calls(s.front) && Order(s) && Submission(s) && Tasks(s) && Apart(s.out, s.tasks) && Failed(s.out, s.tasks) && Phases(s)
  }

  // ----- every step keeps it

  lemma InitInv(capacity: nat, waits: bool)
    ensures Inv(Init(capacity, waits))
  {
  }

  // While nothing is drained the task buffer has room for every message that the message
  // buffer had room for.
  lemma NeverFullBeforeDrain(s: State, c: nat)
    requires Inv(s) && c < |s.front.calls| && s.front.calls[c].Submitting?
    ensures s.buffer.drained == [] ==> |s.tasks.queue| < s.capacity
  {
  }

  // what one call does to the front keeps the calls, messages and lock consistent
  lemma FrontKeeps(f: Front, c: nat, pc: CallPC, lock: Option<nat>)
    requires Calls(f) && c < |f.calls| && lock == (if Holds(pc) then Some(c) else if Holds(f.calls[c]) then None else f.lock)
    requires Holds(pc) && !Holds(f.calls[c]) ==> f.lock == None
    requires HasMessage(pc) == HasMessage(f.calls[c]) && (HasMessage(pc) ==> pc.msg == f.calls[c].msg)
    ensures Calls(Front(f.calls[c := pc], lock, f.pushed))
  {
  }

  lemma PushKeeps(s: State, c: nat)
    requires Inv(s) && CallEnabled(s, c, Push)
    ensures Inv(PushStep(s, c))
  {
    var t := PushStep(s, c);
    assert forall d :: 0 <= d < |s.front.calls| && d != c ==> t.front.calls[d] == s.front.calls[d];
    assert Calls(t.front);
    assert Order(t) && Submission(t);
  }

  lemma SubmitKeeps(s: State, c: nat)
    requires Inv(s) && CallEnabled(s, c, Submit)
    ensures Inv(SubmitStep(s, c, s.front.calls[c].msg))
  {
    var t := SubmitStep(s, c, s.front.calls[c].msg);
    NeverFullBeforeDrain(s, c);
    FrontKeeps(s.front, c, Accepted(s.front.calls[c].msg), None);
    assert Order(t) && Submission(t);
  }

  // a call moves on without a push or a submission
  lemma MoveKeeps(s: State, c: nat, pc: CallPC, lock: Option<nat>)
    requires Inv(s) && c < |s.front.calls| && s.front.calls[c] != pc
    requires Calls(Front(s.front.calls[c := pc], lock, s.front.pushed))
    requires InFlight(s.front.calls[c]) ==> s.front.calls[c].Pushed? && (if s.tasks.complete then pc.Accepted? else pc.Submitting?)
    requires HasMessage(pc) ==> InFlight(s.front.calls[c]) && pc.msg == s.front.calls[c].msg
    requires lock == s.front.lock || s.front.lock == None || (lock == None && Holds(s.front.calls[c]))
    ensures Inv(s.(front := Front(s.front.calls[c := pc], lock, s.front.pushed)))
  {
    var t := s.(front := Front(s.front.calls[c := pc], lock, s.front.pushed));
    assert forall d :: 0 <= d < |s.front.calls| && d != c ==> t.front.calls[d] == s.front.calls[d];
    assert Submission(t);
  }

  lemma CallKeeps(s: State, c: nat, op: CallOp)
    requires Inv(s) && CallEnabled(s, c, op)
    ensures Inv(CallStep(s, c, op))
  {
    if op == Push {
      PushKeeps(s, c);
    } else if op == Submit {
      SubmitKeeps(s, c);
    } else {
      var t := CallStep(s, c, op).front;
      FrontKeeps(s.front, c, t.calls[c], t.lock);
      MoveKeeps(s, c, t.calls[c], t.lock);
    }
  }

  lemma LoopKeepsOutcomes(s: State, op: LoopOp)
    requires Apart(s.out, s.tasks) && Failed(s.out, s.tasks) && LoopEnabled(s, op)
    ensures Apart(s.out, LoopStep(s, op).tasks) && Failed(s.out, LoopStep(s, op).tasks)
  {
  }

  lemma LoopKeeps(s: State, op: LoopOp)
    requires Inv(s) && LoopEnabled(s, op)
    ensures Inv(LoopStep(s, op))
  {
    LoopKeepsOutcomes(s, op);
    hide Calls, Apart, Failed;
  }

  // the buffer loses its oldest message
  lemma BufferTail(s: State)
    requires Order(s) && s.buffer.items != []
    ensures s.buffer.items[0] == s.buffer.Removed() && Consecutive(s.buffer.items[1..], s.buffer.Removed() + 1)
  {
  }

  lemma PopKeeps(s: State)
    requires Inv(s) && TaskEnabled(s, Pop)
    ensures Inv(PopStep(s, s.tasks.loop.msg, s.tasks.loop.stage.failed))
  {
    if s.buffer.items != [] {
      BufferTail(s);
    }
  }

  lemma TaskKeepsApart(s: State, op: TaskOp)
    requires Order(s) && Tasks(s) && Apart(s.out, s.tasks) && TaskEnabled(s, op)
    ensures Apart(TaskStep(s, op).out, TaskStep(s, op).tasks)
  {
  }

  lemma TaskKeepsFailed(s: State, op: TaskOp)
    requires Order(s) && Tasks(s) && Failed(s.out, s.tasks) && TaskEnabled(s, op) && op != Pop
    ensures Failed(TaskStep(s, op).out, TaskStep(s, op).tasks)
  {
    if op == NativeOk || op == NativeFail {
      assert Unsent(s.tasks.loop) == 1 == Undecided(s.tasks.loop);
    } else {
      assert TaskStep(s, op).out.failures == s.out.failures;
    }
  }

  lemma TaskKeepsTasks(s: State, op: TaskOp)
    requires Order(s) && Tasks(s) && TaskEnabled(s, op) && op != Pop
    ensures Tasks(TaskStep(s, op)) && Order(TaskStep(s, op))
  {
  }

  lemma TaskKeeps(s: State, op: TaskOp)
    requires Inv(s) && TaskEnabled(s, op)
    ensures Inv(TaskStep(s, op))
  {
    if op == Pop {
      PopKeeps(s);
    } else {
      hide Calls, Order, Tasks, Apart, Failed;
      TaskKeepsApart(s, op);
      TaskKeepsFailed(s, op);
      TaskKeepsTasks(s, op);
    }
  }

  lemma PhaseKeeps(t: Terminator)
    requires Signals(t) && !t.pc.Idle? && !t.pc.Gone?
    ensures Signals(Phase(t))
  {
  }

  lemma NextKeeps(s: State)
    requires Inv(s) && TermEnabled(s, Next)
    ensures Inv(NextStep(s))
  {
    if s.term.pc.Drain? && s.buffer.items != [] {
      BufferTail(s);
    } else {
      PhaseKeeps(s.term);
    }
  }

  lemma TermKeeps(s: State, op: TermOp)
    requires Inv(s) && TermEnabled(s, op)
    ensures Inv(TermStep(s, op))
  {
    if op == Next { NextKeeps(s); }
  }

  lemma StepKeeps(s: State, a: Action)
    requires Inv(s) && Enabled(s, a)
    ensures Inv(Step(s, a))
  {
    match a
    case Enter => assert Calls(EnterStep(s).front);
    case ServiceDown =>
    case Call(c, op) => CallKeeps(s, c, op);
    case Loop(op) => LoopKeeps(s, op);
    case Task(op) => TaskKeeps(s, op);
    case Term(op) => TermKeeps(s, op);
  }

  lemma {:induction false} RunKeeps(s: State, actions: seq<Action>, t: State)
    requires Inv(s) && Run(s, actions, t)
    ensures Inv(t)
    decreases |actions|
  {
    if actions != [] {
      StepKeeps(s, actions[0]);
      RunKeeps(Step(s, actions[0]), actions[1..], t);
    }
  }

  lemma ReachableInv(capacity: nat, waits: bool, actions: seq<Action>, t: State)
    requires Run(Init(capacity, waits), actions, t)
    ensures Inv(t)
  {
    InitInv(capacity, waits);
    RunKeeps(Init(capacity, waits), actions, t);
  }

  // ----- what a publisher built on this path needs to know of a step

  // the message of a send task that has begun and has not popped the buffer yet
  function CreditOf(pc: LoopPC): Option<nat> {
    if pc.Busy? && (pc.stage.Sending? || pc.stage.Blocked? || pc.stage.Popping?) then Some(pc.msg) else None
  }

  // the message of a send task that is about to report its failure
  function FailingOf(pc: LoopPC): Option<nat> {
    if pc.Busy? && pc.stage.Reporting? then Some(pc.msg) else None
  }

  // the send task popped a message after a native error, which it now deals with
  predicate HandlesError(pc: LoopPC) {
    pc.Busy? && pc.stage.Popped? && pc.stage.failed && pc.stage.got.Some?
  }

  // the task in hand has begun, has not sent its message, and still has to deal with that
  predicate Armed(pc: LoopPC) {
    pc.Busy? && (pc.stage.Sending? || pc.stage.Blocked? || ((pc.stage.Popping? || pc.stage.Popped?) && pc.stage.failed))
  }

  // how many tasks have begun
  function Begun(q: TaskBuffer): nat {
    if q.dequeued > 0 && (q.loop.Offering? || (q.loop.Busy? && q.loop.stage.Starting?)) then q.dequeued - 1 else q.dequeued
  }

  predicate Drains(s: State, a: Action) {
    a == Term(Next) && s.term.pc.Drain? && s.buffer.items != []
  }

  // the steps with which a publisher combines an action of its own
  predicate HasEffect(s: State, a: Action) {
    || a == Task(Begin) || a == Task(Interrupt) || a == Task(Pop) || a == Task(Report)
    || (a == Task(Settle) && HandlesError(s.tasks.loop)) || Drains(s, a)
  }

  // what every other step leaves alone
  predicate Quiet(s: State, t: State) {
    && s.front.pushed <= t.front.pushed
    && t.buffer.taken == s.buffer.taken && t.buffer.drained == s.buffer.drained
    && CreditOf(t.tasks.loop) == CreditOf(s.tasks.loop) && FailingOf(t.tasks.loop) == FailingOf(s.tasks.loop)
    && Begun(s.tasks) <= Begun(t.tasks) && t.out.vain == s.out.vain && t.out.stray == s.out.stray
    && s.out.wire <= t.out.wire && s.out.failures <= t.out.failures
    && (Armed(t.tasks.loop) ==> Armed(s.tasks.loop) && t.tasks.loop.msg == s.tasks.loop.msg)
    && (s.tasks.complete ==> t.tasks.complete)
  }

  lemma QuietCall(s: State, c: nat, op: CallOp)
    requires CallEnabled(s, c, op)
    ensures Quiet(s, CallStep(s, c, op))
  {
  }

  lemma QuietLoop(s: State, op: LoopOp)
    requires LoopEnabled(s, op)
    ensures Quiet(s, LoopStep(s, op))
  {
  }

  lemma QuietTask(s: State, op: TaskOp)
    requires TaskEnabled(s, op) && !HasEffect(s, Task(op))
    ensures Quiet(s, TaskStep(s, op))
  {
  }

  // the terminator leaves everything else to the others, and they leave it alone
  lemma TermIsApart(s: State, a: Action)
    requires Enabled(s, a)
    ensures a.Term? ==> Step(s, a).front == s.front && Step(s, a).tasks == s.tasks && Step(s, a).out == s.out
    ensures !a.Term? ==> Step(s, a).term == s.term
  {
  }

  // what was sent or pushed stays so
  lemma RecordsGrow(s: State, a: Action)
    requires Enabled(s, a)
    ensures s.out.wire <= Step(s, a).out.wire && s.front.pushed <= Step(s, a).front.pushed
  {
  }

  lemma QuietStep(s: State, a: Action)
    requires Enabled(s, a) && !HasEffect(s, a)
    ensures Quiet(s, Step(s, a))
  {
    match a
    case Call(c, op) => QuietCall(s, c, op);
    case Loop(op) => QuietLoop(s, op);
    case Task(op) => QuietTask(s, op);
    case _ =>
  }

  // ----- runs compose

  lemma {:induction false} RunThen(s: State, actions: seq<Action>, t: State, a: Action)
    requires Run(s, actions, t) && Enabled(t, a)
    ensures Run(s, actions + [a], Step(t, a))
    decreases |actions|
  {
    var longer := actions + [a];
    if actions == [] {
      assert longer[1..] == [];
    } else {
      assert longer[1..] == actions[1..] + [a];
      RunThen(Step(s, actions[0]), actions[1..], t, a);
    }
  }
}
