/** The executor under any number of concurrent Submit and Terminate calls and one Run loop,
    one atomic operation a step. A task is named by the index of the Submit call that brings
    it. Who reads a lock is told by the program counters, who writes it by a field. */
module ExecutorProtocol {
  import opened Executor
  import opened Wrappers

  datatype Chan = Chan(capacity: nat, items: seq<nat>, closed: bool) {
    function Put(t: nat): Chan {
      Chan(capacity, items + [t], closed)
    }
    predicate Full() {
      |items| >= capacity
    }
  }

  // Each name says what the thread does next.
  datatype SubmitPC =
    | LockState | CheckClosed | LockRead | LoadChannel | TrySend(target: nat) | UnlockRead(sent: bool)
    | LockWrite | Retry | Grow | CloseOld(bigger: nat) | MoveTasks(bigger: nat) | Swap(bigger: nat) | SendLast | UnlockWrite
    | UnlockState(result: bool) | Returned(result: bool)
  datatype CloserPC = LockClosing | CompareAndSwap | LoadClosing | CloseChannel(target: nat) | UnlockClosing | Gone
  datatype RunnerPC =
    | RunLock | RunLoad | Receive(source: nat) | UnlockTask(task: nat) | Execute(task: nat) | UnlockEnd | Finish | Stopped

  datatype State = State(
    chans: seq<Chan>, current: nat, scale: nat, closed: bool, complete: bool,
    channelWriter: Option<nat>, stateWriter: Option<nat>,
    submitters: seq<SubmitPC>, closers: seq<CloserPC>, runner: RunnerPC,
    accepted: seq<nat>, executed: seq<nat>)

  datatype Action = NewSubmit | NewTerminate | Submitter(i: nat) | Closer(i: nat) | Runner

  // ----- who holds which lock

  predicate HoldsState(pc: SubmitPC) {
    !pc.LockState? && !pc.Returned?
  }
  predicate HoldsRead(pc: SubmitPC) {
    pc.LoadChannel? || pc.TrySend? || pc.UnlockRead?
  }
  predicate HoldsWrite(pc: SubmitPC) {
    pc.Retry? || pc.Grow? || pc.CloseOld? || pc.MoveTasks? || pc.Swap? || pc.SendLast? || pc.UnlockWrite?
  }
  predicate RunnerHolds(pc: RunnerPC) {
    pc.RunLoad? || pc.Receive? || pc.UnlockTask? || pc.UnlockEnd?
  }
  predicate CloserHolds(pc: CloserPC) {
    pc.CompareAndSwap? || pc.LoadClosing? || pc.CloseChannel? || pc.UnlockClosing?
  }
  predicate Sends(pc: SubmitPC) {
    pc.TrySend? || pc.Retry? || pc.SendLast?
  }
  predicate Resizing(pc: SubmitPC) {
    pc.CloseOld? || pc.MoveTasks? || pc.Swap?
  }
  // the closed flag was read as 0 while stateLock stayed held
  predicate PastCheck(pc: SubmitPC) {
    HoldsState(pc) && !pc.CheckClosed? && pc != UnlockState(false)
  }
  predicate Succeeded(pc: SubmitPC) {
    pc == UnlockRead(true) || pc == UnlockWrite || pc == UnlockState(true) || pc == Returned(true)
  }

  // ----- steps

  function Init(): State {
    State([Chan(DEFAULT_SIZE, [], false)], 0, DEFAULT_SIZE, false, false, None, None, [], [], RunLock, [], [])
  }

  predicate WellFormed(s: State) {
    s.current < |s.chans|
  }

  function Cur(s: State): Chan
    requires WellFormed(s)
  {
    s.chans[s.current]
  }

  predicate SubmitterEnabled(s: State, i: nat)
    requires WellFormed(s) && i < |s.submitters|
  {
    match s.submitters[i]
    case LockState => s.stateWriter == None
    case LockRead => s.channelWriter == None
    case LockWrite =>
      && s.channelWriter == None && !RunnerHolds(s.runner)
      && (forall j :: 0 <= j < |s.submitters| ==> !HoldsRead(s.submitters[j]))
    case TrySend(c) => c < |s.chans|
    case MoveTasks(n) => n < |s.chans| && (Cur(s).items == [] || !s.chans[n].Full())
    case Swap(n) => n < |s.chans|
    case SendLast => !Cur(s).Full()
    case Returned(_) => false
    case _ => true
  }

  function Goto(s: State, i: nat, pc: SubmitPC): State
    requires i < |s.submitters|
  {
    s.(submitters := s.submitters[i := pc])
  }

  // a successful send of the task of submitter i to channel c
  function Offer(s: State, i: nat, c: nat, pc: SubmitPC): State
    requires i < |s.submitters| && c < |s.chans|
  {
    Goto(s, i, pc).(chans := s.chans[c := s.chans[c].Put(i)], accepted := s.accepted + [i])
  }

  function SubmitterStep(s: State, i: nat): State
    requires WellFormed(s) && i < |s.submitters| && SubmitterEnabled(s, i)
  {
    match s.submitters[i]
    case LockState => Goto(s, i, CheckClosed)
    case CheckClosed => Goto(s, i, if s.closed then UnlockState(false) else LockRead)
    case LockRead => Goto(s, i, LoadChannel)
    case LoadChannel => Goto(s, i, TrySend(s.current))
    case TrySend(c) => if s.chans[c].Full() then Goto(s, i, UnlockRead(false)) else Offer(s, i, c, UnlockRead(true))
    case UnlockRead(sent) => Goto(s, i, if sent then UnlockState(true) else LockWrite)
    case LockWrite => Goto(s, i, Retry).(channelWriter := Some(i))
    case Retry => if Cur(s).Full() then Goto(s, i, Grow) else Offer(s, i, s.current, UnlockWrite)
    case Grow =>
      var newScale := SCALING_FACTOR * s.scale;
      Goto(s, i, CloseOld(|s.chans|)).(scale := newScale, chans := s.chans + [Chan(newScale, [], false)])
    case CloseOld(n) => Goto(s, i, MoveTasks(n)).(chans := s.chans[s.current := Cur(s).(closed := true)])
    case MoveTasks(n) => if Cur(s).items == [] then Goto(s, i, Swap(n)) else MoveOne(s, n)
    case Swap(n) => Goto(s, i, SendLast).(current := n)
    case SendLast => Offer(s, i, s.current, UnlockWrite)
    case UnlockWrite => Goto(s, i, UnlockState(true)).(channelWriter := None)
    case UnlockState(result) => Goto(s, i, Returned(result))
  }

  function MoveOne(s: State, n: nat): State
    requires WellFormed(s) && n < |s.chans| && Cur(s).items != []
  {
    var t := Cur(s).items[0];
    var drained := s.chans[s.current := Cur(s).(items := Cur(s).items[1..])];
    s.(chans := drained[n := drained[n].Put(t)])
  }

  predicate CloserEnabled(s: State, i: nat)
    requires i < |s.closers|
  {
    match s.closers[i]
    case LockClosing =>
      && s.stateWriter == None
      && (forall j :: 0 <= j < |s.submitters| ==> !HoldsState(s.submitters[j]))
    case CloseChannel(c) => c < |s.chans|
    case Gone => false
    case _ => true
  }

  function CloserStep(s: State, i: nat): State
    requires i < |s.closers| && CloserEnabled(s, i)
  {
    var goto := (pc: CloserPC) => s.(closers := s.closers[i := pc]);
    match s.closers[i]
    case LockClosing => goto(CompareAndSwap).(stateWriter := Some(i))
    case CompareAndSwap => if s.closed then goto(UnlockClosing) else goto(LoadClosing).(closed := true)
    case LoadClosing => goto(CloseChannel(s.current))
    case CloseChannel(c) => goto(UnlockClosing).(chans := s.chans[c := s.chans[c].(closed := true)])
    case UnlockClosing => goto(Gone).(stateWriter := None)
  }

  predicate RunnerEnabled(s: State) {
    match s.runner
    case RunLock => s.channelWriter == None
    case Receive(c) => c < |s.chans| && (s.chans[c].items != [] || s.chans[c].closed)
    case Stopped => false
    case _ => true
  }

  function RunnerStep(s: State): State
    requires RunnerEnabled(s)
  {
    match s.runner
    case RunLock => s.(runner := RunLoad)
    case RunLoad => s.(runner := Receive(s.current))
    case Receive(c) =>
      var items := s.chans[c].items;
      if items == [] then s.(runner := UnlockEnd)
      else s.(runner := UnlockTask(items[0]), chans := s.chans[c := s.chans[c].(items := items[1..])])
    case UnlockTask(t) => s.(runner := Execute(t))
    case Execute(t) => s.(runner := RunLock, executed := s.executed + [t])
    case UnlockEnd => s.(runner := Finish)
    case Finish => s.(runner := Stopped, complete := true)
  }

  predicate Enabled(s: State, a: Action) {
    WellFormed(s) &&
    match a
    case NewSubmit => true
    case NewTerminate => true
    case Submitter(i) => i < |s.submitters| && SubmitterEnabled(s, i)
    case Closer(i) => i < |s.closers| && CloserEnabled(s, i)
    case Runner => RunnerEnabled(s)
  }

  function Step(s: State, a: Action): State
    requires Enabled(s, a)
  {
    match a
    case NewSubmit => s.(submitters := s.submitters + [LockState])
    case NewTerminate => s.(closers := s.closers + [LockClosing])
    case Submitter(i) => SubmitterStep(s, i)
    case Closer(i) => CloserStep(s, i)
    case Runner => RunnerStep(s)
  }

  predicate Run(s: State, actions: seq<Action>, t: State)
    decreases |actions|
  {
    if actions == [] then s == t
    else Enabled(s, actions[0]) && Run(Step(s, actions[0]), actions[1..], t)
  }

  // A send to a closed channel or a second close of one panics in Go.
  predicate Panics(s: State, a: Action)
    requires Enabled(s, a)
  {
    match a
    case Submitter(i) => (
      match s.submitters[i]
      case TrySend(c) => s.chans[c].closed
      case Retry => Cur(s).closed
      case CloseOld(_) => Cur(s).closed
      case MoveTasks(n) => Cur(s).items != [] && s.chans[n].closed
      case SendLast => Cur(s).closed
      case _ => false)
    case Closer(i) => s.closers[i].CloseChannel? && s.chans[s.closers[i].target].closed
    case Runner => s.runner.Finish? && s.complete
    case _ => false
  }

  // ----- the invariant

  // what each thread may rely on, from the locks that it holds
  ghost predicate Submitters(s: State) {
    && (s.channelWriter.Some? ==> s.channelWriter.value < |s.submitters| && HoldsWrite(s.submitters[s.channelWriter.value]))
    && (forall i :: 0 <= i < |s.submitters| ==> SubmitterSound(s, i))
  }

  ghost predicate SubmitterSound(s: State, i: nat)
    requires i < |s.submitters|
  {
    var pc := s.submitters[i];
    && (HoldsWrite(pc) ==> s.channelWriter == Some(i))
    && (HoldsRead(pc) ==> s.channelWriter == None)
    && (HoldsState(pc) ==> s.stateWriter == None)
    && (PastCheck(pc) ==> !s.closed)
    && (pc == UnlockState(false) || pc == Returned(false) ==> s.closed)
    && (pc.TrySend? ==> pc.target == s.current)
  }

  ghost predicate Others(s: State) {
    && (s.stateWriter.Some? ==> s.stateWriter.value < |s.closers| && CloserHolds(s.closers[s.stateWriter.value]))
    && (forall j :: 0 <= j < |s.closers| ==>
        && (CloserHolds(s.closers[j]) ==> s.stateWriter == Some(j))
        && (s.closers[j].CloseChannel? ==> s.closers[j].target == s.current))
    && (RunnerHolds(s.runner) ==> s.channelWriter == None)
    && (s.runner.Receive? ==> s.runner.source == s.current)
  }

  // the submitter that holds channelLock for writing; LockState when there is none
  function Writer(s: State): SubmitPC {
    if s.channelWriter.Some? && s.channelWriter.value < |s.submitters| then s.submitters[s.channelWriter.value] else LockState
  }

  // closed was set, the channel is not closed yet
  predicate ClosePending(s: State) {
    s.stateWriter.Some? && s.stateWriter.value < |s.closers|
    && (s.closers[s.stateWriter.value].LoadClosing? || s.closers[s.stateWriter.value].CloseChannel?)
  }

  ghost predicate Closing(s: State)
    requires WellFormed(s)
  {
    && (ClosePending(s) ==> s.closed)
    && (Cur(s).closed <==> (s.closed && !ClosePending(s)) || Writer(s).MoveTasks? || Writer(s).Swap?)
    && (s.runner.UnlockEnd? || s.runner.Finish? || s.runner.Stopped? ==> s.closed && !ClosePending(s) && Cur(s).items == [])
    && (s.complete <==> s.runner.Stopped?)
  }

  ghost predicate Capacities(s: State)
    requires WellFormed(s)
  {
    && IsScale(s.scale)
    && |Cur(s).items| <= Cur(s).capacity
    && (!Resizing(Writer(s)) ==> Cur(s).capacity == s.scale)
    && (Resizing(Writer(s)) ==>
          var n := Writer(s).bigger;
          && n < |s.chans| && n != s.current && !s.chans[n].closed
          && s.chans[n].capacity == s.scale == SCALING_FACTOR * Cur(s).capacity
          && |s.chans[n].items| + |Cur(s).items| <= Cur(s).capacity)
    && (Writer(s).Swap? ==> Cur(s).items == [])
    && (Writer(s).SendLast? ==> SCALING_FACTOR * |Cur(s).items| <= Cur(s).capacity)
  }

  function InHand(s: State): seq<nat> {
    match s.runner
    case UnlockTask(t) => [t]
    case Execute(t) => [t]
    case _ => []
  }

  // the queue proper, also while a resize has split it over two channels
  function Contents(s: State): seq<nat>
    requires WellFormed(s)
  {
    if Resizing(Writer(s)) && Writer(s).bigger < |s.chans| then s.chans[Writer(s).bigger].items + Cur(s).items
    else Cur(s).items
  }

  ghost predicate Fifo(s: State)
    requires WellFormed(s)
  {
    s.accepted == s.executed + InHand(s) + Contents(s)
  }

  ghost predicate Results(s: State) {
    && (forall k :: 0 <= k < |s.accepted| ==> s.accepted[k] < |s.submitters|)
    && (forall k, m :: 0 <= k < m < |s.accepted| ==> s.accepted[k] != s.accepted[m])
    && (forall i :: 0 <= i < |s.submitters| ==> (i in s.accepted <==> Succeeded(s.submitters[i])))
  }

  ghost predicate Inv(s: State) {
    WellFormed(s) && Submitters(s) && Others(s) && Closing(s) && Capacities(s) && Fifo(s) && Results(s)
  }

  // ----- every step keeps it

  lemma InitInv()
    ensures Inv(Init())
  {
    assert DEFAULT_SIZE == DEFAULT_SIZE * Power2(0);
  }

  lemma SubmitterKeepsOwn(s: State, i: nat)
    requires WellFormed(s) && Submitters(s) && i < |s.submitters| && SubmitterEnabled(s, i)
    ensures SubmitterSound(SubmitterStep(s, i), i)
  {
    assert SubmitterSound(s, i);
  }

  lemma SubmitterKeepsOther(s: State, i: nat, j: nat)
    requires WellFormed(s) && Submitters(s) && i < |s.submitters| && SubmitterEnabled(s, i)
    requires j < |s.submitters| && j != i
    ensures SubmitterSound(SubmitterStep(s, i), j)
  {
    assert SubmitterSound(s, i) && SubmitterSound(s, j);
    assert SubmitterStep(s, i).submitters[j] == s.submitters[j];
  }

  lemma SubmitterKeepsLocks(s: State, i: nat)
    requires WellFormed(s) && Submitters(s) && Others(s) && i < |s.submitters| && SubmitterEnabled(s, i)
    ensures Submitters(SubmitterStep(s, i)) && Others(SubmitterStep(s, i))
  {
    var s' := SubmitterStep(s, i);
    assert SubmitterSound(s, i);
    forall j | 0 <= j < |s'.submitters|
      ensures SubmitterSound(s', j)
    {
      if j == i { SubmitterKeepsOwn(s, i); } else { SubmitterKeepsOther(s, i, j); }
    }
  }

  // The three lemmas below speak of the channels and the queue only.
  ghost predicate Queue(s: State) {
    WellFormed(s) && Closing(s) && Capacities(s) && Fifo(s)
  }

  // a step of a submitter that writes no channel
  lemma QuietStepKeepsQueue(s: State, i: nat)
    requires Queue(s) && i < |s.submitters| && SubmitterEnabled(s, i) && SubmitterSound(s, i)
    requires Submitters(s)
    requires !Sends(s.submitters[i]) && !s.submitters[i].Grow? && !Resizing(s.submitters[i])
    ensures Queue(SubmitterStep(s, i))
  {
    var s' := SubmitterStep(s, i);
    assert !Resizing(Writer(s)) ==> !Resizing(Writer(s'));
    assert Resizing(Writer(s)) ==> Writer(s') == Writer(s);
    assert Closing(s');
  }

  lemma SendStepKeepsQueue(s: State, i: nat)
    requires Queue(s) && i < |s.submitters| && SubmitterEnabled(s, i) && SubmitterSound(s, i)
    requires Submitters(s)
    requires Sends(s.submitters[i])
    ensures Queue(SubmitterStep(s, i))
  {
    var s' := SubmitterStep(s, i);
    assert !Resizing(Writer(s)) && !Resizing(Writer(s'));
    assert Closing(s');
  }

  lemma GrowKeepsQueue(s: State, i: nat)
    requires Queue(s) && i < |s.submitters| && SubmitterEnabled(s, i) && SubmitterSound(s, i)
    requires s.submitters[i].Grow? && Submitters(s)
    ensures Queue(SubmitterStep(s, i))
  {
    var s' := SubmitterStep(s, i);
    assert Writer(s) == s.submitters[i] && Writer(s') == s'.submitters[i];
    DoubledIsScale(s.scale);
    hide IsScale, Submitters, SubmitterSound;
    assert Cur(s') == Cur(s) && s'.chans[|s.chans|].items == [];
    assert Contents(s') == Contents(s);
  }

  lemma CloseOldKeepsQueue(s: State, i: nat)
    requires Queue(s) && i < |s.submitters| && SubmitterEnabled(s, i) && SubmitterSound(s, i)
    requires s.submitters[i].CloseOld? && Submitters(s)
    ensures Queue(SubmitterStep(s, i))
  {
    var s' := SubmitterStep(s, i);
    assert Writer(s) == s.submitters[i] && Writer(s') == s'.submitters[i];
  }

  lemma MoveTasksKeepsQueue(s: State, i: nat)
    requires Queue(s) && i < |s.submitters| && SubmitterEnabled(s, i) && SubmitterSound(s, i)
    requires s.submitters[i].MoveTasks? && Submitters(s)
    ensures Queue(SubmitterStep(s, i))
  {
    var s' := SubmitterStep(s, i);
    assert Writer(s) == s.submitters[i] && Writer(s') == s'.submitters[i];
    if Cur(s).items != [] {
      var n := s.submitters[i].bigger;
      assert s'.chans[n].items == s.chans[n].items + [Cur(s).items[0]] && Cur(s').items == Cur(s).items[1..];
      assert Contents(s') == Contents(s);
    }
  }

  lemma SwapKeepsQueue(s: State, i: nat)
    requires Queue(s) && i < |s.submitters| && SubmitterEnabled(s, i) && SubmitterSound(s, i)
    requires s.submitters[i].Swap? && Submitters(s)
    ensures Queue(SubmitterStep(s, i))
  {
    var s' := SubmitterStep(s, i);
    assert Writer(s) == s.submitters[i] && Writer(s') == s'.submitters[i];
  }

  lemma SubmitterKeepsQueue(s: State, i: nat)
    requires Inv(s) && i < |s.submitters| && SubmitterEnabled(s, i)
    ensures Queue(SubmitterStep(s, i))
  {
    assert SubmitterSound(s, i);
    match s.submitters[i]
    case TrySend(_) => SendStepKeepsQueue(s, i);
    case Retry => SendStepKeepsQueue(s, i);
    case SendLast => SendStepKeepsQueue(s, i);
    case Grow => GrowKeepsQueue(s, i);
    case CloseOld(_) => CloseOldKeepsQueue(s, i);
    case MoveTasks(_) => MoveTasksKeepsQueue(s, i);
    case Swap(_) => SwapKeepsQueue(s, i);
    case _ => QuietStepKeepsQueue(s, i);
  }

  lemma SubmitterChangesOnlyItself(s: State, i: nat)
    requires WellFormed(s) && i < |s.submitters| && SubmitterEnabled(s, i)
    ensures |SubmitterStep(s, i).submitters| == |s.submitters|
    ensures forall j :: 0 <= j < |s.submitters| && j != i ==> SubmitterStep(s, i).submitters[j] == s.submitters[j]
    ensures var before, after := Succeeded(s.submitters[i]), Succeeded(SubmitterStep(s, i).submitters[i]);
            SubmitterStep(s, i).accepted == (if after && !before then s.accepted + [i] else s.accepted) && (before ==> after)
  {
  }

  lemma SubmitterKeepsResults(s: State, i: nat)
    requires Results(s) && WellFormed(s) && i < |s.submitters| && SubmitterEnabled(s, i)
    ensures Results(SubmitterStep(s, i))
  {
    SubmitterChangesOnlyItself(s, i);
  }

  lemma SubmitterKeeps(s: State, i: nat)
    requires Inv(s) && i < |s.submitters| && SubmitterEnabled(s, i)
    ensures Inv(SubmitterStep(s, i))
  {
    SubmitterKeepsLocks(s, i);
    SubmitterKeepsQueue(s, i);
    SubmitterKeepsResults(s, i);
  }

  // a step that leaves the submitters alone and only ever tightens what they rely on
  lemma SubmittersUntouched(s: State, s': State)
    requires Submitters(s) && s'.submitters == s.submitters
    requires s'.channelWriter == s.channelWriter && s'.current == s.current
    requires s'.stateWriter == s.stateWriter || s'.stateWriter == None
             || forall j :: 0 <= j < |s.submitters| ==> !HoldsState(s.submitters[j])
    requires s.closed ==> s'.closed
    requires s'.closed == s.closed || forall j :: 0 <= j < |s.submitters| ==> !HoldsState(s.submitters[j])
    ensures Submitters(s')
  {
    forall j | 0 <= j < |s'.submitters|
      ensures SubmitterSound(s', j)
    {
      assert SubmitterSound(s, j);
    }
  }

  lemma CloserKeepsQueue(s: State, i: nat)
    requires Queue(s) && i < |s.closers| && CloserEnabled(s, i) && Others(s)
    requires CloserHolds(s.closers[i]) ==> !Resizing(Writer(s))
    ensures Queue(CloserStep(s, i))
  {
    var s' := CloserStep(s, i);
    assert Writer(s') == Writer(s);
    if s.closers[i].CloseChannel? {
      assert ClosePending(s) && !ClosePending(s') && s.closers[i].target == s.current;
      assert Contents(s') == Contents(s);
    } else {
      assert s'.chans == s.chans && Contents(s') == Contents(s);
    }
  }

  lemma CloserKeeps(s: State, i: nat)
    requires Inv(s) && i < |s.closers| && CloserEnabled(s, i)
    ensures Inv(CloserStep(s, i))
  {
    if CloserHolds(s.closers[i]) {
      forall j | 0 <= j < |s.submitters|
        ensures !HoldsState(s.submitters[j])
      {
        assert SubmitterSound(s, j);
      }
    }
    CloserKeepsQueue(s, i);
    SubmittersUntouched(s, CloserStep(s, i));
  }

  lemma ReceiveKeepsQueue(s: State)
    requires Queue(s) && RunnerEnabled(s) && Others(s) && s.runner.Receive?
    ensures Queue(RunnerStep(s))
  {
    var s' := RunnerStep(s);
    assert Writer(s') == Writer(s);
    assert !Resizing(Writer(s)) && s.chans[s.runner.source] == Cur(s);
  }

  lemma RunnerKeepsQueue(s: State)
    requires Queue(s) && RunnerEnabled(s) && Others(s)
    ensures Queue(RunnerStep(s))
  {
    if s.runner.Receive? {
      ReceiveKeepsQueue(s);
    } else {
      var s' := RunnerStep(s);
      assert Writer(s') == Writer(s);
      assert s'.chans == s.chans && Contents(s') == Contents(s);
    }
  }

  lemma RunnerKeeps(s: State)
    requires Inv(s) && RunnerEnabled(s)
    ensures Inv(RunnerStep(s))
  {
    RunnerKeepsQueue(s);
    SubmittersUntouched(s, RunnerStep(s));
  }

  lemma ArrivalKeepsSubmitters(s: State, a: Action)
    requires WellFormed(s) && Submitters(s) && (a == NewSubmit || a == NewTerminate)
    ensures Submitters(Step(s, a))
  {
    var s' := Step(s, a);
    forall j | 0 <= j < |s'.submitters|
      ensures SubmitterSound(s', j)
    {
      if j < |s.submitters| {
        assert SubmitterSound(s, j) && s'.submitters[j] == s.submitters[j];
      }
    }
  }

  lemma ArrivalKeeps(s: State, a: Action)
    requires Inv(s) && (a == NewSubmit || a == NewTerminate)
    ensures Inv(Step(s, a))
  {
    ArrivalKeepsSubmitters(s, a);
    assert Writer(Step(s, a)) == Writer(s);
    assert Queue(s);
  }

  lemma StepKeeps(s: State, a: Action)
    requires Inv(s) && Enabled(s, a)
    ensures Inv(Step(s, a))
  {
    match a
    case NewSubmit => ArrivalKeeps(s, a);
    case NewTerminate => ArrivalKeeps(s, a);
    case Submitter(i) => SubmitterKeeps(s, i);
    case Closer(i) => CloserKeeps(s, i);
    case Runner => RunnerKeeps(s);
  }

  lemma {:induction false} RunKeeps(s: State, actions: seq<Action>, t: State)
    requires Inv(s) && Run(s, actions, t)
    ensures Inv(t)
    decreases |actions|
  {
    if actions != [] {
      StepKeeps(s, actions[0]);
      RunKeeps(Step(s, actions[0]), actions[1..], t);
    }
  }

  // ----- what holds in every run

  // Executed tasks, the task in hand and the queue are the accepted tasks in order, however
  // often the channel was replaced; no task is accepted twice; Submit reports acceptance.
  lemma RunsAreFifo(actions: seq<Action>, t: State)
    requires Run(Init(), actions, t)
    ensures WellFormed(t) && t.accepted == t.executed + InHand(t) + Contents(t)
    ensures forall k, m :: 0 <= k < m < |t.accepted| ==> t.accepted[k] != t.accepted[m]
    ensures forall i, result :: 0 <= i < |t.submitters| && t.submitters[i] == Returned(result)
                                ==> (result <==> i in t.accepted) && (!result ==> t.closed)
  {
    InitInv();
    RunKeeps(Init(), actions, t);
    forall i, result | 0 <= i < |t.submitters| && t.submitters[i] == Returned(result)
      ensures !result ==> t.closed
    {
      assert SubmitterSound(t, i);
    }
  }

  lemma SubmitterNeverPanics(s: State, i: nat)
    requires Queue(s) && i < |s.submitters| && SubmitterEnabled(s, i) && SubmitterSound(s, i)
    requires s.channelWriter.Some? ==> s.channelWriter.value < |s.submitters| && HoldsWrite(Writer(s))
    ensures !Panics(s, Submitter(i))
  {
    if HoldsWrite(s.submitters[i]) {
      assert Writer(s) == s.submitters[i];
    }
  }

  lemma CloserNeverPanics(s: State, i: nat)
    requires Queue(s) && Submitters(s) && Others(s) && i < |s.closers| && CloserEnabled(s, i)
    ensures !Panics(s, Closer(i))
  {
    if s.channelWriter.Some? {
      assert SubmitterSound(s, s.channelWriter.value);
    }
  }

  // No send to a closed channel and no second close, in any run.
  lemma RunsNeverPanic(actions: seq<Action>, t: State, a: Action)
    requires Run(Init(), actions, t) && Enabled(t, a)
    ensures !Panics(t, a)
  {
    InitInv();
    RunKeeps(Init(), actions, t);
    if a.Submitter? {
      assert SubmitterSound(t, a.i);
      SubmitterNeverPanics(t, a.i);
    } else if a.Closer? {
      CloserNeverPanics(t, a.i);
    }
  }

  // While Run holds the read lock no resize is under way, so a closed channel that it sees
  // was closed by Terminate and is the current one.
  lemma RunSeesNoResize(actions: seq<Action>, t: State)
    requires Run(Init(), actions, t) && t.runner.Receive?
    ensures WellFormed(t) && t.runner.source == t.current
    ensures forall i :: 0 <= i < |t.submitters| ==> !HoldsWrite(t.submitters[i])
    ensures Cur(t).closed ==> t.closed
  {
    InitInv();
    RunKeeps(Init(), actions, t);
    forall i | 0 <= i < |t.submitters|
      ensures !HoldsWrite(t.submitters[i])
    {
      assert SubmitterSound(t, i);
    }
  }

  // terminateComplete closes only after every accepted task has run, and none is accepted later
  lemma CompletionMeansAllRan(actions: seq<Action>, t: State, a: Action)
    requires Run(Init(), actions, t) && t.complete && Enabled(t, a)
    ensures t.executed == t.accepted && t.closed
    ensures Step(t, a).accepted == t.accepted && Step(t, a).executed == t.executed && Step(t, a).complete
  {
    InitInv();
    RunKeeps(Init(), actions, t);
    CompleteAndEmpty(t);
    if a.Submitter? {
      assert SubmitterSound(t, a.i);
      ClosedAcceptsNothing(t, a.i);
    }
  }

  lemma CompleteAndEmpty(s: State)
    requires Queue(s) && Submitters(s) && s.complete
    ensures s.executed == s.accepted && s.closed && s.runner.Stopped?
  {
    if s.channelWriter.Some? {
      assert SubmitterSound(s, s.channelWriter.value);
    }
    assert Contents(s) == [];
  }

  lemma ClosedAcceptsNothing(s: State, i: nat)
    requires WellFormed(s) && s.closed
    requires i < |s.submitters| && SubmitterEnabled(s, i) && SubmitterSound(s, i)
    ensures var s' := SubmitterStep(s, i); s'.accepted == s.accepted && s'.executed == s.executed && s'.complete == s.complete
  {
  }

  // The scale is always 1024 * 2^k, and it is the capacity of the channel in every state but those
  // of a resize, in which it is that of the channel to come.
  lemma CapacityIsScale(actions: seq<Action>, t: State)
    requires Run(Init(), actions, t)
    ensures WellFormed(t) && IsScale(t.scale)
    ensures if Resizing(Writer(t)) then Writer(t).bigger < |t.chans| && t.chans[Writer(t).bigger].capacity == t.scale
            else Cur(t).capacity == t.scale
  {
    InitInv();
    RunKeeps(Init(), actions, t);
  }

  // Neither the transfer of a resize nor the send after it ever has to wait.
  lemma ResizeNeverBlocks(actions: seq<Action>, t: State, i: nat)
    requires Run(Init(), actions, t)
    requires i < |t.submitters| && (t.submitters[i].MoveTasks? || t.submitters[i].Swap? || t.submitters[i].SendLast?)
    ensures WellFormed(t) && SubmitterEnabled(t, i)
    ensures IsScale(t.scale)
    ensures Cur(t).capacity == if t.submitters[i].SendLast? then t.scale else t.scale / SCALING_FACTOR
  {
    InitInv();
    RunKeeps(Init(), actions, t);
    assert SubmitterSound(t, i);
  }
}
