/** The life cycle of a publisher (internal/impl/publisher/message_publisher_impl.go) under any
    number of concurrent Start and Terminate calls, one atomic operation a step. An unsolicited
    termination is a Terminate call that ignores its result. */
module PublisherLifecycle {
  import opened Wrappers

  datatype Life = NotStarted | Starting | Started | Terminating | Terminated

  // What a call does next. StoreFailed to CompleteStartError is the failing path of Start.
  datatype PC =
    | LoadFirst | CheckParent | SwapToStarting | Reload | ChooseStart(seen: Life) | AwaitStart
    | StartWork | StoreStarted | CompleteStart | StoreFailed | CompleteTerminateToo | CompleteStartError
    | SwapToTerminating | LoadTerminate | SwapToTerminated(seen: Life) | ChooseTerminate(seen: Life) | AwaitTerminate
    | CompleteAtOnce | TerminateWork | StoreTerminated(failed: bool) | CompleteTerminate(failed: bool)
    | StartReturned(result: Result<(), Refusal>) | TerminateReturned(result: Result<(), Refusal>)

  datatype Refusal = IllegalState | Reported

  // A future: how often it was completed, and with an error or not. The owners record which call
  // took on the duty to complete it.
  datatype Future = Future(completes: nat, failed: bool) {
    function Complete(failed: bool): Future {
      Future(completes + 1, failed)
    }
  }

  datatype State = State(
    life: Life, calls: seq<PC>, start: Future, terminate: Future, startOwner: Option<nat>, terminateOwner: Option<nat>)

  datatype Action = NewStart | NewTerminate | Go(i: nat, choice: bool)

  function Init(): State {
    State(NotStarted, [], Future(0, false), Future(0, false), None, None)
  }

  predicate Waits(pc: PC) {
    pc.AwaitStart? || pc.AwaitTerminate?
  }

  predicate Enabled(s: State, a: Action) {
    match a
    case NewStart => true
    case NewTerminate => true
    case Go(i, _) =>
      && i < |s.calls| && !s.calls[i].StartReturned? && !s.calls[i].TerminateReturned?
      && (s.calls[i].AwaitStart? ==> s.start.completes > 0)
      && (s.calls[i].AwaitTerminate? ==> s.terminate.completes > 0)
  }

  function Outcome(f: Future): Result<(), Refusal> {
    if f.failed then Err(Reported) else Ok(())
  }

  // choice: whether the parent service runs, the start work succeeds, the termination is clean
  function Next(s: State, i: nat, choice: bool): PC
    requires i < |s.calls|
  {
    match s.calls[i]
    case LoadFirst => if s.life == NotStarted then CheckParent else ChooseStart(s.life)
    case CheckParent => if choice then SwapToStarting else StartReturned(Err(IllegalState))
    case SwapToStarting => if s.life == NotStarted then StartWork else Reload
    case Reload => ChooseStart(s.life)
    case ChooseStart(seen) =>
      if seen != Terminating && seen != Terminated then AwaitStart else StartReturned(Err(IllegalState))
    case AwaitStart => StartReturned(Outcome(s.start))
    case StartWork => if choice then StoreStarted else StoreFailed
    case StoreStarted => CompleteStart
    case CompleteStart => StartReturned(Ok(()))
    case StoreFailed => CompleteTerminateToo
    case CompleteTerminateToo => CompleteStartError
    case CompleteStartError => StartReturned(Err(Reported))
    case SwapToTerminating => if s.life == Started then TerminateWork else LoadTerminate
    case LoadTerminate => if s.life == NotStarted then SwapToTerminated(s.life) else ChooseTerminate(s.life)
    case SwapToTerminated(seen) => if s.life == NotStarted then CompleteAtOnce else ChooseTerminate(seen)
    case ChooseTerminate(seen) =>
      if seen == Terminating || seen == Terminated then AwaitTerminate else TerminateReturned(Err(IllegalState))
    case AwaitTerminate => TerminateReturned(Outcome(s.terminate))
    case CompleteAtOnce => TerminateReturned(Ok(()))
    case TerminateWork => StoreTerminated(!choice)
    case StoreTerminated(failed) => CompleteTerminate(failed)
    case CompleteTerminate(failed) => TerminateReturned(if failed then Err(Reported) else Ok(()))
    case pc => pc
  }

  // the compare-and-swap or store of the step, if it has one
  function NextLife(life: Life, pc: PC): Life {
    match pc
    case SwapToStarting => if life == NotStarted then Starting else life
    case StoreStarted => Started
    case StoreFailed => Terminated
    case SwapToTerminating => if life == Started then Terminating else life
    case SwapToTerminated(_) => if life == NotStarted then Terminated else life
    case StoreTerminated(_) => Terminated
    case _ => life
  }

  function GoStep(s: State, i: nat, choice: bool): State
    requires i < |s.calls|
  {
    var pc := s.calls[i];
    State(NextLife(s.life, pc), s.calls[i := Next(s, i, choice)],
          if pc.CompleteStart? || pc.CompleteStartError? then s.start.Complete(pc.CompleteStartError?) else s.start,
          if pc.CompleteTerminateToo? || pc.CompleteAtOnce? then s.terminate.Complete(false)
          else if pc.CompleteTerminate? then s.terminate.Complete(pc.failed) else s.terminate,
          if pc.SwapToStarting? && s.life == NotStarted then Some(i) else s.startOwner,
          if pc.StoreFailed? || (pc.SwapToTerminating? && s.life == Started) || (pc.SwapToTerminated? && s.life == NotStarted)
          then Some(i) else s.terminateOwner)
  }

  function Step(s: State, a: Action): State
    requires Enabled(s, a)
  {
    match a
    case NewStart => s.(calls := s.calls + [LoadFirst])
    case NewTerminate => s.(calls := s.calls + [SwapToTerminating])
    case Go(i, choice) => GoStep(s, i, choice)
  }

  predicate Run(s: State, actions: seq<Action>, t: State)
    decreases |actions|
  {
    if actions == [] then s == t
    else Enabled(s, actions[0]) && Run(Step(s, actions[0]), actions[1..], t)
  }

  // ----- the invariant

  // the call proceeded with the start, and has not completed startFuture yet
  predicate OwesStart(pc: PC) {
    pc.StartWork? || pc.StoreStarted? || pc.CompleteStart? || pc.StoreFailed? || pc.CompleteTerminateToo? || pc.CompleteStartError?
  }

  // the call took on the duty to complete terminateFuture
  predicate OwesTerminate(pc: PC) {
    pc.CompleteAtOnce? || pc.TerminateWork? || pc.StoreTerminated? || pc.CompleteTerminate? || pc.CompleteTerminateToo?
  }

  predicate Owned(owner: Option<nat>, i: nat) {
    owner == Some(i)
  }

  // what a call may rely on
  ghost predicate CallSound(s: State, i: nat)
    requires i < |s.calls|
  {
    var pc := s.calls[i];
    && (OwesStart(pc) ==> Owned(s.startOwner, i) && s.start.completes == 0)
    && (OwesTerminate(pc) ==> Owned(s.terminateOwner, i) && s.terminate.completes == 0)
    && (pc.StartWork? || pc.StoreStarted? || pc.StoreFailed? ==> s.life == Starting)
    && (pc.TerminateWork? || pc.StoreTerminated? ==> s.life == Terminating)
    && (pc.CompleteTerminateToo? || pc.CompleteStartError? || pc.CompleteAtOnce? || pc.CompleteTerminate? ==> s.life == Terminated)
    && (pc.AwaitStart? || (pc.ChooseStart? && (pc.seen == Starting || pc.seen == Started)) ==> s.startOwner.Some?)
    && (pc.AwaitTerminate? || (pc.ChooseTerminate? && (pc.seen == Terminating || pc.seen == Terminated)) ==> s.terminateOwner.Some?)
    && (pc.ChooseStart? ==> pc.seen != NotStarted) && (pc.Reload? ==> s.life != NotStarted)
    && (pc.SwapToTerminated? ==> pc.seen == NotStarted)
    && (pc.StartReturned? ==> Agrees(pc.result, s.start)) && (pc.TerminateReturned? ==> Agrees(pc.result, s.terminate))
  }

  // a call that reports the outcome reports that of the completed future
  predicate Agrees(result: Result<(), Refusal>, f: Future) {
    result == Err(IllegalState) || (f.completes == 1 && (result.Ok? <==> !f.failed))
  }

  // an owner is a call, and it either still owes its future or has completed it
  ghost predicate Owners(s: State) {
    && (s.life == NotStarted ==> s.startOwner == None)
    && (s.life == Starting || s.life == Started || s.life == Terminating ==> s.startOwner.Some?)
    && (s.terminateOwner.Some? <==> s.life == Terminating || s.life == Terminated)
    && (s.startOwner.Some? ==> s.startOwner.value < |s.calls|)
    && (s.terminateOwner.Some? ==> s.terminateOwner.value < |s.calls|)
    && s.start.completes == (if s.startOwner.Some? && !OwesStart(s.calls[s.startOwner.value]) then 1 else 0)
    && s.terminate.completes == (if s.terminateOwner.Some? && !OwesTerminate(s.calls[s.terminateOwner.value]) then 1 else 0)
    && (s.start.completes == 1 ==> if s.start.failed then s.life == Terminated else s.life != NotStarted && s.life != Starting)
    && (s.life == Starting ==> var pc := s.calls[s.startOwner.value]; pc.StartWork? || pc.StoreStarted? || pc.StoreFailed?)
    && (s.life == Terminating ==> var pc := s.calls[s.terminateOwner.value]; pc.TerminateWork? || pc.StoreTerminated?)
  }

  ghost predicate Inv(s: State) {
    Owners(s) && forall i :: 0 <= i < |s.calls| ==> CallSound(s, i)
  }

  // ----- every step keeps it

  lemma GoKeepsOwners(s: State, i: nat, choice: bool)
    requires Owners(s) && i < |s.calls| && CallSound(s, i) && Enabled(s, Go(i, choice))
    ensures Owners(GoStep(s, i, choice))
  {
  }

  lemma GoKeepsOwn(s: State, i: nat, choice: bool)
    requires Owners(s) && i < |s.calls| && CallSound(s, i) && Enabled(s, Go(i, choice))
    ensures CallSound(GoStep(s, i, choice), i)
  {
  }

  lemma GoKeepsOther(s: State, i: nat, choice: bool, j: nat)
    requires Owners(s) && i < |s.calls| && CallSound(s, i) && Enabled(s, Go(i, choice))
    requires j < |s.calls| && j != i && CallSound(s, j)
    ensures CallSound(GoStep(s, i, choice), j)
  {
  }

  lemma StepKeeps(s: State, a: Action)
    requires Inv(s) && Enabled(s, a)
    ensures Inv(Step(s, a))
  {
    var t := Step(s, a);
    if a.Go? {
      GoKeepsOwners(s, a.i, a.choice);
    }
    forall j | 0 <= j < |t.calls|
      ensures CallSound(t, j)
    {
      if j < |s.calls| {
        assert CallSound(s, j);
        if a.Go? {
          if j == a.i { GoKeepsOwn(s, j, a.choice); } else { GoKeepsOther(s, a.i, a.choice, j); }
        }
      }
    }
  }

  lemma {:induction false} RunKeeps(s: State, actions: seq<Action>, t: State)
    requires Inv(s) && Run(s, actions, t)
    ensures Inv(t)
    decreases |actions|
  {
    if actions != [] {
      StepKeeps(s, actions[0]);
      RunKeeps(Step(s, actions[0]), actions[1..], t);
    }
  }

  // ----- what holds in every run

  function Rank(life: Life): nat {
    match life
    case NotStarted => 0 case Starting => 1 case Started => 2 case Terminating => 3 case Terminated => 4
  }

  // The state only moves forward.
  lemma StateMovesForward(actions: seq<Action>, t: State, a: Action)
    requires Run(Init(), actions, t) && Enabled(t, a)
    ensures Rank(t.life) <= Rank(Step(t, a).life)
  {
    RunKeeps(Init(), actions, t);
    if a.Go? {
      assert CallSound(t, a.i);
    }
  }

  // A call that won the swap to Starting keeps startOwner, one that will complete
  // terminateFuture keeps terminateOwner, and neither is ever replaced: at most one start and
  // one termination proceed.
  lemma OwnersAreForever(actions: seq<Action>, t: State, a: Action)
    requires Run(Init(), actions, t) && Enabled(t, a)
    ensures t.startOwner.Some? ==> Step(t, a).startOwner == t.startOwner
    ensures t.terminateOwner.Some? ==> Step(t, a).terminateOwner == t.terminateOwner
    ensures forall i :: 0 <= i < |t.calls| && OwesStart(t.calls[i]) ==> t.startOwner == Some(i)
    ensures forall i :: 0 <= i < |t.calls| && OwesTerminate(t.calls[i]) ==> t.terminateOwner == Some(i)
  {
    RunKeeps(Init(), actions, t);
    forall i | 0 <= i < |t.calls|
      ensures OwesStart(t.calls[i]) ==> t.startOwner == Some(i)
      ensures OwesTerminate(t.calls[i]) ==> t.terminateOwner == Some(i)
    {
      assert CallSound(t, i);
    }
    if a.Go? { assert CallSound(t, a.i); }
  }

  lemma FuturesCompleteOnce(actions: seq<Action>, t: State)
    requires Run(Init(), actions, t)
    ensures t.start.completes <= 1 && t.terminate.completes <= 1
  {
    RunKeeps(Init(), actions, t);
  }

  // A call that waits for a future finds it completed, or its one owner is not waiting and can
  // take its next step towards completing it.
  lemma WaitersHaveOwners(actions: seq<Action>, t: State, i: nat)
    requires Run(Init(), actions, t) && i < |t.calls| && Waits(t.calls[i])
    ensures t.calls[i].AwaitStart? && t.start.completes == 0 ==>
              t.startOwner.Some? && t.startOwner.value < |t.calls| && OwesStart(t.calls[t.startOwner.value])
              && !Waits(t.calls[t.startOwner.value]) && Enabled(t, Go(t.startOwner.value, true))
    ensures t.calls[i].AwaitTerminate? && t.terminate.completes == 0 ==>
              t.terminateOwner.Some? && t.terminateOwner.value < |t.calls| && OwesTerminate(t.calls[t.terminateOwner.value])
              && !Waits(t.calls[t.terminateOwner.value]) && Enabled(t, Go(t.terminateOwner.value, true))
  {
    RunKeeps(Init(), actions, t);
    assert CallSound(t, i);
  }

  // All calls that report the outcome of the start report the same one, and a failed start leaves
  // the publisher terminated; likewise for the termination.
  lemma CallsAgree(actions: seq<Action>, t: State, i: nat)
    requires Run(Init(), actions, t) && i < |t.calls|
    ensures t.calls[i].StartReturned? ==> Agrees(t.calls[i].result, t.start)
    ensures t.calls[i].StartReturned? && t.calls[i].result == Err(Reported) ==> t.life == Terminated
    ensures t.calls[i].TerminateReturned? ==> Agrees(t.calls[i].result, t.terminate)
    ensures t.calls[i].TerminateReturned? && t.calls[i].result != Err(IllegalState) ==> t.life == Terminated
  {
    RunKeeps(Init(), actions, t);
    assert CallSound(t, i);
  }
}
