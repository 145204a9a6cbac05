/** Connect, Disconnect and unsolicited down events of the messaging service
    (internal/impl/messaging_service_impl.go) under any number of concurrent callers, one atomic
    operation a step. */
module ServiceLifecycle {
  import opened Wrappers

  datatype Life = NotConnected | Connecting | Connected | Disconnecting | Disconnected

  // What a call, or a down event with the goroutine that it starts, does next.
  datatype PC =
    | SwapToConnecting | LoadConnect | ChooseConnect(seen: Life) | AwaitConnect
    | TransportConnect | StoreDown | StoreConnected(failed: bool) | CompleteConnect(failed: bool)
    | SwapToDisconnecting | LoadDisconnect | ChooseDisconnect(seen: Life) | AwaitDisconnect
    | TransportDisconnect | CloseTransport(failed: bool) | StoreDisconnected(failed: bool) | CompleteDisconnect(failed: bool)
    | DownSwap | DownClose | DownComplete
    | ConnectReturned(result: Result<(), Refusal>) | DisconnectReturned(result: Result<(), Refusal>) | DownReturned

  datatype Refusal = IllegalState | Reported

  // the owner is the call or event that took on the duty to complete the future
  datatype Future = Future(completes: nat, failed: bool, owner: Option<nat>) {
    function Complete(failed: bool): Future {
      Future(completes + 1, failed, owner)
    }

    function By(i: nat): Future {
      Future(completes, failed, Some(i))
    }
  }

  datatype State = State(life: Life, calls: seq<PC>, connect: Future, disconnect: Future, transportCloses: nat, down: bool)

  datatype Action = NewConnect | NewDisconnect | NewDown | Go(i: nat, choice: bool)

  function Init(): State {
    State(NotConnected, [], Future(0, false, None), Future(0, false, None), 0, false)
  }

  predicate Enabled(s: State, a: Action) {
    match a
    case NewConnect => true
    case NewDisconnect => true
    case NewDown => true
    case Go(i, _) =>
      && i < |s.calls| && !s.calls[i].ConnectReturned? && !s.calls[i].DisconnectReturned? && !s.calls[i].DownReturned?
      && (s.calls[i].AwaitConnect? ==> s.connect.completes > 0)
      && (s.calls[i].AwaitDisconnect? ==> s.disconnect.completes > 0)
  }

  function Outcome(f: Future): Result<(), Refusal> {
    if f.failed then Err(Reported) else Ok(())
  }

  // choice: whether the native operation of the step succeeds
  function Next(s: State, pc: PC, choice: bool): PC {
    match pc
    case SwapToConnecting => if s.life == NotConnected then TransportConnect else LoadConnect
    case LoadConnect => ChooseConnect(s.life)
    case ChooseConnect(seen) =>
      if seen != Disconnecting && seen != Disconnected then AwaitConnect else ConnectReturned(Err(IllegalState))
    case AwaitConnect => ConnectReturned(Outcome(s.connect))
    case TransportConnect => if choice then StoreConnected(false) else StoreDown
    case StoreDown => StoreConnected(true)
    case StoreConnected(failed) => CompleteConnect(failed)
    case CompleteConnect(failed) => ConnectReturned(if failed then Err(Reported) else Ok(()))
    case SwapToDisconnecting => if s.life == Connected then TransportDisconnect else LoadDisconnect
    case LoadDisconnect => ChooseDisconnect(s.life)
    case ChooseDisconnect(seen) =>
      if seen != NotConnected && seen != Connecting then AwaitDisconnect else DisconnectReturned(Err(IllegalState))
    case AwaitDisconnect => DisconnectReturned(Outcome(s.disconnect))
    case TransportDisconnect => CloseTransport(!choice)
    case CloseTransport(failed) => StoreDisconnected(failed)
    case StoreDisconnected(failed) => CompleteDisconnect(failed)
    case CompleteDisconnect(failed) => DisconnectReturned(if failed then Err(Reported) else Ok(()))
    case DownSwap => if s.life == Connected then DownClose else DownReturned
    case DownClose => DownComplete
    case DownComplete => DownReturned
    case _ => pc
  }

  function NextLife(life: Life, pc: PC): Life {
    match pc
    case SwapToConnecting => if life == NotConnected then Connecting else life
    case StoreConnected(_) => Connected
    case SwapToDisconnecting => if life == Connected then Disconnecting else life
    case StoreDisconnected(_) => Disconnected
    case DownSwap => if life == Connected then Disconnected else life
    case _ => life
  }

  // the step takes on the duty to close the transport and to complete disconnectFuture
  predicate Claims(life: Life, pc: PC) {
    life == Connected && (pc.SwapToDisconnecting? || pc.DownSwap?)
  }

  function GoStep(s: State, i: nat, choice: bool): State
    requires i < |s.calls|
  {
    var pc := s.calls[i];
    State(NextLife(s.life, pc), s.calls[i := Next(s, pc, choice)],
          if pc.CompleteConnect? then s.connect.Complete(pc.failed)
          else if pc.SwapToConnecting? && s.life == NotConnected then s.connect.By(i) else s.connect,
          if pc.CompleteDisconnect? then s.disconnect.Complete(pc.failed)
          else if pc.DownComplete? then s.disconnect.Complete(false)
          else if Claims(s.life, pc) then s.disconnect.By(i) else s.disconnect,
          if pc.CloseTransport? || pc.DownClose? then s.transportCloses + 1 else s.transportCloses,
          s.down || pc.StoreDown? || (pc.DownSwap? && s.life == Connected))
  }

  function Step(s: State, a: Action): State
    requires Enabled(s, a)
  {
    match a
    case NewConnect => s.(calls := s.calls + [SwapToConnecting])
    case NewDisconnect => s.(calls := s.calls + [SwapToDisconnecting])
    case NewDown => s.(calls := s.calls + [DownSwap])
    case Go(i, choice) => GoStep(s, i, choice)
  }

  predicate Run(s: State, actions: seq<Action>, t: State)
    decreases |actions|
  {
    if actions == [] then s == t
    else Enabled(s, actions[0]) && Run(Step(s, actions[0]), actions[1..], t)
  }

  // ----- the invariant

  predicate OwesConnect(pc: PC) {
    pc.TransportConnect? || pc.StoreDown? || pc.StoreConnected? || pc.CompleteConnect?
  }

  predicate OwesClose(pc: PC) {
    pc.TransportDisconnect? || pc.CloseTransport? || pc.DownClose?
  }

  predicate OwesDisconnect(pc: PC) {
    OwesClose(pc) || pc.StoreDisconnected? || pc.CompleteDisconnect? || pc.DownComplete?
  }

  ghost predicate CallSound(s: State, i: nat)
    requires i < |s.calls|
  {
    var pc := s.calls[i];
    && (OwesConnect(pc) ==> s.connect.owner == Some(i))
    && (OwesDisconnect(pc) ==> s.disconnect.owner == Some(i))
    && (pc.TransportConnect? || pc.StoreDown? || pc.StoreConnected? ==> s.life == Connecting)
    && (pc.TransportDisconnect? || pc.CloseTransport? || pc.StoreDisconnected? ==> s.life == Disconnecting)
    && (pc.CompleteDisconnect? || pc.DownClose? || pc.DownComplete? ==> s.life == Disconnected)
    && (pc.LoadConnect? || pc.AwaitConnect? || (pc.ChooseConnect? && pc.seen != Disconnecting && pc.seen != Disconnected)
        ==> s.connect.owner.Some?)
    && (pc.ChooseDisconnect? && (pc.seen == Disconnecting || pc.seen == Disconnected) ==> s.disconnect.owner.Some?)
    && (pc.AwaitDisconnect? || (pc.ChooseDisconnect? && pc.seen == Connected) ==> Reached(s.life))
    && (pc.ConnectReturned? ==> Agrees(pc.result, s.connect)) && (pc.DisconnectReturned? ==> Agrees(pc.result, s.disconnect))
  }

  // a call that reports the outcome reports that of the completed future
  predicate Agrees(result: Result<(), Refusal>, f: Future) {
    result == Err(IllegalState) || (f.completes == 1 && (result.Ok? <==> !f.failed))
  }

  // the connection attempt is over
  predicate Reached(life: Life) {
    life == Connected || life == Disconnecting || life == Disconnected
  }

  ghost predicate Owners(s: State) {
    && (s.connect.owner == None <==> s.life == NotConnected)
    && (s.disconnect.owner.Some? <==> s.life == Disconnecting || s.life == Disconnected)
    && (s.connect.owner.Some? ==> s.connect.owner.value < |s.calls|)
    && (s.disconnect.owner.Some? ==> s.disconnect.owner.value < |s.calls|)
    && s.connect.completes == (if s.connect.owner.Some? && !OwesConnect(s.calls[s.connect.owner.value]) then 1 else 0)
    && s.disconnect.completes == (if s.disconnect.owner.Some? && !OwesDisconnect(s.calls[s.disconnect.owner.value]) then 1 else 0)
    && (s.life == Disconnecting ==>
          var pc := s.calls[s.disconnect.owner.value]; pc.TransportDisconnect? || pc.CloseTransport? || pc.StoreDisconnected?)
    && s.transportCloses == (if s.disconnect.owner.Some? && !OwesClose(s.calls[s.disconnect.owner.value]) then 1 else 0)
  }

  ghost predicate Inv(s: State) {
    Owners(s) && forall i :: 0 <= i < |s.calls| ==> CallSound(s, i)
  }

  // ----- every step keeps it

  lemma GoKeepsOwners(s: State, i: nat, choice: bool)
    requires Owners(s) && i < |s.calls| && CallSound(s, i) && Enabled(s, Go(i, choice))
    ensures Owners(GoStep(s, i, choice))
  {
  }

  lemma GoKeepsOwn(s: State, i: nat, choice: bool)
    requires Owners(s) && i < |s.calls| && CallSound(s, i) && Enabled(s, Go(i, choice))
    ensures CallSound(GoStep(s, i, choice), i)
  {
  }

  lemma GoKeepsOther(s: State, i: nat, choice: bool, j: nat)
    requires Owners(s) && i < |s.calls| && CallSound(s, i) && Enabled(s, Go(i, choice))
    requires j < |s.calls| && j != i && CallSound(s, j)
    ensures CallSound(GoStep(s, i, choice), j)
  {
  }

  lemma StepKeeps(s: State, a: Action)
    requires Inv(s) && Enabled(s, a)
    ensures Inv(Step(s, a))
  {
    var t := Step(s, a);
    if a.Go? {
      GoKeepsOwners(s, a.i, a.choice);
    }
    forall j | 0 <= j < |t.calls|
      ensures CallSound(t, j)
    {
      if j < |s.calls| {
        assert CallSound(s, j);
        if a.Go? {
          if j == a.i { GoKeepsOwn(s, j, a.choice); } else { GoKeepsOther(s, a.i, a.choice, j); }
        }
      }
    }
  }

  lemma {:induction false} RunKeeps(s: State, actions: seq<Action>, t: State)
    requires Inv(s) && Run(s, actions, t)
    ensures Inv(t)
    decreases |actions|
  {
    if actions != [] {
      StepKeeps(s, actions[0]);
      RunKeeps(Step(s, actions[0]), actions[1..], t);
    }
  }

  // ----- what holds in every run

  // The transport is closed at most once, and each future is completed at most once, across
  // Connect, Disconnect and down events.
  lemma TeardownHappensOnce(actions: seq<Action>, t: State)
    requires Run(Init(), actions, t)
    ensures t.transportCloses <= 1 && t.connect.completes <= 1 && t.disconnect.completes <= 1
    ensures t.disconnect.completes == 1 ==> t.transportCloses == 1 && t.life == Disconnected
  {
    RunKeeps(Init(), actions, t);
    if t.disconnect.owner.Some? { assert CallSound(t, t.disconnect.owner.value); }
  }

  // All calls that report the outcome of the connection, or of the disconnection, report the same
  // one; a call that reports a disconnection finds the transport closed.
  lemma CallsAgree(actions: seq<Action>, t: State, i: nat)
    requires Run(Init(), actions, t) && i < |t.calls|
    ensures t.calls[i].ConnectReturned? ==> Agrees(t.calls[i].result, t.connect)
    ensures t.calls[i].DisconnectReturned? ==> Agrees(t.calls[i].result, t.disconnect)
    ensures t.calls[i].DisconnectReturned? && t.calls[i].result != Err(IllegalState) ==>
              t.life == Disconnected && t.transportCloses == 1
  {
    RunKeeps(Init(), actions, t);
    assert CallSound(t, i);
    TeardownHappensOnce(actions, t);
  }

  function Rank(life: Life): nat {
    match life
    case NotConnected => 0 case Connecting => 1 case Connected => 2 case Disconnecting => 3 case Disconnected => 4
  }

  lemma StateMovesForward(actions: seq<Action>, t: State, a: Action)
    requires Run(Init(), actions, t) && Enabled(t, a)
    ensures Rank(t.life) <= Rank(Step(t, a).life)
  {
    RunKeeps(Init(), actions, t);
    if a.Go? { assert CallSound(t, a.i); }
  }

  // the future has an owner, which does not wait for anything
  predicate Served(s: State, f: Future) {
    && f.owner.Some? && f.owner.value < |s.calls|
    && (f.completes == 0 ==> !s.calls[f.owner.value].AwaitConnect? && !s.calls[f.owner.value].AwaitDisconnect?
                             && Enabled(s, Go(f.owner.value, true)))
  }

  lemma ConnectWaitersAreServed(actions: seq<Action>, t: State, i: nat)
    requires Run(Init(), actions, t) && i < |t.calls| && t.calls[i].AwaitConnect?
    ensures Served(t, t.connect)
  {
    RunKeeps(Init(), actions, t);
    assert CallSound(t, i);
  }

  // A call that waits for disconnectFuture is left without an owner exactly while the service is
  // Connected.
  lemma DisconnectWaiterIsServed(actions: seq<Action>, t: State, i: nat)
    requires Run(Init(), actions, t) && i < |t.calls| && t.calls[i].AwaitDisconnect?
    ensures Served(t, t.disconnect) <==> t.life != Connected
  {
    RunKeeps(Init(), actions, t);
    assert CallSound(t, i);
  }

  lemma ConnectsFirst() returns (actions: seq<Action>, t: State)
    ensures Run(Init(), actions, t)
    ensures t == State(Connecting, [StoreConnected(false)], Future(0, false, Some(0)), Future(0, false, None), 0, false)
  {
    actions, t := Do([], Init(), NewConnect);
    actions, t := Do(actions, t, Go(0, true));
    assert t.calls == [TransportConnect];
    actions, t := Do(actions, t, Go(0, true));
    assert t.calls == [StoreConnected(false)];
  }

  lemma SwapFailsTooEarly() returns (actions: seq<Action>, t: State)
    ensures Run(Init(), actions, t)
    ensures t == State(Connecting, [StoreConnected(false), LoadDisconnect], Future(0, false, Some(0)), Future(0, false, None), 0, false)
  {
    actions, t := ConnectsFirst();
    actions, t := Do(actions, t, NewDisconnect);
    assert t.calls == [StoreConnected(false), SwapToDisconnecting];
    actions, t := Do(actions, t, Go(1, true));
    assert t.calls == [StoreConnected(false), LoadDisconnect];
  }

  // Such a wait happens: Disconnect fails its swap while the service is still Connecting and then
  // finds it Connected.
  lemma UnservedWaiter() returns (actions: seq<Action>, t: State)
    ensures Run(Init(), actions, t) && t.life == Connected && t.calls == [ConnectReturned(Ok(())), AwaitDisconnect]
    ensures !Served(t, t.disconnect)
  {
    actions, t := SwapFailsTooEarly();
    actions, t := Do(actions, t, Go(0, true));
    assert t.calls == [CompleteConnect(false), LoadDisconnect];
    actions, t := Do(actions, t, Go(0, true));
    actions, t := Do(actions, t, Go(1, true));
    assert t.calls == [ConnectReturned(Ok(())), ChooseDisconnect(Connected)];
    actions, t := Do(actions, t, Go(1, true));
  }

  lemma Do(actions: seq<Action>, s: State, a: Action) returns (longer: seq<Action>, t: State)
    requires Run(Init(), actions, s) && Enabled(s, a)
    ensures Run(Init(), longer, t) && t == Step(s, a)
  {
    RunThen(Init(), actions, s, a);
    longer, t := actions + [a], Step(s, a);
  }

  lemma {:induction false} RunThen(s: State, actions: seq<Action>, t: State, a: Action)
    requires Run(s, actions, t) && Enabled(t, a)
    ensures Run(s, actions + [a], Step(t, a))
    decreases |actions|
  {
    var longer := actions + [a];
    if actions == [] {
      assert longer[1..] == [];
    } else {
      assert longer[1..] == actions[1..] + [a];
      RunThen(Step(s, actions[0]), actions[1..], t, a);
    }
  }
}
