/** Which outcome closures of the request/reply publisher are left waiting by an unsolicited
    termination, which closes no channel and signals no completion. */
module RequestReplyStranded {
  import opened ReplyDesk
  import opened RequestReplyProtocol
  import opened RequestReplySignals
  import opened Wrappers
  import F = PipelineFates
  import P = Pipeline

  // the task of message m ended, or the drain took the message: a signal for its request
  predicate SignalArose(p: P.State, m: nat) {
    m in p.out.wire || m in p.out.failures || m in p.out.interrupted || m in p.buffer.drained
  }

  // neither the signal nor the reply has been taken by the closure
  predicate StillWaits(owner: Owner) {
    owner.Publishing? || owner.AwaitSent? || owner.AwaitReply?
  }

  // a request hears of every signal that arises, and holds the reply that it received
  predicate Hears(s: State, e: Entry, call: P.CallPC) {
    && (P.HasMessage(call) && !Done(e.owner) && s.desk.completes == 0 ==>
          (Used(e, 0) + Owed(s, call.msg) > 0 <==> SignalArose(s.pipe, call.msg)))
    && (!s.final && StillWaits(e.owner) ==> (e.received <==> e.result.items != []))
  }

  ghost predicate CallHears(s: State, c: nat) {
    Linked(s, c) && Hears(s, s.desk.entries[s.refs[c]], s.pipe.front.calls[c])
  }

  ghost predicate Hearing(s: State) {
    forall c :: c in s.refs ==> CallHears(s, c)
  }

  // ----- every step keeps it

  // nothing changes for message m, or its signal arises and is owed
  predicate Alike(s: State, t: State, m: nat) {
    || (Owed(t, m) == Owed(s, m) && SignalArose(t.pipe, m) == SignalArose(s.pipe, m))
    || (Owed(t, m) > 0 && SignalArose(t.pipe, m))
  }

  lemma StaysHearing(s: State, t: State, c: nat)
    requires CallHears(s, c) && Linked(t, c) && t.refs[c] == s.refs[c] && t.pipe.front.calls[c] == s.pipe.front.calls[c]
    requires var e, x := s.desk.entries[s.refs[c]], t.desk.entries[t.refs[c]];
             x.owner == e.owner && |x.sent.items| == |e.sent.items| && x.received == e.received && x.result == e.result
    requires (t.desk.completes == 0 ==> s.desk.completes == 0) && (!t.final ==> !s.final)
    requires P.HasMessage(t.pipe.front.calls[c]) ==> Alike(s, t, t.pipe.front.calls[c].msg)
    ensures CallHears(t, c)
  {
  }

  lemma PipeIsAlike(s: State, a: P.Action, m: nat)
    requires PipeEnabled(s, a) && Owing(s)
    ensures Alike(s, PipeStep(s, a), m)
  {
    match a
    case Call(c, op) =>
      assert P.CallStep(s.pipe, c, op).out == s.pipe.out && P.CallStep(s.pipe, c, op).buffer.drained == s.pipe.buffer.drained;
    case Task(op) => TaskIsAlike(s, op, m);
    case _ =>
  }

  lemma TaskIsAlike(s: State, op: P.TaskOp, m: nat)
    requires PipeEnabled(s, P.Task(op)) && Owing(s)
    ensures Alike(s, PipeStep(s, P.Task(op)), m)
  {
  }

  // a message that is still to come has no signal
  lemma NothingAroseAhead(s: State)
    requires P.Inv(s.pipe) && F.Fates(s.pipe)
    ensures !SignalArose(s.pipe, |s.pipe.front.pushed|)
  {
    assert F.Fate(s.pipe, |s.pipe.front.pushed|);
    assert multiset(s.pipe.buffer.drained)[|s.pipe.front.pushed|] == 0;
  }

  lemma PushHears(s: State, c: nat)
    requires PipeEnabled(s, P.Call(c, P.Push)) && CallHears(s, c) && CallSound(s, c)
    requires Owed(s, |s.pipe.front.pushed|) == 0 && !SignalArose(s.pipe, |s.pipe.front.pushed|)
    ensures CallHears(PipeStep(s, P.Call(c, P.Push)), c)
  {
  }

  lemma MoveHears(s: State, c: nat, op: P.CallOp)
    requires PipeEnabled(s, P.Call(c, op)) && CallHears(s, c) && op != P.Push
    ensures CallHears(PipeStep(s, P.Call(c, op)), c)
  {
  }

  lemma CallKeepsHearing(s: State, c: nat, op: P.CallOp)
    requires SignalInv(s) && Hearing(s) && PipeEnabled(s, P.Call(c, op))
    ensures Hearing(PipeStep(s, P.Call(c, op)))
  {
    NothingOwedAhead(s);
    NothingAroseAhead(s);
    CallKeepsOthers(s, c, op);
    hide Inv, F.Fates;
    forall d | d in s.refs
      ensures CallHears(PipeStep(s, P.Call(c, op)), d)
    {
      assert CallHears(s, d) && CallSound(s, d);
      hide SignalInv, Hearing, CallSound, P.CallStep;
      if d == c {
        hide CallHears;
        if op == P.Push { PushHears(s, c); } else { MoveHears(s, c, op); }
      } else {
        if P.HasMessage(s.pipe.front.calls[d]) { PipeIsAlike(s, P.Call(c, op), s.pipe.front.calls[d].msg); }
        hide PipeStep, Alike, Hears;
        StaysHearing(s, PipeStep(s, P.Call(c, op)), d);
      }
    }
  }

  lemma PipeKeepsHearing(s: State, a: P.Action)
    requires SignalInv(s) && Hearing(s) && PipeEnabled(s, a)
    ensures Hearing(PipeStep(s, a))
  {
    if a.Call? {
      CallKeepsHearing(s, a.c, a.call);
    } else {
      OtherPipeStep(s, a);
      hide Inv, F.Fates, SignalInv;
      forall d | d in s.refs
        ensures CallHears(PipeStep(s, a), d)
      {
        assert CallHears(s, d);
        if P.HasMessage(s.pipe.front.calls[d]) { PipeIsAlike(s, a, s.pipe.front.calls[d].msg); }
        hide PipeStep, Alike, Hears, Hearing;
        assert PipeStep(s, a).pipe.front.calls[d] == s.pipe.front.calls[d];
        StaysHearing(s, PipeStep(s, a), d);
      }
    }
  }

  lemma CreateKeepsHearing(s: State, a: Action)
    requires Hearing(s) && a.Create? && Enabled(s, a)
    ensures Hearing(Step(s, a))
  {
    var t := Step(s, a);
    forall d | d in t.refs
      ensures CallHears(t, d)
    {
      if d != a.c {
        assert CallHears(s, d);
        assert t.desk.entries[t.refs[d]] == s.desk.entries[s.refs[d]];
      }
    }
  }

  lemma ChangeKeepsHearing(s: State, t: State, c: nat)
    requires Hearing(s) && Links(s) && c in s.refs && Changes(s, t, s.refs[c]) && CallHears(t, c)
    ensures Hearing(t)
  {
    forall d | d in t.refs
      ensures CallHears(t, d)
    {
      if d != c {
        assert CallHears(s, d);
        StaysHearing(s, t, d);
      }
    }
  }

  lemma MovedHears(s: State, c: nat, op: RequestOp)
    requires CallHears(s, c) && OwnerEnabled(s, c, s.desk.entries[s.refs[c]], op) && op != Close && op != CloseFailed
    requires op == SentClosed ==> s.desk.completes > 0
    ensures CallHears(OwnerStep(s, s.refs[c], op), c)
  {
  }

  lemma ClosedHears(s: State, t: State, c: nat)
    requires Linked(s, c) && Changes(s, t, s.refs[c]) && Done(t.desk.entries[s.refs[c]].owner)
    ensures CallHears(t, c)
  {
  }

  lemma OwnerKeepsHearing(s: State, c: nat, op: RequestOp)
    requires SignalInv(s) && Hearing(s) && Enabled(s, Owner(c, op))
    ensures Hearing(OwnerStep(s, s.refs[c], op))
  {
    OwnerChanges(s, c, op);
    assert CallHears(s, c) && Links(s);
    if op == SentClosed { SentClosedIsLate(s, c); }
    if op == Close || op == CloseFailed { CloseDiscards(s, c, op); }
    hide Inv, F.Fates, SignalInv, Hearing, CallHears, Changes;
    if op == Close || op == CloseFailed {
      ClosedHears(s, OwnerStep(s, s.refs[c], op), c);
    } else {
      MovedHears(s, c, op);
    }
    ChangeKeepsHearing(s, OwnerStep(s, s.refs[c], op), c);
  }

  lemma GivenHears(s: State, t: State, m: nat, ok: bool, c: nat)
    requires Valid(s.desk, s.final) && P.Calls(s.pipe.front) && Links(s) && Given(s, t, m, ok) && c in s.refs && CallHears(s, c)
    ensures CallHears(t, c)
  {
    if IdOf(s, m).Some? {
      var d := s.pipe.front.pushed[m];
      assert P.HasMessage(s.pipe.front.calls[d]) && s.pipe.front.calls[d].msg == m;
      assert Sound(s.desk, s.refs[d], s.final);
      if s.desk.Holds(IdOf(s, m).value) { EntryOf(s, m); }
    }
  }

  lemma GivenKeepsHearing(s: State, t: State, m: nat, ok: bool)
    requires SignalInv(s) && Hearing(s) && Given(s, t, m, ok)
    ensures Hearing(t)
  {
    assert P.Calls(s.pipe.front) && Valid(s.desk, s.final) && Links(s);
    assert t.refs == s.refs;
    hide Inv, F.Fates, CallHears, Given, SignalInv;
    forall c | c in t.refs
      ensures CallHears(t, c)
    {
      GivenHears(s, t, m, ok, c);
    }
  }

  // a reply is kept by the request with its id
  lemma ArriveKeepsHearing(s: State, r: Reply)
    requires Inv(s) && Hearing(s)
    ensures Hearing(Step(s, Arrive(r)))
  {
    var t := Step(s, Arrive(r));
    forall c | c in t.refs
      ensures CallHears(t, c)
    {
      assert CallHears(s, c) && Sound(s.desk, s.refs[c], s.final);
      hide Inv, Hearing;
      ArriveHears(s, r, c);
    }
  }

  lemma ArriveHears(s: State, r: Reply, c: nat)
    requires CallHears(s, c) && Sound(s.desk, s.refs[c], s.final)
    ensures CallHears(Step(s, Arrive(r)), c)
  {
  }

  lemma EndKeepsHearing(s: State, op: EndOp)
    requires Inv(s) && Hearing(s) && EndEnabled(s, op)
    ensures Hearing(Step(s, End(op)))
  {
    CompletesOnce(s);
    hide Inv;
    var t := Step(s, End(op));
    forall c | c in t.refs
      ensures CallHears(t, c)
    {
      assert CallHears(s, c);
      if op != CloseAll { StaysHearing(s, t, c); }
    }
  }

  lemma StepKeepsHearing(s: State, a: Action)
    requires SignalInv(s) && Hearing(s) && Enabled(s, a)
    ensures Hearing(Step(s, a))
  {
    assert Inv(s);
    hide Inv, F.Fates, SignalInv, Hearing, Given, Step;
    match a
    case Create(_, _, _) => CreateKeepsHearing(s, a);
    case Pipe(pa) => PipeKeepsHearing(s, pa);
    case Owner(c, op) => OwnerKeepsHearing(s, c, op);
    case TaskSignal => TaskSignalIsGiven(s); GivenKeepsHearing(s, Step(s, a), s.taskOwes.value.0, s.taskOwes.value.1);
    case DrainSignal => DrainSignalIsGiven(s); GivenKeepsHearing(s, Step(s, a), s.drainOwes.value, false);
    case Arrive(r) => ArriveKeepsHearing(s, r);
    case End(op) => EndKeepsHearing(s, op);
  }

  lemma {:induction false} RunKeepsHearing(s: State, actions: seq<Action>, t: State)
    requires SignalInv(s) && Hearing(s) && Run(s, actions, t)
    ensures SignalInv(t) && Hearing(t)
    decreases |actions|
  {
    if actions != [] {
      StepKeepsSignals(s, actions[0]);
      StepKeepsHearing(s, actions[0]);
      RunKeepsHearing(Step(s, actions[0]), actions[1..], t);
    }
  }

  // ----- who is stranded

  // an unsolicited termination has returned and the Run loop has ended
  predicate Over(s: State) {
    s.pipe.term.pc.Gone? && s.pipe.term.unsolicited && s.pipe.tasks.loop.Finished?
  }

  predicate Waiting(s: State, c: nat) {
    HasRequest(s, c) && (s.desk.entries[s.refs[c]].owner.AwaitSent? || s.desk.entries[s.refs[c]].owner.AwaitReply?)
  }

  // some way to end its wait is open to the closure
  predicate CanProceed(s: State, c: nat) {
    || Enabled(s, Owner(c, TakeSent)) || Enabled(s, Owner(c, SentClosed)) || Enabled(s, Owner(c, SeeComplete))
    || Enabled(s, Owner(c, TakeResult)) || Enabled(s, Owner(c, ResultClosed)) || Enabled(s, Owner(c, TimeOut))
  }

  // Nothing wakes a closure that waits for its signal if its message was neither dealt with by its
  // own task nor drained, or one that waits for its reply if none has come and it has no timeout;
  // all others can proceed.
  lemma StrandedExactlyIf(capacity: nat, waits: bool, firstId: nat, actions: seq<Action>, t: State, c: nat)
    requires Run(Init(capacity, waits, firstId), actions, t) && Over(t) && Waiting(t, c)
    ensures t.pipe.front.calls[c].Accepted?
    ensures var e := t.desk.entries[t.refs[c]];
            CanProceed(t, c) <==> if e.owner.AwaitSent? then SignalArose(t.pipe, t.pipe.front.calls[c].msg) else e.timed || e.received
  {
    InitSignals(capacity, waits, firstId);
    RunKeepsHearing(Init(capacity, waits, firstId), actions, t);
    OverScene(t);
    assert CallSound(t, c) && CallHears(t, c) && Sound(t.desk, t.refs[c], t.final);
    hide Run, Inv, F.Fates, SignalInv, Hearing;
    ProceedsIfHeard(t, c);
  }

  // nothing was closed, and no signal is owed
  lemma OverScene(s: State)
    requires Inv(s) && Over(s)
    ensures s.desk.completes == 0 && !s.final && s.taskOwes == None && s.drainOwes == None
  {
    hide P.Inv, Valid, Honest;
  }

  lemma ProceedsIfHeard(s: State, c: nat)
    requires CallSound(s, c) && CallHears(s, c) && Sound(s.desk, s.refs[c], s.final) && Waiting(s, c)
    requires s.desk.completes == 0 && !s.final && s.taskOwes == None && s.drainOwes == None
    ensures s.pipe.front.calls[c].Accepted?
    ensures var e := s.desk.entries[s.refs[c]];
            CanProceed(s, c) <==> if e.owner.AwaitSent? then SignalArose(s.pipe, s.pipe.front.calls[c].msg) else e.timed || e.received
  {
  }

  // If no task popped another's message, every closure that waits for its signal can proceed.
  lemma NobodyMissesTheSignal(capacity: nat, waits: bool, firstId: nat, actions: seq<Action>, t: State, c: nat)
    requires Run(Init(capacity, waits, firstId), actions, t) && Over(t) && Waiting(t, c)
    requires t.desk.entries[t.refs[c]].owner.AwaitSent? && t.pipe.out.stray.None?
    ensures CanProceed(t, c)
  {
    StrandedExactlyIf(capacity, waits, firstId, actions, t, c);
    InitSignals(capacity, waits, firstId);
    RunKeepsSignals(Init(capacity, waits, firstId), actions, t);
    var m := t.pipe.front.calls[c].msg;
    assert t.pipe.buffer.Removed() == |t.pipe.front.pushed| && m < |t.pipe.front.pushed|;
    assert F.Fate(t.pipe, m);
    assert multiset(t.pipe.buffer.drained)[m] > 0 || F.Done(t.pipe.out, m) > 0;
  }
}
