/** The signals on the sentChan of a request. signalRequestCorrelationSent sends on it while it
    holds rxLock, and the channel has room for one: when a second signal has to wait, whoever must
    take the first one must get there without rxLock. */
module RequestReplySignals {
  import opened ReplyDesk
  import opened RequestReplyProtocol
  import opened Wrappers
  import F = PipelineFates
  import P = Pipeline

  // the closure is past its wait for the signal
  predicate Answered(owner: Owner) {
    owner.AwaitReply? || owner.Verify? || owner.Dispatch? || owner.Closing? || owner.Returned?
  }

  // how far a request is fits how far its publish call is
  predicate Fits(call: P.CallPC, owner: Owner) {
    && (owner.Failing? || owner.Failed? ==> call.Checked? || call.Refused?)
    && (owner.AwaitSent? || Answered(owner) ==> call.Accepted?)
  }

  // the signals that there may have been or may still be for message m: one from its task, once
  // that has ended (or was withdrawn), and one from the drain
  function Due(p: P.State, m: nat): nat {
    Flag(m + P.Undecided(p.tasks.loop) < p.tasks.dequeued) + Flag(m in p.buffer.drained)
  }

  // the signals for message m that are still to be sent
  function Owed(s: State, m: nat): nat {
    Flag(s.taskOwes.Some? && s.taskOwes.value.0 == m) + Flag(s.drainOwes == Some(m))
  }

  // the signals in the channel, or taken from it as long as nothing else can end the wait
  function Used(e: Entry, completes: nat): nat {
    |e.sent.items| + Flag(completes == 0 && Answered(e.owner))
  }

  // no request gets more signals than are due, and once completion was signalled before the end of
  // Terminate, the requests that are left have no task any more
  predicate Counted(s: State, e: Entry, call: P.CallPC) {
    && (if P.HasMessage(call) then Used(e, s.desk.completes) + Owed(s, call.msg) <= Due(s.pipe, call.msg)
        else Used(e, s.desk.completes) == 0)
    && (s.desk.completes == 1 && !s.final && !Done(e.owner) && P.HasMessage(call) ==> s.pipe.tasks.dequeued <= call.msg)
  }

  predicate Linked(s: State, c: nat) {
    c in s.refs && c < |s.pipe.front.calls| && s.refs[c] < |s.desk.entries|
  }

  ghost predicate CallSound(s: State, c: nat) {
    && Linked(s, c)
    && Fits(s.pipe.front.calls[c], s.desk.entries[s.refs[c]].owner)
    && Counted(s, s.desk.entries[s.refs[c]], s.pipe.front.calls[c])
  }

  ghost predicate Links(s: State) {
    && (forall c, d :: c in s.refs && d in s.refs && c != d ==> s.refs[c] != s.refs[d])
    && (forall c :: 0 <= c < |s.pipe.front.calls| && (P.Holds(s.pipe.front.calls[c]) || P.HasMessage(s.pipe.front.calls[c])) ==>
          c in s.refs)
  }

  ghost predicate Debts(s: State) {
    && (s.desk.requested ==> s.pipe.tasks.complete)
    && (s.taskOwes.Some? ==> s.pipe.tasks.loop.Busy? && s.taskOwes.value.0 == s.pipe.tasks.loop.msg)
    && (s.drainOwes.Some? ==> s.drainOwes.value in s.pipe.buffer.drained)
  }

  ghost predicate Signals(s: State) {
    (forall c :: c in s.refs ==> CallSound(s, c)) && Links(s) && Debts(s)
  }

  ghost predicate SignalInv(s: State) {
    Inv(s) && F.Fates(s.pipe) && Signals(s)
  }

  lemma InitSignals(capacity: nat, waits: bool, firstId: nat)
    ensures SignalInv(Init(capacity, waits, firstId))
  {
    InitInv(capacity, waits, firstId);
    F.InitFates(capacity, waits);
  }

  // ----- a request that a step leaves alone, or makes easier

  ghost predicate NoHarder(s: State, t: State, m: nat) {
    Owed(t, m) + Due(s.pipe, m) <= Owed(s, m) + Due(t.pipe, m)
  }

  lemma StaysSound(s: State, t: State, c: nat)
    requires CallSound(s, c) && Linked(t, c) && t.refs[c] == s.refs[c] && t.pipe.front.calls[c] == s.pipe.front.calls[c]
    requires var e, x := s.desk.entries[s.refs[c]], t.desk.entries[t.refs[c]]; x.owner == e.owner && |x.sent.items| <= |e.sent.items|
    requires s.desk.completes <= t.desk.completes
    requires t.desk.completes == 1 && !t.final && !Done(t.desk.entries[t.refs[c]].owner) ==>
               s.desk.completes == 1 && !s.final && t.pipe.tasks.dequeued == s.pipe.tasks.dequeued
    requires P.HasMessage(t.pipe.front.calls[c]) ==> NoHarder(s, t, t.pipe.front.calls[c].msg)
    ensures CallSound(t, c)
  {
  }

  // ----- the publish path

  // what a step of the pipeline does to the debts and to what is due
  lemma TaskIsNoHarder(s: State, op: P.TaskOp, m: nat)
    requires PipeEnabled(s, P.Task(op)) && Owing(s) && P.Order(s.pipe)
    ensures NoHarder(s, PipeStep(s, P.Task(op)), m)
  {
  }

  lemma LoopIsNoHarder(s: State, op: P.LoopOp, m: nat)
    requires PipeEnabled(s, P.Loop(op)) && P.Order(s.pipe)
    ensures NoHarder(s, PipeStep(s, P.Loop(op)), m)
  {
  }

  lemma TermIsNoHarder(s: State, op: P.TermOp, m: nat)
    requires PipeEnabled(s, P.Term(op))
    requires P.Drains(s.pipe, P.Term(op)) ==> s.pipe.buffer.items[0] !in s.pipe.buffer.drained
    ensures NoHarder(s, PipeStep(s, P.Term(op)), m)
  {
  }

  // what the drain takes was not drained before
  lemma HeadIsNew(p: P.State)
    requires P.Inv(p) && F.Fates(p) && p.buffer.items != []
    ensures p.buffer.items[0] !in p.buffer.drained
  {
    P.BufferTail(p);
    assert F.Fate(p, p.buffer.items[0]);
    assert multiset(p.buffer.drained)[p.buffer.items[0]] == 0;
  }

  lemma PipeIsNoHarder(s: State, a: P.Action, m: nat)
    requires PipeEnabled(s, a) && Owing(s) && P.Inv(s.pipe) && F.Fates(s.pipe)
    ensures NoHarder(s, PipeStep(s, a), m)
  {
    if P.Drains(s.pipe, a) { HeadIsNew(s.pipe); }
    assert P.Order(s.pipe);
    hide P.Inv, F.Fates;
    match a
    case Loop(op) => LoopIsNoHarder(s, op, m);
    case Task(op) => TaskIsNoHarder(s, op, m);
    case Term(op) => TermIsNoHarder(s, op, m);
    case Call(c, op) =>
      assert P.CallStep(s.pipe, c, op).tasks.loop == s.pipe.tasks.loop && P.CallStep(s.pipe, c, op).buffer.drained == s.pipe.buffer.drained;
    case _ =>
  }

  // the call that pushes its message is owed nothing for it
  lemma PushSound(s: State, c: nat)
    requires PipeEnabled(s, P.Call(c, P.Push)) && CallSound(s, c) && s.pipe.tasks.dequeued <= |s.pipe.front.pushed|
    requires Owed(s, |s.pipe.front.pushed|) == 0
    ensures CallSound(PipeStep(s, P.Call(c, P.Push)), c)
  {
  }

  lemma MoveSound(s: State, c: nat, op: P.CallOp)
    requires PipeEnabled(s, P.Call(c, op)) && CallSound(s, c) && op != P.Push
    ensures CallSound(PipeStep(s, P.Call(c, op)), c)
  {
  }

  // nobody is told about a message that is still to come
  lemma NothingOwedAhead(s: State)
    requires P.Inv(s.pipe) && F.Fates(s.pipe) && Debts(s)
    ensures Owed(s, |s.pipe.front.pushed|) == 0 && s.pipe.tasks.dequeued <= |s.pipe.front.pushed|
  {
    assert F.Fate(s.pipe, |s.pipe.front.pushed|);
    assert multiset(s.pipe.buffer.drained)[|s.pipe.front.pushed|] == 0;
  }

  lemma CallKeepsOthers(s: State, c: nat, op: P.CallOp)
    requires PipeEnabled(s, P.Call(c, op))
    ensures var t := PipeStep(s, P.Call(c, op));
            && t.desk == s.desk && t.refs == s.refs && t.final == s.final && t.pipe.tasks.dequeued == s.pipe.tasks.dequeued
            && |t.pipe.front.calls| == |s.pipe.front.calls|
            && forall d :: 0 <= d < |s.pipe.front.calls| && d != c ==> t.pipe.front.calls[d] == s.pipe.front.calls[d]
  {
  }

  lemma CallKeepsCalls(s: State, c: nat, op: P.CallOp)
    requires SignalInv(s) && PipeEnabled(s, P.Call(c, op))
    ensures forall d :: d in s.refs ==> CallSound(PipeStep(s, P.Call(c, op)), d)
  {
    NothingOwedAhead(s);
    CallKeepsOthers(s, c, op);
    forall d | d in s.refs
      ensures CallSound(PipeStep(s, P.Call(c, op)), d)
    {
      assert CallSound(s, d);
      if d == c {
        hide Inv, F.Fates, Signals, Links, CallSound, P.CallStep;
        if op == P.Push { PushSound(s, c); } else { MoveSound(s, c, op); }
      } else {
        if P.HasMessage(s.pipe.front.calls[d]) { PipeIsNoHarder(s, P.Call(c, op), s.pipe.front.calls[d].msg); }
        hide Inv, F.Fates, Signals, Links, CallSound, PipeStep, NoHarder;
        StaysSound(s, PipeStep(s, P.Call(c, op)), d);
      }
    }
  }

  lemma OtherPipeStep(s: State, a: P.Action)
    requires PipeEnabled(s, a) && !a.Call? && P.Inv(s.pipe)
    ensures var t := PipeStep(s, a);
            && t.desk == s.desk && t.refs == s.refs && t.final == s.final && s.pipe.front.calls <= t.pipe.front.calls
            && (s.pipe.tasks.complete ==> t.pipe.tasks.dequeued == s.pipe.tasks.dequeued && t.pipe.tasks.complete)
  {
    hide P.Calls, P.Order, P.Submission, P.Tasks, P.Apart, P.Failed;
  }

  lemma PipeKeepsCalls(s: State, a: P.Action)
    requires SignalInv(s) && PipeEnabled(s, a)
    ensures forall d :: d in s.refs ==> CallSound(PipeStep(s, a), d)
  {
    if a.Call? {
      CallKeepsCalls(s, a.c, a.call);
    } else {
      OtherPipeStep(s, a);
      CompleteIsOver(s);
      forall d | d in s.refs
        ensures CallSound(PipeStep(s, a), d)
      {
        assert CallSound(s, d);
        if P.HasMessage(s.pipe.front.calls[d]) { PipeIsNoHarder(s, a, s.pipe.front.calls[d].msg); }
        hide Inv, F.Fates, Signals, Links, PipeStep, NoHarder, Counted;
        assert PipeStep(s, a).pipe.front.calls[d] == s.pipe.front.calls[d];
        hide CallSound;
        StaysSound(s, PipeStep(s, a), d);
      }
    }
  }

  // completion before the last section of Terminate is signalled after the Run loop has ended
  lemma CompleteIsOver(s: State)
    requires Waits(s) && Debts(s)
    ensures s.desk.completes > 0 && !s.final ==> s.pipe.tasks.complete
  {
  }

  lemma PipeKeepsLinks(s: State, a: P.Action)
    requires Links(s) && PipeEnabled(s, a)
    ensures Links(PipeStep(s, a))
  {
    if a.Call? {
      CallKeepsOthers(s, a.c, a.call);
    }
  }

  lemma PipeKeepsDebts(s: State, a: P.Action)
    requires Debts(s) && Owing(s) && PipeEnabled(s, a)
    ensures Debts(PipeStep(s, a))
  {
  }

  lemma PipeKeepsSignals(s: State, a: P.Action)
    requires SignalInv(s) && PipeEnabled(s, a)
    ensures Signals(PipeStep(s, a)) && F.Fates(PipeStep(s, a).pipe)
  {
    PipeKeepsCalls(s, a);
    PipeKeepsLinks(s, a);
    PipeKeepsDebts(s, a);
    F.FatesStepKeeps(s.pipe, a);
    hide Inv, F.Fates, Links, Debts, CallSound;
    assert PipeStep(s, a).refs == s.refs;
  }

  // ----- requests

  lemma CreateSound(s: State, a: Action, d: nat)
    requires a.Create? && Enabled(s, a) && (d == a.c || (d in s.refs && CallSound(s, d)))
    ensures CallSound(Step(s, a), d)
  {
    assert d != a.c ==> Step(s, a).desk.entries[s.refs[d]] == s.desk.entries[s.refs[d]];
  }

  lemma CreateKeepsLinks(s: State, a: Action)
    requires a.Create? && Enabled(s, a) && Links(s) && Debts(s) && forall d :: d in s.refs ==> s.refs[d] < |s.desk.entries|
    ensures Links(Step(s, a)) && Debts(Step(s, a))
  {
  }

  lemma CreateKeepsSignals(s: State, a: Action)
    requires SignalInv(s) && a.Create? && Enabled(s, a)
    ensures Signals(Step(s, a))
  {
    var t := Step(s, a);
    assert t.refs == s.refs[a.c := |s.desk.entries|];
    assert forall d :: d in s.refs ==> CallSound(s, d) && s.refs[d] < |s.desk.entries|;
    hide Inv, F.Fates, SignalInv, CallSound, Step, Links, Debts;
    CreateKeepsLinks(s, a);
    forall d | d in t.refs
      ensures CallSound(t, d)
    {
      CreateSound(s, a, d);
    }
  }

  // the desk after a step that changes request k only
  ghost predicate Changes(s: State, t: State, k: nat) {
    && t == s.(desk := t.desk) && k < |s.desk.entries| == |t.desk.entries| && t.desk.requested == s.desk.requested
    && (forall j :: 0 <= j < |s.desk.entries| && j != k ==> t.desk.entries[j] == s.desk.entries[j])
    && s.desk.completes <= t.desk.completes <= 1
    && (s.desk.completes < t.desk.completes ==> forall j :: 0 <= j < |t.desk.entries| ==> Done(t.desk.entries[j].owner))
  }

  lemma ChangeKeepsSignals(s: State, t: State, c: nat)
    requires Signals(s) && c in s.refs && Changes(s, t, s.refs[c]) && CallSound(t, c)
    ensures Signals(t)
  {
    forall d | d in t.refs
      ensures CallSound(t, d)
    {
      if d != c {
        assert CallSound(s, d);
        StaysSound(s, t, d);
      }
    }
  }

  lemma CloseChanges(s: State, c: nat, op: RequestOp)
    requires Inv(s) && Enabled(s, Owner(c, op)) && (op == CloseFailed || op == Close)
    ensures Changes(s, OwnerStep(s, s.refs[c], op), s.refs[c])
  {
    var k, e := s.refs[c], s.desk.entries[s.refs[c]];
    var owner := if op == Close then Returned(Found(e.owner)) else Failed;
    hide P.Inv, Waits, Owing, Honest, Valid;
    CloseReplyLeaves(s.desk, k, owner, s.final);
    CloseReplyValid(s.desk, k, owner, s.final);
    CompletesOnce(s);
    var t := s.desk.CloseReply(k, owner);
    if t.table == map[] { EmptyMeansSettled(t, s.final); }
    LeavesChanges(s, t, k);
  }

  lemma CompletesOnce(s: State)
    requires Inv(s)
    ensures s.desk.completes <= 1
  {
    hide P.Inv, Waits, Owing, Honest;
  }

  lemma LeavesChanges(s: State, t: Desk, k: nat)
    requires Leaves(s.desk, t, k) && s.desk.completes <= 1
    requires t.table == map[] ==> forall j :: 0 <= j < |t.entries| ==> Settled(t.entries[j])
    ensures Changes(s, s.(desk := t), k)
  {
  }

  lemma MoveChanges(s: State, k: nat, e: Entry)
    requires k < |s.desk.entries| && s.desk.completes <= 1
    ensures Changes(s, s.(desk := s.desk.Set(k, e)), k)
  {
  }

  lemma OwnerChanges(s: State, c: nat, op: RequestOp)
    requires Inv(s) && Enabled(s, Owner(c, op))
    ensures Changes(s, OwnerStep(s, s.refs[c], op), s.refs[c])
  {
    if op == CloseFailed || op == Close {
      CloseChanges(s, c, op);
    } else {
      CompletesOnce(s);
      hide Inv, Changes, OwnerEnabled;
      MoveChanges(s, s.refs[c], Moved(s.desk, s.desk.entries[s.refs[c]], op));
    }
  }

  // the wait for a signal ends with one, unless completion was signalled
  lemma SentClosedIsLate(s: State, c: nat)
    requires Inv(s) && Enabled(s, Owner(c, SentClosed))
    ensures s.desk.completes > 0
  {
    assert Sound(s.desk, s.refs[c], s.final);
  }

  lemma MovedCounts(s: State, c: nat, op: RequestOp)
    requires Linked(s, c) && CallSound(s, c) && OwnerEnabled(s, c, s.desk.entries[s.refs[c]], op) && op != Close && op != CloseFailed
    requires op == SentClosed ==> s.desk.completes > 0
    ensures CallSound(OwnerStep(s, s.refs[c], op), c)
  {
  }

  // what is left on the channel is swallowed
  lemma DiscardCounts(s: State, t: State, c: nat)
    requires Linked(s, c) && CallSound(s, c) && Changes(s, t, s.refs[c])
    requires var e, x := s.desk.entries[s.refs[c]], t.desk.entries[s.refs[c]];
             && |x.sent.items| <= |e.sent.items| && Answered(x.owner) == Answered(e.owner) && Done(x.owner)
             && (x.owner.Failed? ==> e.owner.Failing?)
    ensures CallSound(t, c)
  {
  }

  lemma CloseDiscards(s: State, c: nat, op: RequestOp)
    requires Inv(s) && Enabled(s, Owner(c, op)) && (op == Close || op == CloseFailed)
    ensures var k, t := s.refs[c], OwnerStep(s, s.refs[c], op);
            && k < |t.desk.entries| && |t.desk.entries[k].sent.items| <= |s.desk.entries[k].sent.items|
            && t.desk.entries[k].owner == if op == Close then Returned(Found(s.desk.entries[k].owner)) else Failed
  {
    assert Sound(s.desk, s.refs[c], s.final);
    hide P.Inv, Waits, Owing, Honest, Valid, Inv;
  }

  lemma ClosedCounts(s: State, c: nat, op: RequestOp)
    requires Linked(s, c) && CallSound(s, c) && Enabled(s, Owner(c, op)) && (op == Close || op == CloseFailed) && Inv(s)
    ensures CallSound(OwnerStep(s, s.refs[c], op), c)
  {
    CloseDiscards(s, c, op);
    CloseChanges(s, c, op);
    hide Inv, CallSound, Changes;
    DiscardCounts(s, OwnerStep(s, s.refs[c], op), c);
  }

  lemma OwnerKeepsSignals(s: State, c: nat, op: RequestOp)
    requires SignalInv(s) && Enabled(s, Owner(c, op))
    ensures Signals(OwnerStep(s, s.refs[c], op))
  {
    OwnerChanges(s, c, op);
    assert CallSound(s, c);
    if op == SentClosed { SentClosedIsLate(s, c); }
    hide Inv, F.Fates, Signals, CallSound;
    if op == Close || op == CloseFailed { ClosedCounts(s, c, op); } else { MovedCounts(s, c, op); }
    ChangeKeepsSignals(s, OwnerStep(s, s.refs[c], op), c);
  }

  // ----- signals and replies

  // the entry under the id of message m is that of the call that pushed it
  lemma EntryOf(s: State, m: nat)
    requires Valid(s.desk, s.final) && IdOf(s, m).Some? && s.desk.Holds(IdOf(s, m).value)
    ensures s.desk.table[IdOf(s, m).value] == s.refs[s.pipe.front.pushed[m]]
  {
    var j := s.desk.table[IdOf(s, m).value];
    assert s.desk.entries[j].id == s.desk.entries[s.refs[s.pipe.front.pushed[m]]].id;
  }

  // one signal less is owed for message m, and the request may have got it
  ghost predicate Given(s: State, t: State, m: nat, ok: bool) {
    && t == s.(desk := Signalled(s, m, ok), taskOwes := t.taskOwes, drainOwes := t.drainOwes)
    && (t.taskOwes == s.taskOwes || t.taskOwes == None) && (t.drainOwes == s.drainOwes || t.drainOwes == None)
    && Owed(t, m) + 1 == Owed(s, m) && forall n: nat :: n != m ==> Owed(t, n) == Owed(s, n)
  }

  lemma GivenSound(s: State, t: State, m: nat, ok: bool, c: nat)
    requires Valid(s.desk, s.final) && P.Calls(s.pipe.front) && Links(s) && Given(s, t, m, ok) && c in s.refs && CallSound(s, c)
    ensures CallSound(t, c)
  {
    if IdOf(s, m).Some? && s.desk.Holds(IdOf(s, m).value) {
      EntryOf(s, m);
      var d := s.pipe.front.pushed[m];
      assert P.HasMessage(s.pipe.front.calls[d]) && s.pipe.front.calls[d].msg == m;
    }
  }

  lemma GivenKeepsSignals(s: State, t: State, m: nat, ok: bool)
    requires SignalInv(s) && Given(s, t, m, ok)
    ensures Signals(t)
  {
    assert P.Calls(s.pipe.front) && Valid(s.desk, s.final) && Links(s) && Debts(s);
    assert forall c :: c in s.refs ==> CallSound(s, c);
    assert t.refs == s.refs;
    assert Links(t) && Debts(t) by { hide CallSound, Inv, F.Fates; }
    hide Inv, F.Fates, CallSound, Given;
    forall c | c in t.refs
      ensures CallSound(t, c)
    {
      GivenSound(s, t, m, ok, c);
    }
  }

  // a step of the desk that lets every request keep its owner, and no channel grow
  ghost predicate Gentle(s: State, t: State) {
    && t == s.(desk := t.desk, final := t.final, wait := t.wait, listening := t.listening) && |t.desk.entries| == |s.desk.entries|
    && (forall k :: 0 <= k < |s.desk.entries| ==>
          |t.desk.entries[k].sent.items| <= |s.desk.entries[k].sent.items| && t.desk.entries[k].owner == s.desk.entries[k].owner)
    && s.desk.completes <= t.desk.completes && (t.desk.completes == 1 && !t.final ==> s.desk.completes == 1 && !s.final)
    && (t.desk.requested ==> s.desk.requested || s.pipe.tasks.complete)
  }

  lemma GentleKeepsSignals(s: State, t: State)
    requires Signals(s) && Gentle(s, t)
    ensures Signals(t)
  {
    forall c | c in t.refs
      ensures CallSound(t, c)
    {
      assert CallSound(s, c);
      StaysSound(s, t, c);
    }
  }

  lemma ArriveIsGentle(s: State, r: Reply)
    ensures Gentle(s, Step(s, Arrive(r)))
  {
  }

  // ----- Terminate

  lemma EndIsGentle(s: State, op: EndOp)
    requires Inv(s) && EndEnabled(s, op)
    ensures Gentle(s, Step(s, End(op)))
  {
    CompletesOnce(s);
    if op == Request { RequestIsLate(s); }
    hide Inv;
    if op == CloseAll { CloseAllIsGentle(s.desk); }
  }

  lemma CloseAllIsGentle(d: Desk)
    ensures |d.CloseAll().entries| == |d.entries|
    ensures forall k :: 0 <= k < |d.entries| ==>
              |d.CloseAll().entries[k].sent.items| <= |d.entries[k].sent.items| && d.CloseAll().entries[k].owner == d.entries[k].owner
  {
  }

  lemma RequestIsLate(s: State)
    requires Inv(s) && EndEnabled(s, Request)
    ensures s.pipe.tasks.complete
  {
    FinalIsLate(s.pipe);
  }

  // ----- together

  lemma StepKeepsSignals(s: State, a: Action)
    requires SignalInv(s) && Enabled(s, a)
    ensures SignalInv(Step(s, a))
  {
    StepKeeps(s, a);
    hide Inv, F.Fates, Signals, Given, Gentle, Step;
    match a
    case Create(_, _, _) => CreateKeepsSignals(s, a);
    case Pipe(pa) => PipeKeepsSignals(s, pa);
    case Owner(c, op) => OwnerKeepsSignals(s, c, op);
    case TaskSignal => TaskSignalIsGiven(s); GivenKeepsSignals(s, Step(s, a), s.taskOwes.value.0, s.taskOwes.value.1);
    case DrainSignal => DrainSignalIsGiven(s); GivenKeepsSignals(s, Step(s, a), s.drainOwes.value, false);
    case Arrive(r) => ArriveIsGentle(s, r); GentleKeepsSignals(s, Step(s, a));
    case End(op) => EndIsGentle(s, op); GentleKeepsSignals(s, Step(s, a));
  }

  lemma TaskSignalIsGiven(s: State)
    requires Enabled(s, TaskSignal)
    ensures Given(s, Step(s, TaskSignal), s.taskOwes.value.0, s.taskOwes.value.1)
  {
    hide Signalled;
  }

  lemma DrainSignalIsGiven(s: State)
    requires Enabled(s, DrainSignal)
    ensures Given(s, Step(s, DrainSignal), s.drainOwes.value, false)
  {
    hide Signalled;
  }

  lemma {:induction false} RunKeepsSignals(s: State, actions: seq<Action>, t: State)
    requires SignalInv(s) && Run(s, actions, t)
    ensures SignalInv(t)
    decreases |actions|
  {
    if actions != [] {
      StepKeepsSignals(s, actions[0]);
      RunKeepsSignals(Step(s, actions[0]), actions[1..], t);
    }
  }

  // the next step of whoever must take the first signal; none of these takes rxLock
  predicate CanGoOn(s: State, c: nat) {
    || Enabled(s, Owner(c, TakeSent)) || Enabled(s, Owner(c, Accept))
    || Enabled(s, Pipe(P.Call(c, P.Probe))) || Enabled(s, Pipe(P.Call(c, P.Submit)))
  }

  // A signal for message m that finds its channel full is the second and last one for its request,
  // whose publish call has not returned yet, or whose closure has not taken the first signal: the
  // call or the closure can take its next step, and needs no rxLock for it.
  lemma WaitingSignalIsServed(capacity: nat, waits: bool, firstId: nat, actions: seq<Action>, t: State, m: nat)
    requires Run(Init(capacity, waits, firstId), actions, t) && !SignalEnabled(t, m)
    requires (t.taskOwes.Some? && t.taskOwes.value.0 == m) || t.drainOwes == Some(m)
    ensures m < |t.pipe.front.pushed| && HasRequest(t, t.pipe.front.pushed[m]) && CanGoOn(t, t.pipe.front.pushed[m])
    ensures var e := t.desk.entries[t.refs[t.pipe.front.pushed[m]]]; |e.sent.items| == 1 && (e.owner == Publishing || e.owner == AwaitSent)
  {
    InitSignals(capacity, waits, firstId);
    RunKeepsSignals(Init(capacity, waits, firstId), actions, t);
    NotFinalYet(t);
    CompleteIsOver(t);
    hide Run;
    EntryOf(t, m);
    var c := t.pipe.front.pushed[m];
    assert P.HasMessage(t.pipe.front.calls[c]) && t.pipe.front.calls[c].msg == m;
    assert CallSound(t, c) && Sound(t.desk, t.refs[c], t.final);
    hide Inv, F.Fates, Signals;
    FirstIsNotTaken(t, m, c);
  }

  lemma FirstIsNotTaken(s: State, m: nat, c: nat)
    requires CallSound(s, c) && Owed(s, m) > 0 && !s.final && s.desk.completes <= 1
    requires P.HasMessage(s.pipe.front.calls[c]) && s.pipe.front.calls[c].msg == m
    requires s.desk.entries[s.refs[c]].sent.Full() && !Done(s.desk.entries[s.refs[c]].owner)
    ensures HasRequest(s, c) && CanGoOn(s, c)
    ensures var e := s.desk.entries[s.refs[c]]; |e.sent.items| == 1 && (e.owner == Publishing || e.owner == AwaitSent)
  {
  }

  // signals are owed only before the last section of Terminate
  lemma NotFinalYet(s: State)
    requires Inv(s) && (s.taskOwes.Some? || s.drainOwes.Some?)
    ensures !s.final && s.desk.completes <= 1
  {
    FinalIsLate(s.pipe);
  }
}
