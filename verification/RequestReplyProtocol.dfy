/** The request/reply publisher with buffered backpressure: the publish path of Pipeline together
    with the correlation table of ReplyDesk, the outcome closures that wait for replies, the
    replies that arrive on the context thread, and Terminate. Each section under rxLock is one
    step; a signal that would block while it holds rxLock waits for its step instead. */
module RequestReplyProtocol {
  import opened ReplyDesk
  import opened Wrappers
  import P = Pipeline

  // how far Terminate is; asked are the requests in the table when it began to wait
  datatype WaitPC = NotAsked | Asked | Passed
  datatype Wait = Wait(pc: WaitPC, asked: set<nat>, woken: bool)

  // refs maps a publish call to its request. The send task owes a signal for the message that it
  // sent, failed to send or was interrupted with; drainQueue owes one for what it drained.
  datatype State = State(
    pipe: P.State, desk: Desk, refs: map<nat, nat>, wait: Wait,
    taskOwes: Option<(nat, bool)>, drainOwes: Option<nat>, listening: bool, final: bool)

  datatype RequestOp =
    | Fail | Refuse | CloseFailed | Accept
    | TakeSent | SentClosed | SeeComplete | TakeResult | ResultClosed | TimeOut | Check | Handle | Close
  datatype EndOp = Request | SkipWait | Wake | GiveUp | StopListening | CloseAll
  datatype Action =
    | Create(c: nat, hasHandler: bool, timed: bool) | Pipe(action: P.Action) | Owner(c: nat, op: RequestOp)
    | TaskSignal | DrainSignal | Arrive(reply: Reply) | End(end: EndOp)

  function Init(capacity: nat, waits: bool, firstId: nat): State {
    State(P.Init(capacity, waits), Empty(firstId), map[], Wait(NotAsked, {}, false), None, None, true, false)
  }

  // the correlation id under which message m was published
  function IdOf(s: State, m: nat): Option<nat> {
    if m < |s.pipe.front.pushed| && s.pipe.front.pushed[m] in s.refs && s.refs[s.pipe.front.pushed[m]] < |s.desk.entries|
    then Some(s.desk.entries[s.refs[s.pipe.front.pushed[m]]].id) else None
  }

  // ----- the publish path

  predicate Ends(op: P.TaskOp) {
    op == P.NativeOk || op == P.NativeFail || op == P.Interrupt
  }

  predicate PipeEnabled(s: State, a: P.Action) {
    && P.Enabled(s.pipe, a)
    && (a.Call? && a.call == P.Lock ==>
          a.c in s.refs && s.refs[a.c] < |s.desk.entries| && s.desk.entries[s.refs[a.c]].owner == Publishing)
    && (a.Task? && (a.task == P.Pop || a.task == P.Return) ==> s.taskOwes == None)
    && (a == P.Term(P.Next) ==>
        && (s.pipe.term.pc.Hook2? ==> s.wait.pc == Passed && !s.listening)
        && (s.pipe.term.pc.Drain? ==> s.drainOwes == None)
        && (s.pipe.term.pc.Hook3? && !s.pipe.term.unsolicited ==> s.final))
  }

  function PipeStep(s: State, a: P.Action): State
    requires P.Enabled(s.pipe, a)
  {
    s.(pipe := P.Step(s.pipe, a),
       taskOwes := if a.Task? && Ends(a.task) then Some((s.pipe.tasks.Msg(), a.task == P.NativeOk)) else s.taskOwes,
       drainOwes := if P.Drains(s.pipe, a) then Some(s.pipe.buffer.items[0]) else s.drainOwes)
  }

  // ----- signals

  predicate SignalEnabled(s: State, m: nat) {
    IdOf(s, m).Some? ==> s.desk.CanSignal(IdOf(s, m).value)
  }

  function Signalled(s: State, m: nat, ok: bool): Desk {
    if IdOf(s, m).Some? then s.desk.Signal(IdOf(s, m).value, ok) else s.desk
  }

  // ----- the rest of a publish call, and the outcome closure

  predicate OwnerEnabled(s: State, c: nat, e: Entry, op: RequestOp)
    requires c < |s.pipe.front.calls|
  {
    var call := s.pipe.front.calls[c];
    match op
    case Fail => e.owner == Publishing && call == P.Checked
    case Refuse => e.owner == Publishing && call == P.Refused
    case CloseFailed => e.owner == Failing
    case Accept => e.owner == Publishing && call.Accepted?
    case TakeSent => e.owner == AwaitSent && e.sent.items != []
    case SentClosed => e.owner == AwaitSent && e.sent.items == [] && e.sent.Closed()
    case SeeComplete => (e.owner == AwaitSent || e.owner == AwaitReply) && s.desk.completes > 0
    case TakeResult => e.owner == AwaitReply && e.result.items != []
    case ResultClosed => e.owner == AwaitReply && e.result.items == [] && e.result.Closed()
    case TimeOut => e.owner == AwaitReply && e.timed
    case Check => e.owner.Verify?
    case Handle => e.owner.Dispatch?
    case Close => e.owner.Closing?
  }

  // every step of the owner other than closeReplyCorrelation
  function Moved(d: Desk, e: Entry, op: RequestOp): Entry {
    match op
    case Fail => e.(owner := Failing)
    case Refuse => e.(owner := Failing)
    case Accept => e.(owner := AwaitSent)
    case TakeSent =>
      if e.sent.items == [] then e
      else e.(sent := e.sent.Take(), owner := if e.sent.items[0] then AwaitReply else Dispatch(None))
    case TakeResult =>
      if e.result.items == [] then e else e.(result := e.result.Take(), owner := Verify(e.result.items[0]))
    case Check => e.(owner := Dispatch(if e.owner.Verify? && e.id in d.table then Some(e.owner.got) else None))
    case Handle => e.(handled := e.hasHandler, owner := Closing(Found(e.owner)))
    case _ => e.(owner := Dispatch(None))
  }

  function OwnerStep(s: State, k: nat, op: RequestOp): State
    requires k < |s.desk.entries|
  {
    var e := s.desk.entries[k];
    if op == CloseFailed then s.(desk := s.desk.CloseReply(k, Failed))
    else if op == Close then s.(desk := s.desk.CloseReply(k, Returned(Found(e.owner))))
    else s.(desk := s.desk.Set(k, Moved(s.desk, e, op)))
  }

  // ----- Terminate

  predicate EndEnabled(s: State, op: EndOp) {
    var t := s.pipe.term;
    match op
    case Request => t.pc.Hook2? && s.wait.pc == NotAsked && !t.stopTask
    case SkipWait => t.pc.Hook2? && s.wait.pc == NotAsked && t.stopTask
    case Wake => s.wait.pc == Asked && s.desk.completes > 0
    case GiveUp => s.wait.pc == Asked && t.timed
    case StopListening => t.pc.Hook2? && s.wait.pc == Passed && s.listening
    case CloseAll => t.pc.Hook3? && !t.unsolicited && s.drainOwes == None && !s.final
  }

  function Outstanding(d: Desk): set<nat> {
    set id | id in d.table :: d.table[id]
  }

  function EndStep(s: State, op: EndOp): State
    requires EndEnabled(s, op)
  {
    match op
    case Request =>
      s.(desk := s.desk.(requested := true),
         wait := Wait(if |s.desk.table| > 0 then Asked else Passed, Outstanding(s.desk), false))
    case SkipWait => s.(wait := s.wait.(pc := Passed))
    case Wake => s.(wait := s.wait.(pc := Passed, woken := true))
    case GiveUp => s.(wait := s.wait.(pc := Passed))
    case StopListening => s.(listening := false)
    case CloseAll => s.(desk := s.desk.CloseAll(), final := true)
  }

  // ----- runs

  predicate HasRequest(s: State, c: nat) {
    c in s.refs && s.refs[c] < |s.desk.entries| && c < |s.pipe.front.calls|
  }

  predicate Enabled(s: State, a: Action) {
    match a
    case Create(c, _, _) => c < |s.pipe.front.calls| && s.pipe.front.calls[c] == P.Checked && c !in s.refs
    case Pipe(pa) => PipeEnabled(s, pa)
    case Owner(c, op) => HasRequest(s, c) && OwnerEnabled(s, c, s.desk.entries[s.refs[c]], op)
    case TaskSignal => s.taskOwes.Some? && SignalEnabled(s, s.taskOwes.value.0)
    case DrainSignal => s.drainOwes.Some? && SignalEnabled(s, s.drainOwes.value)
    case Arrive(_) => true
    case End(op) => EndEnabled(s, op)
  }

  function Step(s: State, a: Action): State
    requires Enabled(s, a)
  {
    match a
    case Create(c, hasHandler, timed) => s.(desk := s.desk.Create(hasHandler, timed), refs := s.refs[c := |s.desk.entries|])
    case Pipe(pa) => PipeStep(s, pa)
    case Owner(c, op) => OwnerStep(s, s.refs[c], op)
    case TaskSignal => s.(desk := Signalled(s, s.taskOwes.value.0, s.taskOwes.value.1), taskOwes := None)
    case DrainSignal => s.(desk := Signalled(s, s.drainOwes.value, false), drainOwes := None)
    case Arrive(r) => s.(desk := s.desk.HandleReply(r))
    case End(op) => EndStep(s, op)
  }

  predicate Run(s: State, actions: seq<Action>, t: State)
    decreases |actions|
  {
    if actions == [] then s == t
    else Enabled(s, actions[0]) && Run(Step(s, actions[0]), actions[1..], t)
  }

  // A send on a closed sentChan and a second close of a channel panic in Go.
  predicate Panics(s: State, a: Action)
    requires Enabled(s, a)
  {
    match a
    case TaskSignal => SignalsClosed(s, s.taskOwes.value.0)
    case DrainSignal => SignalsClosed(s, s.drainOwes.value)
    case End(Request) => s.desk.requested
    case End(CloseAll) => exists k :: 0 <= k < |s.desk.entries| && s.desk.Pending(k) && s.desk.entries[k].result.Closed()
    case _ => false
  }

  predicate SignalsClosed(s: State, m: nat) {
    IdOf(s, m).Some? && s.desk.Holds(IdOf(s, m).value) && s.desk.entries[s.desk.table[IdOf(s, m).value]].sent.Closed()
  }

  // ----- the invariant

  // the signals still owed belong to phases in which no channel has been closed by Terminate
  ghost predicate Owing(s: State) {
    var t := s.pipe.term;
    && (s.taskOwes.Some? ==> s.pipe.tasks.loop.Busy? && (s.pipe.tasks.loop.stage.Popping? || s.pipe.tasks.loop.stage.Ending?))
    && (s.drainOwes.Some? ==> t.pc.Drain?)
    && (s.final ==> !t.unsolicited && (t.pc.Hook3? || t.pc.Gone?) && s.desk.completes == 1)
    && (t.pc.Gone? && !t.unsolicited ==> s.final)
  }

  // what a request that left the table has behind it
  predicate Settled(e: Entry) {
    e.owner.Failed? || (e.owner.Returned? && e.handled == e.hasHandler)
  }

  ghost predicate Waits(s: State) {
    var w, d := s.wait, s.desk;
    && (forall k :: k in w.asked ==> k < |d.entries|)
    && (!d.requested ==> w.asked == {} && w.pc != Asked && (!s.final ==> d.completes == 0))
    && (d.requested ==> w.pc != NotAsked && !s.pipe.term.unsolicited && !s.pipe.term.pc.Idle?)
    && (w.pc == Asked ==> s.pipe.term.pc.Hook2? && !s.final && (d.table == map[] ==> d.completes == 1))
    && (d.completes == 1 && !s.final ==> forall k :: k in w.asked ==> Settled(d.entries[k]))
    && (w.woken ==> forall k :: k in w.asked ==> Settled(d.entries[k]))
  }

  // the request was told that its message went out, and acts on it
  predicate Confirmed(e: Entry) {
    true in e.sent.items || e.owner.AwaitReply? || Found(e.owner).Some?
  }

  // the message of request k was sent natively
  ghost predicate SentFor(s: State, k: nat) {
    exists m :: m in s.pipe.out.wire && m < |s.pipe.front.pushed| && s.pipe.front.pushed[m] in s.refs && s.refs[s.pipe.front.pushed[m]] == k
  }

  ghost predicate Honest(s: State) {
    && (s.taskOwes.Some? && s.taskOwes.value.1 ==>
          s.taskOwes.value.0 in s.pipe.out.wire && s.taskOwes.value.0 < |s.pipe.front.pushed|)
    && (forall k :: 0 <= k < |s.desk.entries| && Confirmed(s.desk.entries[k]) ==> SentFor(s, k))
  }

  ghost predicate Inv(s: State) {
    P.Inv(s.pipe) && Valid(s.desk, s.final) && Owing(s) && Waits(s) && Honest(s)
  }

  // ----- every step keeps it

  lemma InitInv(capacity: nat, waits: bool, firstId: nat)
    ensures Inv(Init(capacity, waits, firstId))
  {
    P.InitInv(capacity, waits);
  }

  lemma FinalIsLate(p: P.State)
    requires P.Inv(p)
    ensures p.tasks.loop.Busy? && !p.term.unsolicited ==> !p.term.pc.Hook3? && !p.term.pc.Gone?
    ensures p.term.pc.Hook2? ==> !p.term.unsolicited
  {
  }

  lemma PipeKeepsOwing(s: State, a: P.Action)
    requires PipeEnabled(s, a) && Owing(s) && P.Signals(s.pipe.term)
    ensures Owing(PipeStep(s, a))
  {
  }

  lemma PipeKeepsWaits(s: State, a: P.Action)
    requires PipeEnabled(s, a) && Waits(s) && P.Signals(s.pipe.term)
    ensures Waits(PipeStep(s, a))
  {
    P.TermIsApart(s.pipe, a);
  }

  lemma SentStaysSent(s: State, t: State, k: nat)
    requires SentFor(s, k) && s.pipe.out.wire <= t.pipe.out.wire && s.pipe.front.pushed <= t.pipe.front.pushed
    requires forall c :: c in s.refs ==> c in t.refs && t.refs[c] == s.refs[c]
    ensures SentFor(t, k)
  {
    var m :| m in s.pipe.out.wire && m < |s.pipe.front.pushed| && s.pipe.front.pushed[m] in s.refs && s.refs[s.pipe.front.pushed[m]] == k;
    assert m in t.pipe.out.wire && t.pipe.front.pushed[m] == s.pipe.front.pushed[m];
  }

  lemma BusyIsPushed(p: P.State)
    requires P.Inv(p)
    ensures p.tasks.loop.Busy? ==> p.tasks.loop.msg < |p.front.pushed|
  {
  }

  lemma PipeKeepsHonest(s: State, a: P.Action)
    requires PipeEnabled(s, a) && Honest(s) && P.Inv(s.pipe)
    ensures Honest(PipeStep(s, a))
  {
    BusyIsPushed(s.pipe);
    P.RecordsGrow(s.pipe, a);
    hide P.Inv;
    var t := PipeStep(s, a);
    forall k | 0 <= k < |t.desk.entries| && Confirmed(t.desk.entries[k])
      ensures SentFor(t, k)
    {
      SentStaysSent(s, t, k);
    }
  }

  lemma PipeKeeps(s: State, a: P.Action)
    requires Inv(s) && PipeEnabled(s, a)
    ensures Inv(PipeStep(s, a))
  {
    P.StepKeeps(s.pipe, a);
    PipeKeepsOwing(s, a);
    PipeKeepsWaits(s, a);
    PipeKeepsHonest(s, a);
  }

  lemma CreateKeeps(s: State, a: Action)
    requires Inv(s) && a.Create? && Enabled(s, a)
    ensures Inv(Step(s, a))
  {
    CreateValid(s.desk, a.hasHandler, a.timed, s.final);
    var d := Step(s, a).desk;
    assert forall k :: 0 <= k < |s.desk.entries| ==> d.entries[k] == s.desk.entries[k];
    assert s.desk.nextId in d.table;
    CreateKeepsHonest(s, a);
  }

  lemma CreateKeepsHonest(s: State, a: Action)
    requires Honest(s) && a.Create? && Enabled(s, a)
    ensures Honest(Step(s, a))
  {
    var t := Step(s, a);
    forall k | 0 <= k < |t.desk.entries| && Confirmed(t.desk.entries[k])
      ensures SentFor(t, k)
    {
      assert k < |s.desk.entries| ==> t.desk.entries[k] == s.desk.entries[k];
      SentStaysSent(s, t, k);
    }
  }

  // a step of the desk confirms nothing new, except what was sent
  lemma DeskKeepsHonest(s: State, t: State)
    requires Honest(s) && t.pipe == s.pipe && t.refs == s.refs && (t.taskOwes == s.taskOwes || t.taskOwes == None)
    requires |t.desk.entries| == |s.desk.entries|
    requires forall k :: 0 <= k < |t.desk.entries| && Confirmed(t.desk.entries[k]) ==> Confirmed(s.desk.entries[k]) || SentFor(s, k)
    ensures Honest(t)
  {
    forall k | 0 <= k < |t.desk.entries| && Confirmed(t.desk.entries[k])
      ensures SentFor(t, k)
    {
      assert SentFor(s, k);
      SentStaysSent(s, t, k);
    }
  }

  lemma SignalConfirms(s: State, m: nat, ok: bool)
    requires Valid(s.desk, false) && (ok ==> m in s.pipe.out.wire && m < |s.pipe.front.pushed|)
    ensures var d := Signalled(s, m, ok);
            |d.entries| == |s.desk.entries|
            && forall k :: 0 <= k < |d.entries| && Confirmed(d.entries[k]) ==> Confirmed(s.desk.entries[k]) || SentFor(s, k)
  {
    if IdOf(s, m).Some? && s.desk.Holds(IdOf(s, m).value) {
      var j := s.desk.table[IdOf(s, m).value];
      assert s.desk.entries[j].id == s.desk.entries[s.refs[s.pipe.front.pushed[m]]].id;
      assert j == s.refs[s.pipe.front.pushed[m]];
      assert ok ==> SentFor(s, j);
    }
  }

  lemma MovedConfirms(d: Desk, e: Entry, op: RequestOp)
    requires op != Close && op != CloseFailed && (op == TakeResult ==> e.owner == AwaitReply)
    requires op == Handle ==> e.owner.Dispatch?
    ensures Confirmed(Moved(d, e, op)) ==> Confirmed(e)
  {
  }

  lemma CloseAllConfirms(d: Desk)
    ensures |d.CloseAll().entries| == |d.entries|
    ensures forall k :: 0 <= k < |d.entries| && Confirmed(d.CloseAll().entries[k]) ==> Confirmed(d.entries[k])
  {
  }

  // a step of the desk that touches one request and no more than its channels or its owner
  lemma SetKeepsWaits(s: State, k: nat, e: Entry)
    requires Waits(s) && k < |s.desk.entries| && (Settled(s.desk.entries[k]) ==> Settled(e))
    ensures Waits(s.(desk := s.desk.Set(k, e)))
  {
  }

  lemma SignalKeeps(s: State, m: nat, ok: bool)
    requires Inv(s) && !s.final
    ensures Valid(Signalled(s, m, ok), false) && Waits(s.(desk := Signalled(s, m, ok)))
    ensures Signalled(s, m, ok).completes == s.desk.completes && !SignalsClosed(s, m)
  {
    if IdOf(s, m).Some? {
      var id := IdOf(s, m).value;
      SignalValid(s.desk, id, ok);
      if s.desk.Holds(id) { SetKeepsWaits(s, s.desk.table[id], Signalled(s, m, ok).entries[s.desk.table[id]]); }
    }
  }

  lemma ArriveKeeps(s: State, r: Reply)
    requires Inv(s)
    ensures Inv(s.(desk := s.desk.HandleReply(r)))
  {
    ReplyValid(s.desk, r, s.final);
    if s.desk.Holds(r.id) {
      SetKeepsWaits(s, s.desk.table[r.id], s.desk.HandleReply(r).entries[s.desk.table[r.id]]);
    }
    DeskKeepsHonest(s, s.(desk := s.desk.HandleReply(r)));
  }

  lemma TakenSound(d: Desk, k: nat, op: RequestOp, final: bool, e: Entry)
    requires k < |d.entries| && Sound(d, k, final) && !Done(d.entries[k].owner) && e == Moved(d, d.entries[k], op)
    requires op == TakeSent || (op == TakeResult && d.entries[k].result.items != [])
    ensures Sound(d.Set(k, e), k, final) && e.id == d.entries[k].id
  {
  }

  lemma MovedSound(d: Desk, k: nat, op: RequestOp, final: bool, e: Entry)
    requires k < |d.entries| && Sound(d, k, final) && !Done(d.entries[k].owner) && e == Moved(d, d.entries[k], op)
    requires op == TakeResult ==> d.entries[k].result.items != []
    requires op != Close && op != CloseFailed && (op == Handle ==> d.entries[k].owner.Dispatch?)
    ensures Sound(d.Set(k, e), k, final) && e.id == d.entries[k].id
  {
    if op == TakeSent || op == TakeResult {
      TakenSound(d, k, op, final, e);
    } else {
      assert e == d.entries[k].(owner := e.owner, handled := e.handled);
    }
  }

  lemma EmptyMeansSettled(d: Desk, final: bool)
    requires Valid(d, final) && d.table == map[]
    ensures forall j :: 0 <= j < |d.entries| ==> Settled(d.entries[j])
  {
    forall j | 0 <= j < |d.entries|
      ensures Settled(d.entries[j])
    {
      assert Sound(d, j, final);
    }
  }

  // request k leaves the table, and completion is signalled if that was asked for and it is the last
  ghost predicate Leaves(d: Desk, t: Desk, k: nat) {
    && k < |d.entries| == |t.entries| && (forall j :: 0 <= j < |d.entries| && j != k ==> t.entries[j] == d.entries[j])
    && t.requested == d.requested && t.completes <= 1
    && t.completes == (if d.requested && t.table == map[] && d.completes == 0 then 1 else d.completes)
  }

  lemma CloseReplyLeaves(d: Desk, k: nat, owner: Owner, final: bool)
    requires Valid(d, final) && k < |d.entries| && !Done(d.entries[k].owner)
    requires owner == Failed || (d.entries[k].owner.Closing? && owner == Returned(d.entries[k].owner.found))
    ensures Leaves(d, d.CloseReply(k, owner), k)
  {
    assert Sound(d, k, final);
    var left := d.table - {d.entries[k].id};
    assert |left| == 0 <==> left == map[];
    CloseReplyValid(d, k, owner, final);
  }

  lemma LeavingKeepsWaits(s: State, t: Desk, k: nat)
    requires Waits(s) && Leaves(s.desk, t, k) && !Done(s.desk.entries[k].owner)
    requires t.table == map[] ==> forall j :: 0 <= j < |t.entries| ==> Settled(t.entries[j])
    ensures Waits(s.(desk := t))
  {
  }

  lemma CloseReplyKeeps(s: State, k: nat, owner: Owner)
    requires Inv(s) && k < |s.desk.entries| && !Done(s.desk.entries[k].owner)
    requires owner == Failed || (s.desk.entries[k].owner.Closing? && owner == Returned(s.desk.entries[k].owner.found))
    ensures Inv(s.(desk := s.desk.CloseReply(k, owner)))
  {
    hide P.Inv, Waits, Leaves;
    var t := s.desk.CloseReply(k, owner);
    CloseReplyValid(s.desk, k, owner, s.final);
    CloseReplyLeaves(s.desk, k, owner, s.final);
    if t.table == map[] { EmptyMeansSettled(t, s.final); }
    LeavingKeepsWaits(s, t, k);
    if s.final { LeavesKeepsOne(s.desk, t, k); }
    CloseConfirms(s.desk, k, owner, s.final);
    DeskKeepsHonest(s, s.(desk := t));
  }

  lemma CloseConfirms(d: Desk, k: nat, owner: Owner, final: bool)
    requires Valid(d, final) && k < |d.entries| && !Done(d.entries[k].owner)
    requires owner == Failed || (d.entries[k].owner.Closing? && owner == Returned(d.entries[k].owner.found))
    ensures |d.CloseReply(k, owner).entries| == |d.entries|
    ensures forall j :: 0 <= j < |d.entries| && Confirmed(d.CloseReply(k, owner).entries[j]) ==> Confirmed(d.entries[j])
  {
    assert Sound(d, k, final);
    CloseReplyValid(d, k, owner, final);
  }

  lemma LeavesKeepsOne(d: Desk, t: Desk, k: nat)
    requires Leaves(d, t, k) && d.completes == 1
    ensures t.completes == 1
  {
  }

  lemma OwnerMoves(s: State, k: nat, op: RequestOp)
    requires Inv(s) && k < |s.desk.entries| && !Done(s.desk.entries[k].owner) && op != Close && op != CloseFailed
    requires op == TakeResult ==> s.desk.entries[k].owner == AwaitReply && s.desk.entries[k].result.items != []
    requires op == Handle ==> s.desk.entries[k].owner.Dispatch?
    ensures Inv(OwnerStep(s, k, op))
  {
    hide P.Inv, Owing, Waits, Honest;
    var e := s.desk.entries[k];
    assert Sound(s.desk, k, s.final);
    MovedSound(s.desk, k, op, s.final, Moved(s.desk, e, op));
    SetValid(s.desk, k, Moved(s.desk, e, op), s.final);
    SetKeepsWaits(s, k, Moved(s.desk, e, op));
    MovedConfirms(s.desk, e, op);
    DeskKeepsHonest(s, OwnerStep(s, k, op));
    OwingIgnoresEntries(s, s.desk.Set(k, Moved(s.desk, e, op)));
  }

  lemma OwingIgnoresEntries(s: State, d: Desk)
    requires Owing(s) && d.completes == s.desk.completes
    ensures Owing(s.(desk := d))
  {
  }

  lemma OwnerKeeps(s: State, c: nat, op: RequestOp)
    requires Inv(s) && Enabled(s, Owner(c, op))
    ensures Inv(OwnerStep(s, s.refs[c], op))
  {
    hide P.Inv, Valid, Owing, Waits, Honest;
    var k := s.refs[c];
    if op == CloseFailed {
      CloseReplyKeeps(s, k, Failed);
    } else if op == Close {
      CloseReplyKeeps(s, k, Returned(Found(s.desk.entries[k].owner)));
    } else {
      OwnerMoves(s, k, op);
    }
  }

  lemma CloseAllKeeps(s: State)
    requires Inv(s) && EndEnabled(s, CloseAll)
    ensures Inv(EndStep(s, CloseAll))
  {
    hide P.Inv;
    CloseAllValid(s.desk);
    var d := s.desk.CloseAll();
    assert forall k :: 0 <= k < |s.desk.entries| ==> d.entries[k].owner == s.desk.entries[k].owner
                                                     && d.entries[k].handled == s.desk.entries[k].handled;
    CloseAllConfirms(s.desk);
    DeskKeepsHonest(s, EndStep(s, CloseAll));
  }

  lemma RequestKeeps(s: State)
    requires Inv(s) && EndEnabled(s, Request)
    ensures Inv(EndStep(s, Request)) && !s.desk.requested
  {
    FinalIsLate(s.pipe);
    hide P.Inv;
    var t := EndStep(s, Request);
    forall k | 0 <= k < |t.desk.entries|
      ensures Sound(t.desk, k, t.final)
    {
      assert Sound(s.desk, k, s.final);
    }
  }

  lemma EndKeeps(s: State, op: EndOp)
    requires Inv(s) && EndEnabled(s, op)
    ensures Inv(EndStep(s, op))
  {
    match op
    case CloseAll => CloseAllKeeps(s);
    case Request => RequestKeeps(s);
    case _ => assert Waits(EndStep(s, op));
  }

  lemma StepKeeps(s: State, a: Action)
    requires Inv(s) && Enabled(s, a)
    ensures Inv(Step(s, a))
  {
    match a
    case Create(_, _, _) => CreateKeeps(s, a);
    case Pipe(pa) => PipeKeeps(s, pa);
    case Owner(c, op) => OwnerKeeps(s, c, op);
    case TaskSignal => TaskSignalKeeps(s);
    case DrainSignal => DrainSignalKeeps(s);
    case Arrive(r) => ArriveKeeps(s, r);
    case End(op) => EndKeeps(s, op);
  }

  lemma TaskSignalKeeps(s: State)
    requires Inv(s) && Enabled(s, TaskSignal)
    ensures Inv(Step(s, TaskSignal))
  {
    FinalIsLate(s.pipe);
    hide P.Inv;
    SignalKeeps(s, s.taskOwes.value.0, s.taskOwes.value.1);
    SignalConfirms(s, s.taskOwes.value.0, s.taskOwes.value.1);
    DeskKeepsHonest(s, Step(s, TaskSignal));
  }

  lemma DrainSignalKeeps(s: State)
    requires Inv(s) && Enabled(s, DrainSignal)
    ensures Inv(Step(s, DrainSignal))
  {
    hide P.Inv;
    SignalKeeps(s, s.drainOwes.value, false);
    SignalConfirms(s, s.drainOwes.value, false);
    DeskKeepsHonest(s, Step(s, DrainSignal));
  }

  lemma {:induction false} RunKeeps(s: State, actions: seq<Action>, t: State)
    requires Inv(s) && Run(s, actions, t)
    ensures Inv(t)
    decreases |actions|
  {
    if actions != [] {
      StepKeeps(s, actions[0]);
      RunKeeps(Step(s, actions[0]), actions[1..], t);
    }
  }

  lemma ReachableInv(capacity: nat, waits: bool, firstId: nat, actions: seq<Action>, t: State)
    requires Run(Init(capacity, waits, firstId), actions, t)
    ensures Inv(t)
  {
    InitInv(capacity, waits, firstId);
    RunKeeps(Init(capacity, waits, firstId), actions, t);
  }
}
