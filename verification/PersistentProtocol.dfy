/** The persistent publisher with buffered backpressure: the publish path of Pipeline together
    with the correlation table, the acknowledgements that one context thread delivers one after
    another, and the wait for them in Terminate. A correlation context is named by its message. */
module PersistentProtocol {
  import opened Wrappers
  import F = PipelineFates
  import P = Pipeline

  // correlation ids: order[i] is the call that was given id i + 1, of is its inverse
  datatype Ids = Ids(order: seq<nat>, of: map<nat, nat>)

  // what the context thread does next with the acknowledgement of msg
  datatype AckPC = Waiting | Dispatched(msg: nat, id: nat) | Found(id: nat, ctx: nat) | Resolved(id: nat, ctx: nat)

  // how far Terminate is with its wait; asked is the table at the moment it began to wait
  datatype WaitPC = NotAsked | Asked | Passed
  datatype Wait = Wait(pc: WaitPC, requested: bool, completes: nat, asked: map<nat, nat>, woken: bool)

  // How often each context was resolved, and by whom (acknowledgement, send error, drainQueue,
  // drainAckTable), and what went wrong with it: its acknowledgement overlapped drainAckTable, its
  // task popped no message or another's, or found its entry gone, or its message was popped by the
  // task of another. stale counts the tasks that found their entry gone.
  datatype Ledger = Ledger(
    acked: multiset<nat>, failed: multiset<nat>, returned: multiset<nat>, cleared: multiset<nat>,
    overlapped: multiset<nat>, doubled: multiset<nat>, lost: multiset<nat>, stale: nat, racing: bool)

  datatype State = State(
    pipe: P.State, ids: Ids, table: map<nat, nat>, locked: bool, swept: bool, unackedCount: nat,
    ackOn: bool, ack: AckPC, wait: Wait, ledger: Ledger)

  datatype AckOp = Dispatch(m: nat) | Lookup | Resolve | Remove
  datatype EndOp = RemoveHandler | Request | SkipWait | Wake | TimeOut | LockTable | Clear(id: nat) | UnlockTable
  datatype Action = Tag(c: nat) | Pipe(action: P.Action) | Ack(ack: AckOp) | End(end: EndOp)

  function Init(capacity: nat, waits: bool): State {
    State(P.Init(capacity, waits), Ids([], map[]), map[], false, false, 0, true, Waiting,
          Wait(NotAsked, false, 0, map[], false),
          Ledger(multiset{}, multiset{}, multiset{}, multiset{}, multiset{}, multiset{}, multiset{}, 0, false))
  }

  // the correlation id of message m; ids start at 1
  function IdIn(of: map<nat, nat>, pushed: seq<nat>, m: nat): nat {
    if m < |pushed| && pushed[m] in of then of[pushed[m]] else 0
  }

  function IdOf(s: State, m: nat): nat {
    IdIn(s.ids.of, s.pipe.front.pushed, m)
  }

  // ----- the send task and the drain, with their effects on the table and the contexts

  predicate TouchesTable(p: P.State, a: P.Action) {
    a == P.Task(P.Begin) || a == P.Task(P.Interrupt) || (a == P.Task(P.Settle) && P.HandlesError(p.tasks.loop))
  }

  predicate PipeEnabled(s: State, a: P.Action) {
    && P.Enabled(s.pipe, a)
    && (a.Call? && a.call == P.Check ==> a.c in s.ids.of)
    && (TouchesTable(s.pipe, a) ==> !s.locked)
    && (a == P.Term(P.Next) ==>
        && (s.pipe.term.pc.Hook1? && s.pipe.term.unsolicited ==> !s.ackOn)
        && (s.pipe.term.pc.Hook2? ==> s.wait.pc == Passed && !s.ackOn)
        && (s.pipe.term.pc.Hook3? ==> s.swept && !s.locked))
  }

  // the send task deletes the entry of its own context
  function ForgetStep(s: State, m: nat): State {
    if IdOf(s, m) in s.table then s.(table := s.table - {IdOf(s, m)})
    else s.(ledger := s.ledger.(doubled := s.ledger.doubled + multiset{m}, stale := s.ledger.stale + 1))
  }

  // the pop of the task of message m; only the record changes
  function AfterPop(l: Ledger, p: P.State, m: nat): Ledger {
    if p.buffer.items == [] then l.(doubled := l.doubled + multiset{m})
    else if p.buffer.items[0] == m then l
    else l.(doubled := l.doubled + multiset{m}, lost := l.lost + multiset{p.buffer.items[0]})
  }

  function Effect(s: State, a: P.Action): State
    requires P.Enabled(s.pipe, a)
  {
    var m := s.pipe.tasks.Msg();
    if a == P.Task(P.Begin) then s.(table := s.table[IdOf(s, m) := m])
    else if a == P.Task(P.Interrupt) || (a == P.Task(P.Settle) && P.HandlesError(s.pipe.tasks.loop)) then ForgetStep(s, m)
    else if a == P.Task(P.Pop) then s.(ledger := AfterPop(s.ledger, s.pipe, m))
    else if a == P.Task(P.Report) then s.(ledger := s.ledger.(failed := s.ledger.failed + multiset{m}))
    else if P.Drains(s.pipe, a) then s.(ledger := s.ledger.(returned := s.ledger.returned + multiset{s.pipe.buffer.items[0]}))
    else s
  }

  function PipeStep(s: State, a: P.Action): State
    requires P.Enabled(s.pipe, a)
  {
    Effect(s, a).(pipe := P.Step(s.pipe, a))
  }

  // ----- acknowledgements

  predicate AckEnabled(s: State, op: AckOp) {
    match op
    case Dispatch(m) => s.ack.Waiting? && s.ackOn && m in s.pipe.out.wire
    case Lookup => s.ack.Dispatched? && !s.locked
    case Resolve => s.ack.Found?
    case Remove => s.ack.Resolved? && !s.locked
  }

  function RemoveStep(s: State, id: nat, ctx: nat): State {
    var left := s.table - {id};
    var closes := s.pipe.term.life == P.Terminating && s.wait.requested && |left| == 0;
    s.(ack := Waiting, table := left,
       ledger := if id in s.table then s.ledger else s.ledger.(overlapped := s.ledger.overlapped + multiset{ctx}),
       wait := if closes then s.wait.(completes := s.wait.completes + 1) else s.wait)
  }

  function AckStep(s: State, op: AckOp): State
    requires AckEnabled(s, op)
  {
    match op
    case Dispatch(m) => s.(ack := Dispatched(m, IdOf(s, m)))
    case Lookup => s.(ack := if s.ack.id in s.table then Found(s.ack.id, s.table[s.ack.id]) else Waiting)
    case Resolve =>
      s.(ack := Resolved(s.ack.id, s.ack.ctx), ledger := s.ledger.(acked := s.ledger.acked + multiset{s.ack.ctx}))
    case Remove => RemoveStep(s, s.ack.id, s.ack.ctx)
  }

  // ----- the part of Terminate and unsolicitedTermination that deals with acknowledgements

  predicate EndEnabled(s: State, op: EndOp) {
    var t := s.pipe.term;
    match op
    case RemoveHandler => s.ackOn && (if t.unsolicited then t.pc.Hook1? else t.pc.Hook2? && s.wait.pc == Passed)
    case Request => t.pc.Hook2? && s.wait.pc == NotAsked && !t.stopTask && !s.locked
    case SkipWait => t.pc.Hook2? && s.wait.pc == NotAsked && t.stopTask
    case Wake => s.wait.pc == Asked && s.wait.completes > 0
    case TimeOut => s.wait.pc == Asked && t.timed
    case LockTable => t.pc.Hook3? && !s.swept && !s.locked
    case Clear(id) => s.locked && id in s.table
    case UnlockTable => s.locked && s.table == map[]
  }

  function ClearStep(s: State, id: nat): State
    requires id in s.table
  {
    s.(table := s.table - {id}, ledger := s.ledger.(cleared := s.ledger.cleared + multiset{s.table[id]}),
       unackedCount := s.unackedCount + 1)
  }

  function EndStep(s: State, op: EndOp): State
    requires EndEnabled(s, op)
  {
    match op
    case RemoveHandler => s.(ackOn := false)
    case Request => s.(wait := Wait(if |s.table| > 0 then Asked else Passed, true, s.wait.completes, s.table, false))
    case SkipWait => s.(wait := s.wait.(pc := Passed))
    case Wake => s.(wait := s.wait.(pc := Passed, woken := true))
    case TimeOut => s.(wait := s.wait.(pc := Passed))
    case LockTable => s.(locked := true, ledger := s.ledger.(racing := s.ack.Found? || s.ack.Resolved?))
    case Clear(id) => ClearStep(s, id)
    case UnlockTable => s.(locked := false, swept := true)
  }

  // ----- runs

  predicate Enabled(s: State, a: Action) {
    match a
    case Tag(c) => c < |s.pipe.front.calls| && s.pipe.front.calls[c] == P.Entered && c !in s.ids.of
    case Pipe(pa) => PipeEnabled(s, pa)
    case Ack(op) => AckEnabled(s, op)
    case End(op) => EndEnabled(s, op)
  }

  function TagStep(s: State, c: nat): State {
    s.(ids := Ids(s.ids.order + [c], s.ids.of[c := |s.ids.order| + 1]))
  }

  function Step(s: State, a: Action): State
    requires Enabled(s, a)
  {
    match a
    case Tag(c) => TagStep(s, c)
    case Pipe(pa) => PipeStep(s, pa)
    case Ack(op) => AckStep(s, op)
    case End(op) => EndStep(s, op)
  }

  predicate Run(s: State, actions: seq<Action>, t: State)
    decreases |actions|
  {
    if actions == [] then s == t
    else Enabled(s, actions[0]) && Run(Step(s, actions[0]), actions[1..], t)
  }

  // ----- the invariant

  predicate NeedsTag(pc: P.CallPC) {
    pc.Checked? || pc.Locked? || P.HasMessage(pc)
  }

  ghost predicate Tags(ids: Ids, calls: seq<P.CallPC>) {
    && (forall c :: c in ids.of ==> 0 < ids.of[c] <= |ids.order| && ids.order[ids.of[c] - 1] == c && c < |calls|)
    && (forall c :: 0 <= c < |calls| && NeedsTag(calls[c]) ==> c in ids.of)
  }

  // Every entry sits under the id of its own context, whose task has begun; an acknowledgement
  // in progress is for a message that was sent.
  ghost predicate Entries(s: State) {
    && (forall id :: id in s.table ==> s.table[id] < P.Begun(s.pipe.tasks) && IdOf(s, s.table[id]) == id)
    && (s.ack.Dispatched? ==> s.ack.msg in s.pipe.out.wire && IdOf(s, s.ack.msg) == s.ack.id)
    && (s.ack.Found? || s.ack.Resolved? ==> s.ack.ctx in s.pipe.out.wire && IdOf(s, s.ack.ctx) == s.ack.id)
    && (s.ack.Resolved? ==> s.ack.ctx in s.ledger.acked)
  }

  // the context of the acknowledgement that has been looked up and whose entry is still to go
  predicate Handling(ack: AckPC) {
    ack.Found? || ack.Resolved?
  }

  // An armed task and an acknowledgement in progress have their entries until the table is swept;
  // what enters it later belongs to a task that finds the buffer empty.
  ghost predicate Presence(s: State) {
    var t, q := s.pipe.term, s.pipe.tasks;
    && (P.Armed(q.loop) && !s.locked && !s.swept ==> IdOf(s, q.loop.msg) in s.table)
    && (Handling(s.ack) && !s.locked && !s.swept ==> s.ack.id in s.table)
    && (s.locked ==> t.pc.Hook3? && !s.swept)
    && (s.swept ==> t.pc.Hook3? || t.pc.Gone?)
    && (t.pc.Gone? ==> s.swept)
    && ((t.unsolicited && P.Rank(t.pc) > 1) || P.Rank(t.pc) > 8 ==> !s.ackOn)
    && (s.swept && !s.ack.Waiting? ==> s.ack.id !in s.table)
    && (s.swept ==> forall id :: id in s.table ==> P.CreditOf(q.loop) == Some(s.table[id]) || s.table[id] in s.pipe.out.vain)
  }

  // how often context m has been resolved
  function Count(l: Ledger, m: nat): nat {
    l.acked[m] + l.failed[m] + l.returned[m] + l.cleared[m]
  }

  // the resolutions of context m beyond those that a defect took away or added
  function Net(l: Ledger, m: nat): int {
    Count(l, m) + l.lost[m] - l.doubled[m] - l.overlapped[m]
  }

  predicate InTable(s: State, m: nat) {
    m < |s.pipe.front.pushed| && IdOf(s, m) in s.table
  }

  function AckedOf(ack: AckPC): Option<nat> {
    if ack.Resolved? then Some(ack.ctx) else None
  }

  // The books of one context: how often it was and still will be resolved, against what it is
  // entitled to once its message has left the buffer.
  ghost predicate Balanced(s: State, m: nat) {
    Net(s.ledger, m) + Flag(InTable(s, m)) + Flag(P.FailingOf(s.pipe.tasks.loop) == Some(m))
    == Flag(m < s.pipe.buffer.Removed()) + Flag(P.CreditOf(s.pipe.tasks.loop) == Some(m)) + Flag(AckedOf(s.ack) == Some(m))
  }

  ghost predicate Books(s: State) {
    && (forall m: nat :: Balanced(s, m))
    && s.unackedCount == |s.ledger.cleared| && multiset(s.pipe.buffer.drained) == s.ledger.returned
  }

  // Who resolved what, and which defects there can be: one overlap, and one misplaced context for
  // each pop that went astray or found nothing and each task that found its entry gone.
  ghost predicate Defects(s: State) {
    var l, o := s.ledger, s.pipe.out;
    && (forall m :: m in l.acked || m in l.overlapped ==> m in o.wire)
    && (forall m :: m in l.failed ==> m in o.failures)
    && (!s.locked && !s.swept ==> l.overlapped == multiset{} && !l.racing)
    && (s.locked || s.swept ==> |l.overlapped| + Flag(Handling(s.ack)) == Flag(l.racing))
    && Misplaced(l, o) && (forall m :: m in l.doubled ==> m < |s.pipe.front.pushed|)
    && (!s.swept || !s.pipe.term.unsolicited ==> l.stale == 0)
  }

  ghost predicate Misplaced(l: Ledger, o: P.Outcomes) {
    && |l.doubled| == |l.lost| + |o.vain| + l.stale
    && (o.stray.None? ==> l.lost == multiset{})
    && (o.stray.Some? ==> o.stray.value.1 in l.lost && o.stray.value.1 !in l.doubled)
  }

  // the wait for acknowledgements: correlationComplete closes exactly when the table empties
  ghost predicate Waits(s: State) {
    var w := s.wait;
    && w.completes <= 1
    && (w.requested ==> !s.pipe.term.unsolicited && s.pipe.tasks.complete && w.pc != NotAsked)
    && (!w.requested ==> w.completes == 0 && w.pc != Asked && w.asked == map[])
    && (w.completes == 1 ==> s.table == map[] && !Handling(s.ack))
    && (w.pc == Asked ==> s.pipe.term.pc.Hook2? && (s.table == map[] ==> w.completes == 1))
    && (forall id :: id in w.asked ==> w.asked[id] < |s.pipe.front.pushed| && IdOf(s, w.asked[id]) == id)
    && (!s.locked && !s.swept ==> forall id :: id in w.asked ==> id in s.table || w.asked[id] in s.ledger.acked)
    && (w.woken ==> w.completes == 1 && forall id :: id in w.asked ==> w.asked[id] in s.ledger.acked)
  }

  ghost predicate Inv(s: State) {
    && P.Inv(s.pipe) && F.Fates(s.pipe) && Tags(s.ids, s.pipe.front.calls) && Entries(s) && Presence(s)
    && Books(s) && Defects(s) && Waits(s)
  }

  // ----- every step keeps it

  lemma InitInv(capacity: nat, waits: bool)
    ensures Inv(Init(capacity, waits))
  {
    P.InitInv(capacity, waits);
    F.InitFates(capacity, waits);
    forall m: nat
      ensures Balanced(Init(capacity, waits), m)
    {
    }
  }

  lemma IdIsUnique(s: State, m: nat, n: nat)
    requires P.Inv(s.pipe) && Tags(s.ids, s.pipe.front.calls)
    requires m < |s.pipe.front.pushed| && n < |s.pipe.front.pushed|
    ensures IdOf(s, m) > 0
    ensures IdOf(s, m) == IdOf(s, n) ==> m == n
  {
    var f := s.pipe.front;
    assert f.calls[f.pushed[m]].msg == m && f.calls[f.pushed[n]].msg == n;
  }

  // a message that was sent is not the one that the task in hand still has to send
  lemma SentIsNotArmed(p: P.State, m: nat)
    requires P.Inv(p) && m in p.out.wire
    ensures m < |p.front.pushed|
    ensures P.Armed(p.tasks.loop) ==> m < p.tasks.loop.msg
  {
  }

  lemma SentHasBegun(p: P.State, m: nat)
    requires P.Inv(p) && m in p.out.wire
    ensures m < P.Begun(p.tasks)
  {
  }

  lemma TagKeepsIds(s: State, c: nat)
    requires P.Calls(s.pipe.front) && Tags(s.ids, s.pipe.front.calls) && Enabled(s, Tag(c))
    ensures Tags(TagStep(s, c).ids, s.pipe.front.calls)
    ensures forall m: nat :: IdOf(TagStep(s, c), m) == IdOf(s, m)
  {
    var f := s.pipe.front;
    forall m: nat
      ensures IdOf(TagStep(s, c), m) == IdOf(s, m)
    {
      assert m < |f.pushed| ==> f.pushed[m] != c;
    }
  }

  // new ids for calls that have no message yet change nothing
  lemma TagKeepsRest(s: State, ids: Ids)
    requires forall m: nat :: IdOf(s.(ids := ids), m) == IdOf(s, m)
    requires Entries(s) && Presence(s) && Waits(s) && Books(s)
    ensures var t := s.(ids := ids); Entries(t) && Presence(t) && Waits(t) && Books(t)
  {
    hide IdOf, Net;
    var t := s.(ids := ids);
    forall m: nat
      ensures Balanced(t, m)
    {
      assert Balanced(s, m);
    }
  }

  lemma TagKeeps(s: State, c: nat)
    requires Inv(s) && Enabled(s, Tag(c))
    ensures Inv(TagStep(s, c))
  {
    assert P.Calls(s.pipe.front);
    hide P.Inv, F.Fates, Entries, Presence, Books, Waits, Tags;
    TagKeepsIds(s, c);
    TagKeepsRest(s, TagStep(s, c).ids);
  }

  // ----- steps of the pipeline without an effect on contexts

  // the state after such a step
  ghost predicate Calm(s: State, t: State) {
    && P.Inv(s.pipe) && P.Inv(t.pipe) && P.Quiet(s.pipe, t.pipe) && t == s.(pipe := t.pipe)
    && Tags(s.ids, s.pipe.front.calls) && Tags(t.ids, t.pipe.front.calls)
  }

  lemma CalmKeepsEntries(s: State, t: State)
    requires Calm(s, t) && Entries(s)
    ensures Entries(t)
  {
    BegunIsPushed(s.pipe);
    hide P.Inv, Tags;
    forall id | id in t.table
      ensures t.table[id] < P.Begun(t.pipe.tasks) && IdOf(t, t.table[id]) == id
    {
      assert s.table[id] < P.Begun(s.pipe.tasks) && IdOf(s, s.table[id]) == id;
    }
  }

  lemma NewHasNoEntry(s: State, t: State, m: nat)
    requires Calm(s, t) && Entries(s) && |s.pipe.front.pushed| <= m
    ensures !InTable(t, m)
  {
    BegunIsPushed(s.pipe);
    CalmKeepsEntries(s, t);
    hide P.Inv, Tags;
    if m < |t.pipe.front.pushed| {
      forall id | id in t.table
        ensures id != IdOf(t, m)
      {
        IdIsUnique(t, m, t.table[id]);
      }
    }
  }

  lemma CalmKeepsBooks(s: State, t: State)
    requires Calm(s, t) && Entries(s) && Books(s)
    ensures Books(t)
  {
    forall m: nat
      ensures Balanced(t, m)
    {
      hide P.Inv, Tags, Entries;
      assert Balanced(s, m);
      if m < |s.pipe.front.pushed| {
        assert IdOf(t, m) == IdOf(s, m);
      } else {
        NewHasNoEntry(s, t, m);
      }
    }
  }

  lemma CalmKeepsWaits(s: State, t: State)
    requires Calm(s, t) && Waits(s)
    requires t.pipe.term == s.pipe.term || (s.wait.pc != Asked && (s.wait.requested ==> !t.pipe.term.unsolicited))
    ensures Waits(t)
  {
    forall id | id in t.wait.asked
      ensures t.wait.asked[id] < |t.pipe.front.pushed| && IdOf(t, t.wait.asked[id]) == id
    {
      assert IdOf(s, s.wait.asked[id]) == id;
    }
  }

  lemma CalmKeepsPresence(s: State, t: State)
    requires Calm(s, t) && Presence(s) && t.pipe.term == s.pipe.term
    ensures Presence(t)
  {
    assert P.Armed(t.pipe.tasks.loop) ==> IdOf(t, t.pipe.tasks.loop.msg) == IdOf(s, s.pipe.tasks.loop.msg);
  }

  lemma CalmKeepsDefects(s: State, t: State)
    requires Calm(s, t) && Defects(s) && (s.swept ==> t.pipe.term.unsolicited == s.pipe.term.unsolicited)
    ensures Defects(t)
  {
  }

  lemma CallKeepsTags(s: State, c: nat, op: P.CallOp)
    requires P.CallEnabled(s.pipe, c, op) && Tags(s.ids, s.pipe.front.calls) && (op == P.Check ==> c in s.ids.of)
    ensures Tags(s.ids, P.CallStep(s.pipe, c, op).front.calls)
  {
    var q := P.CallStep(s.pipe, c, op).front;
    assert forall d :: 0 <= d < |q.calls| && d != c ==> q.calls[d] == s.pipe.front.calls[d];
  }

  lemma PipeKeepsTags(s: State, a: P.Action)
    requires PipeEnabled(s, a) && Tags(s.ids, s.pipe.front.calls)
    ensures Tags(s.ids, P.Step(s.pipe, a).front.calls)
  {
    match a
    case Call(c, op) => CallKeepsTags(s, c, op);
    case Enter => assert forall d :: 0 <= d < |s.pipe.front.calls| ==> P.EnterStep(s.pipe).front.calls[d] == s.pipe.front.calls[d];
    case _ =>
  }

  lemma CalmKeeps(s: State, a: P.Action)
    requires Inv(s) && PipeEnabled(s, a) && !P.HasEffect(s.pipe, a) && !a.Term?
    ensures Inv(PipeStep(s, a))
  {
    hide P.Inv, F.Fates, Entries, Books, Waits, Presence, Defects, Tags, P.Quiet;
    var t := PipeStep(s, a);
    P.StepKeeps(s.pipe, a);
    F.FatesStepKeeps(s.pipe, a);
    P.QuietStep(s.pipe, a);
    P.TermIsApart(s.pipe, a);
    PipeKeepsTags(s, a);
    CalmKeepsEntries(s, t);
    CalmKeepsBooks(s, t);
    CalmKeepsWaits(s, t);
    CalmKeepsPresence(s, t);
    CalmKeepsDefects(s, t);
  }

  lemma TermKeepsPresence(s: State, op: P.TermOp)
    requires PipeEnabled(s, P.Term(op)) && !P.HasEffect(s.pipe, P.Term(op)) && Presence(s)
    requires P.Signals(s.pipe.term)
    ensures Presence(PipeStep(s, P.Term(op)))
  {
  }

  lemma TermKeepsModes(s: State, op: P.TermOp)
    requires PipeEnabled(s, P.Term(op)) && Presence(s) && Waits(s) && P.Inv(s.pipe)
    ensures var t := PipeStep(s, P.Term(op)).pipe;
            && (s.swept ==> t.term.unsolicited == s.pipe.term.unsolicited)
            && (s.wait.requested ==> !t.term.unsolicited)
            && (s.wait.pc == Asked ==> t.term == s.pipe.term)
  {
  }

  lemma TermKeeps(s: State, op: P.TermOp)
    requires Inv(s) && PipeEnabled(s, P.Term(op)) && !P.HasEffect(s.pipe, P.Term(op))
    ensures Inv(PipeStep(s, P.Term(op)))
  {
    hide F.Fates, Entries, Books, Waits, Presence, Defects, Tags, P.Quiet, P.Calls, P.Order, P.Submission, P.Tasks, P.Apart, P.Failed;
    var t := PipeStep(s, P.Term(op));
    P.StepKeeps(s.pipe, P.Term(op));
    F.FatesStepKeeps(s.pipe, P.Term(op));
    P.QuietStep(s.pipe, P.Term(op));
    P.TermIsApart(s.pipe, P.Term(op));
    TermKeepsModes(s, op);
    CalmKeepsEntries(s, t);
    CalmKeepsBooks(s, t);
    CalmKeepsWaits(s, t);
    TermKeepsPresence(s, op);
    CalmKeepsDefects(s, t);
  }

  // ----- steps of the send task and of the drain with an effect on contexts

  // what the terminator, the publish calls and the native layer have done stays as it is
  ghost predicate SameScene(p: P.State, q: P.State) {
    && q.front == p.front && q.out.wire == p.out.wire && q.out.failures == p.out.failures && q.tasks.complete == p.tasks.complete
    && q.term.pc == p.term.pc && q.term.unsolicited == p.term.unsolicited && q.term.life == p.term.life
    && P.Begun(p.tasks) <= P.Begun(q.tasks)
  }

  // a step that changes neither the table nor anything else of the acknowledgement side
  ghost predicate SameTable(s: State, t: State) {
    && SameScene(s.pipe, t.pipe)
    && t.ids == s.ids && t.table == s.table && t.locked == s.locked && t.swept == s.swept && t.ack == s.ack && t.ackOn == s.ackOn
    && t.wait == s.wait
    && t.ledger.acked == s.ledger.acked && (forall m :: m in s.pipe.out.vain ==> m in t.pipe.out.vain)
    && (s.swept && P.CreditOf(s.pipe.tasks.loop).Some? ==>
          P.CreditOf(t.pipe.tasks.loop) == P.CreditOf(s.pipe.tasks.loop) || P.CreditOf(s.pipe.tasks.loop).value in t.pipe.out.vain)
    && (P.Armed(t.pipe.tasks.loop) ==> P.Armed(s.pipe.tasks.loop) && t.pipe.tasks.loop.msg == s.pipe.tasks.loop.msg)
  }

  lemma SameTableKeeps(s: State, t: State)
    requires SameTable(s, t) && Entries(s) && Presence(s) && Waits(s)
    ensures Entries(t) && Presence(t) && Waits(t)
  {
  }

  lemma HeadIsNext(p: P.State)
    requires P.Inv(p) && p.buffer.items != []
    ensures p.buffer.items[0] == p.buffer.Removed()
  {
  }

  // the send task of message k moves on and leaves the buffer alone
  ghost predicate TaskMove(p: P.State, q: P.State, k: nat) {
    && SameScene(p, q) && q.buffer == p.buffer && q.term == p.term
    && p.tasks.loop.Busy? && p.tasks.loop.msg == k && q.tasks.loop.Busy? && q.tasks.loop.msg == k
    && k < P.Begun(q.tasks) <= |p.front.pushed| && q.out.vain == p.out.vain && q.out.stray == p.out.stray
  }

  lemma MoveIsTaskMove(p: P.State, op: P.TaskOp)
    requires P.Inv(p) && P.TaskEnabled(p, op) && op in {P.Begin, P.Interrupt, P.Settle, P.Report}
    ensures TaskMove(p, P.TaskStep(p, op), p.tasks.loop.msg)
  {
  }

  lemma UniqueIds(s: State, k: nat)
    requires P.Inv(s.pipe) && Tags(s.ids, s.pipe.front.calls) && k < |s.pipe.front.pushed|
    ensures forall m :: 0 <= m < |s.pipe.front.pushed| && m != k ==> IdOf(s, m) != IdOf(s, k)
  {
    forall m | 0 <= m < |s.pipe.front.pushed| && m != k
      ensures IdOf(s, m) != IdOf(s, k)
    {
      IdIsUnique(s, m, k);
    }
  }

  // Begin

  function BeginStep(s: State, q: P.State, k: nat): State {
    s.(table := s.table[IdOf(s, k) := k], pipe := q)
  }

  lemma BeginBalances(s: State, q: P.State, k: nat, m: nat)
    requires TaskMove(s.pipe, q, k) && Entries(s) && Balanced(s, m)
    requires m != k && m < |s.pipe.front.pushed| ==> IdOf(s, m) != IdOf(s, k)
    requires IdOf(s, k) !in s.table
    requires P.CreditOf(s.pipe.tasks.loop) == None && P.CreditOf(q.tasks.loop) == Some(k)
    requires P.FailingOf(s.pipe.tasks.loop) == P.FailingOf(q.tasks.loop) == None
    ensures Balanced(BeginStep(s, q, k), m)
  {
  }

  lemma BeginIsNext(p: P.State)
    requires P.Inv(p) && P.TaskEnabled(p, P.Begin)
    ensures P.Begun(p.tasks) == p.tasks.loop.msg < |p.front.pushed|
  {
  }

  lemma BeginIsFirst(s: State, k: nat)
    requires Entries(s) && P.Begun(s.pipe.tasks) == k < |s.pipe.front.pushed|
    requires forall m :: 0 <= m < |s.pipe.front.pushed| && m != k ==> IdOf(s, m) != IdOf(s, k)
    ensures IdOf(s, k) !in s.table
  {
  }

  lemma BeginKeepsRest(s: State, q: P.State, k: nat)
    requires TaskMove(s.pipe, q, k) && Entries(s) && Presence(s) && Waits(s) && !s.pipe.tasks.complete && !s.locked
    requires IdOf(s, k) !in s.table && (!s.ack.Waiting? ==> s.ack.id != IdOf(s, k))
    requires P.CreditOf(s.pipe.tasks.loop) == None && P.CreditOf(q.tasks.loop) == Some(k)
    ensures var t := BeginStep(s, q, k); Entries(t) && Presence(t) && Waits(t)
  {
  }

  lemma BeginKeepsDefects(s: State, q: P.State, k: nat)
    requires TaskMove(s.pipe, q, k) && Defects(s)
    ensures Defects(BeginStep(s, q, k))
  {
    assert BeginStep(s, q, k).ledger == s.ledger;
  }

  // the acknowledgement in progress is for an earlier task
  lemma AckHasBegun(s: State)
    requires P.Inv(s.pipe) && Entries(s) && !s.ack.Waiting?
    ensures exists m: nat :: m < P.Begun(s.pipe.tasks) && IdOf(s, m) == s.ack.id
  {
    var m := if s.ack.Dispatched? then s.ack.msg else s.ack.ctx;
    SentHasBegun(s.pipe, m);
    assert IdOf(s, m) == s.ack.id;
  }

  lemma BeginKeeps(s: State)
    requires Inv(s) && PipeEnabled(s, P.Task(P.Begin))
    ensures Inv(PipeStep(s, P.Task(P.Begin)))
  {
    hide P.Inv, F.Fates, Balanced, Entries, Waits, Presence, Defects, Tags;
    var t, k := PipeStep(s, P.Task(P.Begin)), s.pipe.tasks.loop.msg;
    P.StepKeeps(s.pipe, P.Task(P.Begin));
    F.FatesStepKeeps(s.pipe, P.Task(P.Begin));
    MoveIsTaskMove(s.pipe, P.Begin);
    UniqueIds(s, k);
    BeginIsNext(s.pipe);
    BeginIsFirst(s, k);
    BusyIsNotComplete(s.pipe);
    if !s.ack.Waiting? { AckHasBegun(s); }
    forall m: nat
      ensures Balanced(t, m)
    {
      assert Balanced(s, m);
      BeginBalances(s, t.pipe, k, m);
    }
    BeginKeepsRest(s, t.pipe, k);
    BeginKeepsDefects(s, t.pipe, k);
  }

  // The send task deletes its own entry, after an interruption or a send error.

  predicate Forgets(p: P.State, a: P.Action) {
    P.Enabled(p, a) && (a == P.Task(P.Interrupt) || (a == P.Task(P.Settle) && P.HandlesError(p.tasks.loop)))
  }

  // one step towards the resolution of k: its credit is used up, or its failure is to be reported
  predicate Spends(before: P.LoopPC, after: P.LoopPC, k: nat) {
    && P.CreditOf(after) == None && P.FailingOf(before) == None
    && (if P.CreditOf(before) == Some(k) then P.FailingOf(after) == None
        else P.CreditOf(before) == None && P.FailingOf(after) == Some(k))
  }

  lemma ForgetNet(s: State, k: nat, m: nat)
    ensures Net(ForgetStep(s, k).ledger, m) == Net(s.ledger, m) - Flag(IdOf(s, k) !in s.table && m == k)
  {
  }

  lemma ForgetBalances(s: State, q: P.State, k: nat, m: nat)
    requires TaskMove(s.pipe, q, k) && Balanced(s, m) && Spends(s.pipe.tasks.loop, q.tasks.loop, k)
    requires m != k && m < |s.pipe.front.pushed| ==> IdOf(s, m) != IdOf(s, k)
    ensures Balanced(ForgetStep(s, k).(pipe := q), m)
  {
    hide Net;
    ForgetNet(s, k, m);
  }

  lemma ForgetKeepsEntries(s: State, q: P.State, k: nat)
    requires TaskMove(s.pipe, q, k) && Entries(s) && Waits(s) && !s.pipe.tasks.complete
    ensures var t := ForgetStep(s, k).(pipe := q); Entries(t) && Waits(t)
  {
  }

  lemma ForgetKeepsPresence(s: State, q: P.State, k: nat)
    requires TaskMove(s.pipe, q, k) && Entries(s) && Presence(s) && !P.Armed(q.tasks.loop)
    requires P.CreditOf(s.pipe.tasks.loop) == Some(k) || P.CreditOf(s.pipe.tasks.loop) == None
    requires Handling(s.ack) ==> s.ack.ctx < k
    requires forall m :: 0 <= m < |s.pipe.front.pushed| && m != k ==> IdOf(s, m) != IdOf(s, k)
    ensures Presence(ForgetStep(s, k).(pipe := q))
  {
  }

  lemma ForgetKeepsDefects(s: State, q: P.State, k: nat)
    requires TaskMove(s.pipe, q, k) && Defects(s) && !s.locked && k < |s.pipe.front.pushed|
    requires !s.swept ==> IdOf(s, k) in s.table
    requires s.swept ==> s.pipe.term.unsolicited
    requires s.pipe.out.stray.Some? ==> s.pipe.out.stray.value.1 != k
    ensures Defects(ForgetStep(s, k).(pipe := q))
  {
  }

  // the message that went astray is not that of the task in hand
  lemma StrayIsOfAnother(p: P.State)
    requires P.Inv(p) && F.Fates(p) && p.tasks.loop.Busy? && p.out.stray.Some?
    ensures p.out.stray.value.1 != p.tasks.loop.msg
  {
  }

  lemma ForgetOnlyForgets(s: State, k: nat)
    ensures ForgetStep(s, k).ids == s.ids
  {
  }

  lemma ForgetKeepsBooks(s: State, q: P.State, k: nat)
    requires TaskMove(s.pipe, q, k) && Books(s) && Spends(s.pipe.tasks.loop, q.tasks.loop, k)
    requires forall m :: 0 <= m < |s.pipe.front.pushed| && m != k ==> IdOf(s, m) != IdOf(s, k)
    ensures Books(ForgetStep(s, k).(pipe := q))
  {
    forall m: nat
      ensures Balanced(ForgetStep(s, k).(pipe := q), m)
    {
      assert Balanced(s, m);
      ForgetBalances(s, q, k, m);
    }
  }

  lemma ForgetScene(s: State)
    requires Presence(s) && P.Armed(s.pipe.tasks.loop) && !s.locked && (!s.pipe.term.unsolicited ==> P.Rank(s.pipe.term.pc) <= 7)
    ensures !s.swept ==> IdOf(s, s.pipe.tasks.loop.msg) in s.table
    ensures s.swept ==> s.pipe.term.unsolicited
  {
  }

  lemma ForgetMove(p: P.State, a: P.Action)
    requires P.Inv(p) && Forgets(p, a)
    ensures p.tasks.loop.Busy? && P.Armed(p.tasks.loop)
    ensures var q, k := P.Step(p, a), p.tasks.loop.msg;
            TaskMove(p, q, k) && Spends(p.tasks.loop, q.tasks.loop, k) && !P.Armed(q.tasks.loop)
  {
    hide P.Inv;
    MoveIsTaskMove(p, a.task);
  }

  lemma ForgetIsForget(s: State, a: P.Action)
    requires PipeEnabled(s, a) && Forgets(s.pipe, a)
    ensures s.pipe.tasks.loop.Busy? && PipeStep(s, a) == ForgetStep(s, s.pipe.tasks.loop.msg).(pipe := P.Step(s.pipe, a))
    ensures !s.locked
  {
    hide P.Step, ForgetStep;
  }

  lemma ForgetKeeps(s: State, a: P.Action)
    requires Inv(s) && PipeEnabled(s, a) && Forgets(s.pipe, a)
    ensures Inv(PipeStep(s, a))
  {
    ForgetIsForget(s, a);
    ForgetMove(s.pipe, a);
    hide P.Inv, F.Fates, Books, Waits, Defects, Entries, Presence, Tags, ForgetStep, PipeStep, P.Step, Forgets;
    var t, k := PipeStep(s, a), s.pipe.tasks.loop.msg;
    P.StepKeeps(s.pipe, a);
    F.FatesStepKeeps(s.pipe, a);
    UniqueIds(s, k);
    ForgetKeepsBooks(s, t.pipe, k);
    ForgetOnlyForgets(s, k);
    AckIsOfAnother(s);
    BusyIsNotComplete(s.pipe);
    if s.pipe.out.stray.Some? { StrayIsOfAnother(s.pipe); }
    ForgetScene(s);
    ForgetKeepsDefects(s, t.pipe, k);
    ForgetKeepsEntries(s, t.pipe, k);
    ForgetKeepsPresence(s, t.pipe, k);
  }

  lemma BusyIsNotComplete(p: P.State)
    requires P.Inv(p) && p.tasks.loop.Busy?
    ensures !p.tasks.complete && (!p.term.unsolicited ==> P.Rank(p.term.pc) <= 7)
  {
  }

  lemma AckIsOfAnother(s: State)
    requires P.Inv(s.pipe) && Entries(s) && P.Armed(s.pipe.tasks.loop)
    ensures Handling(s.ack) ==> s.ack.ctx < s.pipe.tasks.loop.msg
  {
    if Handling(s.ack) { SentIsNotArmed(s.pipe, s.ack.ctx); }
  }

  // Pop

  lemma PopNet(l: Ledger, p: P.State, k: nat, m: nat)
    ensures Net(AfterPop(l, p, k), m) == Net(l, m) + Flag(p.buffer.items != [] && p.buffer.items[0] == m) - Flag(m == k)
  {
  }

  // what the pop of the task of message k changes in the pipeline
  ghost predicate Pops(p: P.State, q: P.State, k: nat) {
    && SameScene(p, q) && q.term == p.term
    && P.CreditOf(p.tasks.loop) == Some(k) && P.CreditOf(q.tasks.loop) == None
    && P.FailingOf(p.tasks.loop) == None && P.FailingOf(q.tasks.loop) == None
    && (P.Armed(q.tasks.loop) ==> P.Armed(p.tasks.loop) && q.tasks.loop.msg == p.tasks.loop.msg)
    && q.buffer.drained == p.buffer.drained
    && q.out.vain == (if p.buffer.items == [] then p.out.vain + [k] else p.out.vain)
    && (if p.buffer.items == [] then q.buffer.taken == p.buffer.taken && q.out.stray == p.out.stray
        else q.buffer.taken == p.buffer.taken + [p.buffer.items[0]] && p.buffer.items[0] == p.buffer.Removed()
             && q.out.stray == (if p.out.stray.None? && p.buffer.items[0] != k then Some((k, p.buffer.items[0])) else p.out.stray))
  }

  lemma PopIsPop(p: P.State)
    requires P.Inv(p) && P.Enabled(p, P.Task(P.Pop))
    ensures Pops(p, P.Step(p, P.Task(P.Pop)), p.tasks.loop.msg)
  {
  }

  function PopEffect(s: State, q: P.State, k: nat): State {
    s.(ledger := AfterPop(s.ledger, s.pipe, k), pipe := q)
  }

  lemma PopKeepsBooks(s: State, q: P.State, k: nat)
    requires Pops(s.pipe, q, k) && Books(s)
    ensures Books(PopEffect(s, q, k))
  {
    forall m: nat
      ensures Balanced(PopEffect(s, q, k), m)
    {
      hide Net, AfterPop;
      assert Balanced(s, m);
      PopNet(s.ledger, s.pipe, k, m);
    }
  }

  lemma PopMisplaces(l: Ledger, p: P.State, q: P.State, k: nat)
    requires Pops(p, q, k) && Misplaced(l, p.out) && (p.buffer.items != [] ==> p.out.vain == [] && l.stale == 0)
    requires p.out.stray.Some? ==> p.out.stray.value.1 != k
    ensures Misplaced(AfterPop(l, p, k), q.out)
  {
  }

  lemma PopKeepsDefects(s: State, q: P.State, k: nat)
    requires Pops(s.pipe, q, k) && Defects(s) && k < |s.pipe.front.pushed|
    requires Misplaced(AfterPop(s.ledger, s.pipe, k), q.out)
    ensures Defects(PopEffect(s, q, k))
  {
    hide Misplaced;
  }

  lemma PopKeepsRest(s: State, q: P.State, k: nat)
    requires Pops(s.pipe, q, k) && Entries(s) && Presence(s) && Waits(s) && (s.swept ==> s.pipe.buffer.items == [])
    ensures var t := PopEffect(s, q, k); Entries(t) && Presence(t) && Waits(t)
  {
    hide Entries, Presence, Waits, AfterPop;
    PopTouchesNoAck(s.ledger, s.pipe, k);
    SameTableKeeps(s, PopEffect(s, q, k));
  }

  // after the table was swept the buffer is empty
  lemma PopScene(s: State)
    requires Inv(s) && P.TaskEnabled(s.pipe, P.Pop)
    ensures s.swept ==> s.pipe.buffer.items == []
    ensures s.pipe.buffer.items != [] ==> s.pipe.out.vain == [] && s.ledger.stale == 0
    ensures s.pipe.tasks.loop.msg < |s.pipe.front.pushed|
  {
    hide Books, Waits, Entries, Tags, F.Fates, P.Calls, P.Apart, P.Failed, Misplaced;
  }

  lemma PopIsEffect(s: State)
    requires PipeEnabled(s, P.Task(P.Pop))
    ensures s.pipe.tasks.loop.Busy?
    ensures PipeStep(s, P.Task(P.Pop)) == PopEffect(s, P.Step(s.pipe, P.Task(P.Pop)), s.pipe.tasks.loop.msg)
  {
    hide P.Step, AfterPop;
  }

  lemma PopKeeps(s: State)
    requires Inv(s) && PipeEnabled(s, P.Task(P.Pop))
    ensures Inv(PipeStep(s, P.Task(P.Pop)))
  {
    PopScene(s);
    PopIsPop(s.pipe);
    PopIsEffect(s);
    hide P.Inv, F.Fates, Books, Waits, Defects, Presence, Entries, Tags, AfterPop, PipeStep, P.Step;
    var q, k := P.Step(s.pipe, P.Task(P.Pop)), s.pipe.tasks.loop.msg;
    P.StepKeeps(s.pipe, P.Task(P.Pop));
    F.FatesStepKeeps(s.pipe, P.Task(P.Pop));
    PopKeepsBooks(s, q, k);
    if s.pipe.out.stray.Some? { StrayIsOfAnother(s.pipe); }
    DefectsMisplaced(s);
    PopMisplaces(s.ledger, s.pipe, q, k);
    PopKeepsDefects(s, q, k);
    PopKeepsRest(s, q, k);
  }

  lemma DefectsMisplaced(s: State)
    requires Defects(s)
    ensures Misplaced(s.ledger, s.pipe.out)
  {
  }

  lemma PopTouchesNoAck(l: Ledger, p: P.State, k: nat)
    ensures AfterPop(l, p, k).acked == l.acked
  {
  }

  // Report

  function ReportEffect(s: State, q: P.State, k: nat): State {
    s.(ledger := s.ledger.(failed := s.ledger.failed + multiset{k}), pipe := q)
  }

  lemma ReportKeepsBooks(s: State, q: P.State, k: nat)
    requires TaskMove(s.pipe, q, k) && Books(s) && q.out == s.pipe.out
    requires P.CreditOf(s.pipe.tasks.loop) == P.CreditOf(q.tasks.loop) == None
    requires P.FailingOf(s.pipe.tasks.loop) == Some(k) && P.FailingOf(q.tasks.loop) == None
    ensures Books(ReportEffect(s, q, k))
  {
    forall m: nat
      ensures Balanced(ReportEffect(s, q, k), m)
    {
      assert Balanced(s, m);
    }
  }

  lemma ReportKeepsDefects(s: State, q: P.State, k: nat)
    requires TaskMove(s.pipe, q, k) && Defects(s) && q.out == s.pipe.out && k in q.out.failures
    ensures Defects(ReportEffect(s, q, k))
  {
  }

  lemma ReportedFailed(p: P.State)
    requires P.Inv(p) && P.TaskEnabled(p, P.Report)
    ensures p.tasks.loop.msg in p.out.failures
  {
  }

  lemma ReportKeeps(s: State)
    requires Inv(s) && PipeEnabled(s, P.Task(P.Report))
    ensures Inv(PipeStep(s, P.Task(P.Report)))
  {
    hide P.Inv, F.Fates, Books, Defects, Waits, Presence, Entries, Tags;
    var t, k := PipeStep(s, P.Task(P.Report)), s.pipe.tasks.loop.msg;
    P.StepKeeps(s.pipe, P.Task(P.Report));
    F.FatesStepKeeps(s.pipe, P.Task(P.Report));
    ReportedFailed(s.pipe);
    MoveIsTaskMove(s.pipe, P.Report);
    assert t == ReportEffect(s, t.pipe, k);
    ReportKeepsBooks(s, t.pipe, k);
    ReportKeepsDefects(s, t.pipe, k);
    SameTableKeeps(s, t);
  }

  // drainQueue

  function DrainEffect(s: State, q: P.State, k: nat): State {
    s.(ledger := s.ledger.(returned := s.ledger.returned + multiset{k}), pipe := q)
  }

  // the drain takes message k from the buffer
  ghost predicate DrainMove(p: P.State, q: P.State, k: nat) {
    && SameScene(p, q) && q.tasks == p.tasks && q.out == p.out && q.term.stopTask == p.term.stopTask
    && k == p.buffer.Removed() && q.buffer.taken == p.buffer.taken && q.buffer.drained == p.buffer.drained + [k]
  }

  lemma DrainKeepsBooks(s: State, q: P.State, k: nat)
    requires DrainMove(s.pipe, q, k) && Books(s)
    ensures Books(DrainEffect(s, q, k))
  {
    forall m: nat
      ensures Balanced(DrainEffect(s, q, k), m)
    {
      assert Balanced(s, m);
    }
  }

  lemma DrainKeepsDefects(s: State, q: P.State, k: nat)
    requires DrainMove(s.pipe, q, k) && Defects(s)
    ensures Defects(DrainEffect(s, q, k))
  {
  }

  lemma DrainKeeps(s: State, a: P.Action)
    requires Inv(s) && PipeEnabled(s, a) && P.Drains(s.pipe, a)
    ensures Inv(PipeStep(s, a))
  {
    hide P.Inv, F.Fates, Books, Defects, Waits, Presence, Entries, Tags;
    var t, k := PipeStep(s, a), s.pipe.buffer.items[0];
    P.StepKeeps(s.pipe, a);
    F.FatesStepKeeps(s.pipe, a);
    HeadIsNext(s.pipe);
    assert t == DrainEffect(s, t.pipe, k);
    DrainKeepsBooks(s, t.pipe, k);
    DrainKeepsDefects(s, t.pipe, k);
    SameTableKeeps(s, t);
  }

  lemma PipeKeeps(s: State, a: P.Action)
    requires Inv(s) && PipeEnabled(s, a)
    ensures Inv(PipeStep(s, a))
  {
    if !P.HasEffect(s.pipe, a) {
      if a.Term? { TermKeeps(s, a.term); } else { CalmKeeps(s, a); }
    } else if a == P.Task(P.Begin) {
      BeginKeeps(s);
    } else if Forgets(s.pipe, a) {
      ForgetKeeps(s, a);
    } else if a == P.Task(P.Pop) {
      PopKeeps(s);
    } else if a == P.Task(P.Report) {
      ReportKeeps(s);
    } else {
      DrainKeeps(s, a);
    }
  }

  // ----- acknowledgements

  lemma ResolveKeepsBooks(s: State)
    requires s.ack.Found? && Books(s)
    ensures Books(AckStep(s, Resolve))
  {
    forall m: nat
      ensures Balanced(AckStep(s, Resolve), m)
    {
      assert Balanced(s, m);
    }
  }

  lemma ResolveKeeps(s: State)
    requires Inv(s) && AckEnabled(s, Resolve)
    ensures Inv(AckStep(s, Resolve))
  {
    hide Books, P.Inv, Tags, Waits, Defects, Entries, Presence;
    ResolveKeepsBooks(s);
    ResolveKeepsRest(s);
  }

  lemma ResolveKeepsRest(s: State)
    requires s.ack.Found? && Waits(s) && Defects(s) && Entries(s) && Presence(s)
    ensures var t := AckStep(s, Resolve); Waits(t) && Defects(t) && Entries(t) && Presence(t)
  {
  }

  // an acknowledgement that starts or is looked up changes no books
  lemma AckMoveBalances(s: State, ack: AckPC)
    requires Books(s) && !s.ack.Resolved? && !ack.Resolved?
    ensures Books(s.(ack := ack))
  {
    forall m: nat
      ensures Balanced(s.(ack := ack), m)
    {
      assert Balanced(s, m);
    }
  }

  lemma AckMoveKeepsRest(s: State, ack: AckPC)
    requires Waits(s) && Defects(s) && Handling(ack) == Handling(s.ack)
    ensures Waits(s.(ack := ack)) && Defects(s.(ack := ack))
  {
  }

  lemma LookupKeepsDefects(s: State)
    requires AckEnabled(s, Lookup) && Defects(s) && Presence(s)
    ensures Defects(AckStep(s, Lookup))
  {
  }

  lemma LookupKeeps(s: State)
    requires Inv(s) && AckEnabled(s, Lookup)
    ensures Inv(AckStep(s, Lookup))
  {
    hide Books, P.Inv, Tags, Defects;
    var t := AckStep(s, Lookup);
    LookupKeepsDefects(s);
    SentIsNotArmed(s.pipe, s.ack.msg);
    BegunIsPushed(s.pipe);
    if s.ack.id in s.table {
      IdIsUnique(s, s.ack.msg, s.table[s.ack.id]);
    }
    AckMoveBalances(s, t.ack);
  }

  lemma DispatchKeeps(s: State, m: nat)
    requires Inv(s) && AckEnabled(s, Dispatch(m))
    ensures Inv(AckStep(s, Dispatch(m)))
  {
    hide Books, P.Inv, Tags, Waits, Defects;
    AckMoveBalances(s, AckStep(s, Dispatch(m)).ack);
    AckMoveKeepsRest(s, AckStep(s, Dispatch(m)).ack);
  }

  lemma RemoveBalances(s: State, m: nat)
    requires s.ack.Resolved? && !s.locked && Balanced(s, m)
    requires s.ack.ctx < |s.pipe.front.pushed| && IdOf(s, s.ack.ctx) == s.ack.id
    requires m < |s.pipe.front.pushed| && m != s.ack.ctx ==> IdOf(s, m) != s.ack.id
    ensures Balanced(AckStep(s, Remove), m)
  {
  }

  lemma RemoveKeepsPresence(s: State)
    requires AckEnabled(s, Remove) && Presence(s)
    requires P.Armed(s.pipe.tasks.loop) ==> IdOf(s, s.pipe.tasks.loop.msg) != s.ack.id
    ensures Presence(AckStep(s, Remove))
  {
  }

  lemma AckIsNotArmed(s: State)
    requires P.Inv(s.pipe) && Tags(s.ids, s.pipe.front.calls) && Entries(s) && Handling(s.ack) && P.Armed(s.pipe.tasks.loop)
    ensures IdOf(s, s.pipe.tasks.loop.msg) != s.ack.id
  {
    SentIsNotArmed(s.pipe, s.ack.ctx);
    assert s.pipe.tasks.loop.msg < |s.pipe.front.pushed|;
    IdIsUnique(s, s.ack.ctx, s.pipe.tasks.loop.msg);
  }

  lemma UserLife(p: P.State)
    requires P.Inv(p)
    ensures p.term.pc.Hook2? ==> p.term.life == P.Terminating
  {
  }

  lemma RemoveKeepsWaits(s: State)
    requires Inv(s) && AckEnabled(s, Remove)
    ensures Waits(AckStep(s, Remove))
  {
    hide Books, Defects, P.Inv, F.Fates, Tags;
    var t := AckStep(s, Remove);
    SentIsNotArmed(s.pipe, s.ack.ctx);
    UserLife(s.pipe);
    if s.ack.id in s.wait.asked {
      IdIsUnique(s, s.ack.ctx, s.wait.asked[s.ack.id]);
    }
    assert |t.table| == 0 <==> t.table == map[];
  }

  lemma RemoveKeepsEntries(s: State)
    requires AckEnabled(s, Remove) && Entries(s)
    ensures Entries(AckStep(s, Remove)) && s.ack.ctx in s.pipe.out.wire
  {
    var t := AckStep(s, Remove);
    forall id | id in t.table
      ensures t.table[id] < P.Begun(t.pipe.tasks) && IdOf(t, t.table[id]) == id
    {
      assert id in s.table;
    }
  }

  // an entry that is already gone was swept, so this is the overlap that the sweep saw
  lemma RemoveKeepsDefects(s: State)
    requires AckEnabled(s, Remove) && Defects(s) && s.ack.ctx in s.pipe.out.wire
    requires s.ack.id in s.table <==> !s.swept
    ensures Defects(AckStep(s, Remove))
  {
  }

  lemma RemoveKeeps(s: State)
    requires Inv(s) && AckEnabled(s, Remove)
    ensures Inv(AckStep(s, Remove))
  {
    assert s.ack.id in s.table <==> !s.swept;
    hide P.Inv, F.Fates, Waits, Books, Tags, Defects, Presence, Entries;
    if P.Armed(s.pipe.tasks.loop) { AckIsNotArmed(s); }
    RemoveKeepsBooks(s);
    RemoveKeepsPresence(s);
    RemoveKeepsWaits(s);
    RemoveKeepsEntries(s);
    RemoveKeepsDefects(s);
  }

  lemma RemoveKeepsBooks(s: State)
    requires Inv(s) && AckEnabled(s, Remove)
    ensures Books(AckStep(s, Remove))
  {
    hide Balanced, Defects, Waits, Presence, F.Fates, P.Inv, Tags;
    SentIsNotArmed(s.pipe, s.ack.ctx);
    UniqueIds(s, s.ack.ctx);
    forall m: nat
      ensures Balanced(AckStep(s, Remove), m)
    {
      assert Balanced(s, m);
      RemoveBalances(s, m);
    }
  }

  // ----- the terminator and the table

  lemma ClearBalances(s: State, id: nat, m: nat)
    requires id in s.table && Balanced(s, m)
    requires s.table[id] < |s.pipe.front.pushed| && IdOf(s, s.table[id]) == id
    requires m < |s.pipe.front.pushed| && m != s.table[id] ==> IdOf(s, m) != id
    ensures Balanced(ClearStep(s, id), m)
  {
  }

  lemma BegunIsPushed(p: P.State)
    requires P.Inv(p)
    ensures P.Begun(p.tasks) <= |p.front.pushed|
    ensures !p.term.unsolicited && P.Rank(p.term.pc) > 7 ==> p.tasks.complete && p.tasks.loop.Finished?
  {
  }

  lemma ClearKeepsDefects(s: State, id: nat)
    requires EndEnabled(s, Clear(id)) && Defects(s)
    ensures Defects(EndStep(s, Clear(id)))
  {
  }

  lemma ClearKeeps(s: State, id: nat)
    requires Inv(s) && EndEnabled(s, Clear(id))
    ensures Inv(EndStep(s, Clear(id)))
  {
    hide Balanced, P.Inv, Tags, Defects;
    BegunIsPushed(s.pipe);
    ClearKeepsDefects(s, id);
    UniqueIds(s, s.table[id]);
    forall m: nat
      ensures Balanced(ClearStep(s, id), m)
    {
      assert Balanced(s, m);
      ClearBalances(s, id, m);
    }
  }

  lemma EndKeepsBooks(s: State, op: EndOp)
    requires EndEnabled(s, op) && !op.Clear? && Books(s)
    ensures Books(EndStep(s, op))
  {
    forall m: nat
      ensures Balanced(EndStep(s, op), m)
    {
      assert Balanced(s, m);
    }
  }

  lemma EndKeepsWaits(s: State, op: EndOp)
    requires EndEnabled(s, op) && !op.Clear? && Waits(s) && Entries(s) && P.Inv(s.pipe) && Presence(s)
    ensures Waits(EndStep(s, op))
  {
    hide P.Calls, P.Submission, P.Apart;
    BegunIsPushed(s.pipe);
  }

  lemma EndKeepsPresence(s: State, op: EndOp)
    requires EndEnabled(s, op) && !op.Clear? && Presence(s) && Entries(s)
    ensures Presence(EndStep(s, op)) && Entries(EndStep(s, op))
  {
  }

  lemma EndKeepsDefects(s: State, op: EndOp)
    requires EndEnabled(s, op) && !op.Clear? && Defects(s) && Presence(s)
    ensures Defects(EndStep(s, op))
  {
  }

  lemma EndKeeps(s: State, op: EndOp)
    requires Inv(s) && EndEnabled(s, op)
    ensures Inv(EndStep(s, op))
  {
    if op.Clear? {
      ClearKeeps(s, op.id);
    } else {
      hide Books, Tags, P.Inv, Waits, Defects, Presence, Entries;
      EndKeepsBooks(s, op);
      EndKeepsWaits(s, op);
      EndKeepsPresence(s, op);
      EndKeepsDefects(s, op);
    }
  }

  lemma StepKeeps(s: State, a: Action)
    requires Inv(s) && Enabled(s, a)
    ensures Inv(Step(s, a))
  {
    match a
    case Tag(c) => TagKeeps(s, c);
    case Pipe(pa) => PipeKeeps(s, pa);
    case Ack(Dispatch(m)) => DispatchKeeps(s, m);
    case Ack(Lookup) => LookupKeeps(s);
    case Ack(Resolve) => ResolveKeeps(s);
    case Ack(Remove) => RemoveKeeps(s);
    case End(op) => EndKeeps(s, op);
  }

  lemma {:induction false} RunKeeps(s: State, actions: seq<Action>, t: State)
    requires Inv(s) && Run(s, actions, t)
    ensures Inv(t)
    decreases |actions|
  {
    if actions != [] {
      StepKeeps(s, actions[0]);
      RunKeeps(Step(s, actions[0]), actions[1..], t);
    }
  }

  lemma ReachableInv(capacity: nat, waits: bool, actions: seq<Action>, t: State)
    requires Run(Init(capacity, waits), actions, t)
    ensures Inv(t)
  {
    InitInv(capacity, waits);
    RunKeeps(Init(capacity, waits), actions, t);
  }
}
