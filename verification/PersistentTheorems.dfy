/** What holds in every run of the persistent publisher: when each context is resolved exactly once,
    the counts that Terminate reports, and a wait for acknowledgements that neither ends early nor
    misses its signal. */
module PersistentTheorems {
  import opened PersistentProtocol
  import opened Wrappers
  import F = PipelineFates
  import P = Pipeline
  import T = PipelineTheorems

  // Terminate or the unsolicited termination has returned, the Run loop has ended, and no
  // acknowledgement is between its lookup and the deletion of its entry.
  predicate Over(s: State) {
    s.pipe.term.pc.Gone? && s.pipe.tasks.loop.Finished? && !Handling(s.ack)
  }

  // Terminate, called by the user, has returned; its Run loop is over then.
  predicate AtRest(s: State) {
    s.pipe.term.pc.Gone? && !s.pipe.term.unsolicited && !Handling(s.ack)
  }

  ghost predicate ExactlyOnce(s: State) {
    forall m :: 0 <= m < |s.pipe.front.pushed| ==> Count(s.ledger, m) == 1
  }

  // every pop was a task's own, and no task came too late for the buffer or the table
  predicate Orderly(s: State) {
    s.pipe.out.stray.None? && s.pipe.out.vain == [] && s.ledger.stale == 0
  }

  lemma RestIsOver(s: State)
    requires Inv(s) && AtRest(s)
    ensures Over(s) && s.pipe.out.vain == [] && s.ledger.stale == 0 && s.table == map[]
    ensures s.pipe.out.late <==> s.pipe.out.stray.Some?
  {
    hide Books, Waits, Tags;
  }

  lemma OverScene(s: State)
    requires P.Inv(s.pipe) && Presence(s) && Over(s)
    ensures s.pipe.buffer.Removed() == |s.pipe.front.pushed| && s.swept
    ensures P.CreditOf(s.pipe.tasks.loop) == None && P.FailingOf(s.pipe.tasks.loop) == None
    ensures s.pipe.out.vain == [] ==> s.table == map[]
  {
  }

  // the books of context m
  ghost predicate Settled(s: State, m: nat) {
    Count(s.ledger, m) + Flag(InTable(s, m)) + s.ledger.lost[m]
    == Flag(m < |s.pipe.front.pushed|) + s.ledger.doubled[m] + s.ledger.overlapped[m]
  }

  lemma OverSettles(s: State, m: nat)
    requires P.Inv(s.pipe) && Presence(s) && Books(s) && Over(s)
    ensures Settled(s, m)
  {
    OverScene(s);
    hide P.Inv;
    assert Balanced(s, m);
  }

  // The law of the contexts, for a user's Terminate and for an unsolicited termination: a context
  // is resolved once for its message or still has an entry, and the exceptions are counted. At
  // most one acknowledgement overlaps drainAckTable. Each context resolved once too often stands
  // for a pop that took another's message, which is lost, for the one task that may find the
  // buffer drained, or for a task that found its entry gone.
  lemma ResolutionLaw(capacity: nat, waits: bool, actions: seq<Action>, t: State, m: nat)
    requires Run(Init(capacity, waits), actions, t) && Over(t)
    ensures Count(t.ledger, m) + Flag(InTable(t, m)) + t.ledger.lost[m]
            == Flag(m < |t.pipe.front.pushed|) + t.ledger.doubled[m] + t.ledger.overlapped[m]
    ensures |t.ledger.overlapped| == Flag(t.ledger.racing)
    ensures |t.ledger.doubled| == |t.ledger.lost| + |t.pipe.out.vain| + t.ledger.stale && |t.pipe.out.vain| <= 1
    ensures t.pipe.out.stray.None? ==> t.ledger.lost == multiset{}
  {
    ReachableInv(capacity, waits, actions, t);
    OverSettles(t, m);
    OverScene(t);
  }

  // After either way to terminate, every context is resolved exactly once and none is left in the
  // table if and only if no acknowledgement overlapped drainAckTable, every task that popped found
  // its own message, and none that did not send found its entry gone.
  lemma ResolvedExactlyOnce(capacity: nat, waits: bool, actions: seq<Action>, t: State)
    requires Run(Init(capacity, waits), actions, t) && Over(t)
    ensures ExactlyOnce(t) && t.table == map[] <==> !t.ledger.racing && Orderly(t)
  {
    ReachableInv(capacity, waits, actions, t);
    OnceMeansOrderly(t);
  }

  lemma OnceMeansOrderly(t: State)
    requires Inv(t) && Over(t)
    ensures ExactlyOnce(t) && t.table == map[] <==> !t.ledger.racing && Orderly(t)
  {
    OverScene(t);
    forall m: nat
      ensures Settled(t, m)
    {
      OverSettles(t, m);
    }
    hide P.Inv, Books, Waits, Entries, Tags;
    if t.pipe.out.stray.Some? {
      StrayIsNeverResolved(t);
    } else if t.ledger.doubled != multiset{} {
      DoubledIsTwice(t);
    } else if t.ledger.racing {
      OverlapResolvesTwice(t);
    } else {
      NoDefectMeansOnce(t);
    }
  }

  lemma NoDefectMeansOnce(s: State)
    requires Defects(s) && Over(s) && s.swept && !s.ledger.racing && s.ledger.doubled == multiset{}
    requires s.pipe.out.stray.None? && (s.pipe.out.vain == [] ==> s.table == map[])
    requires forall m: nat :: Settled(s, m)
    ensures ExactlyOnce(s) && s.table == map[] && Orderly(s)
  {
    assert s.ledger.overlapped == s.ledger.lost == multiset{};
    forall m | 0 <= m < |s.pipe.front.pushed|
      ensures Count(s.ledger, m) == 1
    {
      assert Settled(s, m);
    }
  }

  // the message that the first astray pop took is never sent, so its context is not resolved
  lemma StrayIsNeverResolved(s: State)
    requires Defects(s) && F.Fates(s.pipe) && s.pipe.out.stray.Some?
    requires s.pipe.buffer.Removed() == |s.pipe.front.pushed|
    requires forall m: nat :: Settled(s, m)
    ensures !ExactlyOnce(s)
  {
    var l := s.pipe.out.stray.value.1;
    assert F.Fate(s.pipe, l);
    assert Settled(s, l) && l !in s.pipe.out.wire;
    assert Count(s.ledger, l) == 0;
  }

  lemma DoubledIsTwice(s: State)
    requires Defects(s) && s.pipe.out.stray.None? && s.ledger.doubled != multiset{}
    requires forall m: nat :: Settled(s, m)
    ensures !ExactlyOnce(s) || s.table != map[]
    ensures !Orderly(s)
  {
    assert |s.ledger.doubled| > 0;
    var m :| m in s.ledger.doubled;
    assert Settled(s, m);
    assert Count(s.ledger, m) + Flag(InTable(s, m)) >= 2;
  }

  lemma OverlapResolvesTwice(s: State)
    requires Defects(s) && P.Inv(s.pipe) && Over(s) && s.swept && s.ledger.racing && s.pipe.out.stray.None?
    requires s.ledger.doubled == multiset{}
    requires forall m: nat :: Settled(s, m)
    ensures !ExactlyOnce(s) || s.table != map[]
  {
    hide P.Inv;
    assert |s.ledger.overlapped| == 1;
    var m :| m in s.ledger.overlapped;
    SentIsNotArmed(s.pipe, m);
    assert Settled(s, m);
    assert Count(s.ledger, m) + Flag(InTable(s, m)) >= 2;
  }

  // A user's Terminate leaves no entry, and resolves every context exactly once if and only if no
  // acknowledgement overlapped drainAckTable and no task popped the buffer after another was
  // interrupted.
  lemma TerminateResolvesExactlyOnce(capacity: nat, waits: bool, actions: seq<Action>, t: State)
    requires Run(Init(capacity, waits), actions, t) && AtRest(t)
    ensures t.table == map[]
    ensures ExactlyOnce(t) <==> !t.ledger.racing && !t.pipe.out.late
  {
    ReachableInv(capacity, waits, actions, t);
    RestIsOver(t);
    OnceMeansOrderly(t);
  }

  // Terminate within its grace period, while the service is up, goes wrong only in the overlap.
  lemma GracefulResolution(capacity: nat, waits: bool, actions: seq<Action>, t: State)
    requires Run(Init(capacity, waits), actions, t) && AtRest(t) && !t.pipe.term.stopTask && !t.pipe.down
    ensures ExactlyOnce(t) <==> !t.ledger.racing
  {
    ReachableInv(capacity, waits, actions, t);
    TerminateResolvesExactlyOnce(capacity, waits, actions, t);
    NobodyInterrupted(t.pipe);
  }

  lemma NobodyInterrupted(p: P.State)
    requires P.Inv(p) && F.Fates(p) && !p.term.stopTask && !p.down
    ensures !p.out.late
  {
  }

  // Correlation ids are positive, and different messages have different ones.
  lemma IdsAreUnique(capacity: nat, waits: bool, actions: seq<Action>, t: State, m: nat, n: nat)
    requires Run(Init(capacity, waits), actions, t) && m < n < |t.pipe.front.pushed|
    ensures IdOf(t, m) > 0 && IdOf(t, n) > 0 && IdOf(t, m) != IdOf(t, n)
  {
    ReachableInv(capacity, waits, actions, t);
    IdIsUnique(t, m, n);
    IdIsUnique(t, n, m);
  }

  // Who resolves a context is right about its message: an acknowledgement only one that was sent,
  // a send error only one that failed, drainQueue exactly the drained ones; and no context is both
  // acknowledged and failed.
  lemma ResolvedByTheRightParty(capacity: nat, waits: bool, actions: seq<Action>, t: State)
    requires Run(Init(capacity, waits), actions, t)
    ensures forall m :: m in t.ledger.acked ==> m in t.pipe.out.wire && m !in t.ledger.failed
    ensures forall m :: m in t.ledger.failed ==> m in t.pipe.out.failures
    ensures t.ledger.returned == multiset(t.pipe.buffer.drained)
  {
    ReachableInv(capacity, waits, actions, t);
  }

  // ----- the counts

  function Upto(n: nat): (s: multiset<nat>)
    ensures |s| == n
  {
    if n == 0 then multiset{} else Upto(n - 1) + multiset{n - 1}
  }

  lemma {:induction false} UptoCounts(n: nat, m: nat)
    ensures Upto(n)[m] == Flag(m < n)
  {
    if n > 0 {
      UptoCounts(n - 1, m);
    }
  }

  // the contexts that still have an entry
  function Left(s: State): set<nat> {
    set m: nat | m < |s.pipe.front.pushed| && InTable(s, m)
  }

  lemma {:induction false} EntriesCount(ids: map<nat, nat>, pushed: seq<nat>, table: map<nat, nat>, left: set<nat>)
    requires forall id :: id in table ==> table[id] in left && IdIn(ids, pushed, table[id]) == id
    requires forall m :: m in left ==> IdIn(ids, pushed, m) in table && table[IdIn(ids, pushed, m)] == m
    ensures |table| == |left|
    decreases left
  {
    hide IdIn;
    if left == {} {
      assert table == map[];
    } else {
      var m :| m in left;
      EntriesCount(ids, pushed, table - {IdIn(ids, pushed, m)}, left - {m});
      assert table.Keys == (table - {IdIn(ids, pushed, m)}).Keys + {IdIn(ids, pushed, m)};
      assert |table| == |table.Keys|;
    }
  }

  lemma EachLeftHasOneEntry(s: State)
    requires P.Inv(s.pipe) && Tags(s.ids, s.pipe.front.calls) && Entries(s)
    ensures |Left(s)| == |s.table|
  {
    BegunIsPushed(s.pipe);
    forall m | m in Left(s)
      ensures s.table[IdOf(s, m)] == m
    {
      IdIsUnique(s, m, s.table[IdOf(s, m)]);
    }
    EntriesCount(s.ids.of, s.pipe.front.pushed, s.table, Left(s));
  }

  lemma SumsAgree(s: State)
    requires forall m: nat :: Settled(s, m)
    ensures var l := s.ledger;
            |l.acked| + |l.failed| + |l.returned| + |l.cleared| + |l.lost| + |Left(s)|
            == |s.pipe.front.pushed| + |l.doubled| + |l.overlapped|
  {
    var l, n := s.ledger, |s.pipe.front.pushed|;
    var some := l.acked + l.failed + l.returned + l.cleared + l.lost + multiset(Left(s));
    var all := Upto(n) + l.doubled + l.overlapped;
    forall m: nat
      ensures some[m] == all[m]
    {
      assert Settled(s, m);
      UptoCounts(n, m);
    }
    assert some == all;
    assert |some| == |l.acked| + |l.failed| + |l.returned| + |l.cleared| + |l.lost| + |Left(s)|;
    assert |all| == n + |l.doubled| + |l.overlapped|;
  }

  lemma OverTotals(s: State)
    requires Inv(s) && Over(s)
    ensures var l := s.ledger;
            |l.acked| + |l.failed| + s.pipe.term.undelivered + s.unackedCount + |s.table|
            == |s.pipe.front.pushed| + Flag(l.racing) + |s.pipe.out.vain| + l.stale
  {
    OverScene(s);
    EachLeftHasOneEntry(s);
    Undelivered(s.pipe);
    forall m: nat
      ensures Settled(s, m)
    {
      OverSettles(s, m);
    }
    hide P.Inv, F.Fates, Waits, Tags, Entries, Settled, Presence;
    SumsAgree(s);
  }

  lemma Undelivered(p: P.State)
    requires P.Inv(p)
    ensures p.term.undelivered == |multiset(p.buffer.drained)|
  {
  }

  // Terminate returns an error with these two counts, or nil.
  function Incomplete(s: State): Option<(nat, nat)> {
    if s.pipe.term.undelivered > 0 || s.unackedCount > 0 then Some((s.pipe.term.undelivered, s.unackedCount)) else None
  }

  // The publish calls that returned nil are those acknowledged, those that failed to send, and
  // the two counts of the error, plus one if an acknowledgement overlapped the drain; nil means
  // that each was acknowledged or reported as failed.
  lemma AcceptedAreAccountedFor(capacity: nat, waits: bool, actions: seq<Action>, t: State)
    requires Run(Init(capacity, waits), actions, t) && AtRest(t) && t.pipe.front.lock == None
    ensures |T.AcceptedCalls(t.pipe.front)| + Flag(t.ledger.racing)
            == |t.ledger.acked| + |t.ledger.failed| + t.pipe.term.undelivered + t.unackedCount
    ensures t.pipe.term.undelivered == |t.ledger.returned| && t.unackedCount == |t.ledger.cleared|
    ensures Incomplete(t) == None <==> t.ledger.returned == multiset{} && t.ledger.cleared == multiset{}
  {
    ReachableInv(capacity, waits, actions, t);
    RestIsOver(t);
    OverTotals(t);
    T.AcceptedAreThePushed(t.pipe.front);
    Undelivered(t.pipe);
  }

  // After an unsolicited termination the same counts, once the Run loop is over, are too low by
  // the entries left behind, and too high by the task that may find the buffer drained and by
  // those that found their entry gone.
  lemma UnsolicitedAccounting(capacity: nat, waits: bool, actions: seq<Action>, t: State)
    requires Run(Init(capacity, waits), actions, t) && Over(t) && t.pipe.front.lock == None
    ensures |T.AcceptedCalls(t.pipe.front)| + Flag(t.ledger.racing) + |t.pipe.out.vain| + t.ledger.stale
            == |t.ledger.acked| + |t.ledger.failed| + t.pipe.term.undelivered + t.unackedCount + |t.table|
    ensures t.pipe.term.undelivered == |t.ledger.returned| && t.unackedCount == |t.ledger.cleared|
  {
    ReachableInv(capacity, waits, actions, t);
    OverTotals(t);
    T.AcceptedAreThePushed(t.pipe.front);
    Undelivered(t.pipe);
  }

  // ----- the wait for acknowledgements

  // correlationComplete closes at most once; while Terminate waits it is closed exactly if the
  // table is empty; and Terminate is woken only when every context it saw was acknowledged.
  lemma WakesExactlyWhenDrained(capacity: nat, waits: bool, actions: seq<Action>, t: State)
    requires Run(Init(capacity, waits), actions, t)
    ensures t.wait.completes <= 1
    ensures t.wait.pc == Asked ==> (t.wait.completes == 1 <==> t.table == map[])
    ensures t.wait.woken ==> forall id :: id in t.wait.asked ==> t.wait.asked[id] in t.ledger.acked
  {
    ReachableInv(capacity, waits, actions, t);
  }

  // The close is the work of the acknowledgement that removes the last entry, unless that entry
  // was swept while the acknowledgement overlapped drainAckTable.
  lemma LastAckCloses(capacity: nat, waits: bool, actions: seq<Action>, t: State, a: Action)
    requires Run(Init(capacity, waits), actions, t) && Enabled(t, a)
    ensures var u := Step(t, a);
            u.wait.completes != t.wait.completes ==>
              && a == Ack(Remove) && t.wait.completes == 0 && u.wait.completes == 1 && u.table == map[]
              && if t.swept then t.ledger.racing else t.table.Keys == {t.ack.id}
  {
    ReachableInv(capacity, waits, actions, t);
    if a == Ack(Remove) {
      RemoveKeepsWaits(t);
      hide Inv;
      RemoveCloses(t);
    } else {
      hide Inv;
      OnlyRemoveCloses(t, a);
    }
  }

  lemma RemoveCloses(s: State)
    requires AckEnabled(s, Remove) && Presence(s) && Defects(s) && Waits(AckStep(s, Remove))
    ensures var t := AckStep(s, Remove);
            t.wait.completes != s.wait.completes ==>
              && s.wait.completes == 0 && t.wait.completes == 1 && t.table == map[]
              && if s.swept then s.ledger.racing else s.table.Keys == {s.ack.id}
  {
    hide Misplaced;
    var left := s.table - {s.ack.id};
    assert |left| == 0 ==> left == map[];
    assert s.ack.id in s.table && left == map[] ==> s.table.Keys == left.Keys + {s.ack.id};
  }

  lemma OnlyRemoveCloses(s: State, a: Action)
    requires Enabled(s, a) && a != Ack(Remove)
    ensures Step(s, a).wait.completes == s.wait.completes
  {
    match a
    case Tag(c) =>
    case Pipe(pa) => PipeNeverCloses(s, pa);
    case Ack(op) => assert AckStep(s, op).wait.completes == s.wait.completes;
    case End(op) => assert EndStep(s, op).wait.completes == s.wait.completes;
  }

  lemma PipeNeverCloses(s: State, a: P.Action)
    requires P.Enabled(s.pipe, a)
    ensures PipeStep(s, a).wait == s.wait
  {
    hide P.Step;
    assert Effect(s, a).wait == s.wait;
  }
}
