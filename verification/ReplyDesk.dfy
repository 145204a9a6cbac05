/** The correlation table of the request/reply publisher: everything that happens under rxLock in
    internal/impl/publisher/request_reply_message_publisher_impl.go, as functions on values. */
module ReplyDesk {
  import opened Wrappers

  // A Go channel of capacity 1, with a count of its closes: a second close panics.
  datatype Chan<T> = Chan(items: seq<T>, closes: nat) {
    predicate Closed() {
      closes > 0
    }

    predicate Full() {
      |items| >= 1
    }

    function Put(x: T): Chan<T> {
      Chan(items + [x], closes)
    }

    function Take(): Chan<T>
      requires items != []
    {
      Chan(items[1..], closes)
    }

    function Close(): Chan<T> {
      Chan(items, closes + 1)
    }

    // `select { case <-c: default: close(c) }`, which also swallows a value that nobody took
    function Discard(): Chan<T> {
      if items != [] then Take() else if Closed() then this else Close()
    }
  }

  datatype Reply = Reply(id: nat, body: nat)

  // What the publish call and then the outcome closure of a request do next; a Dispatch holds
  // the reply that the closure returns, or None for an error.
  datatype Owner =
    | Publishing | Failing | Failed
    | AwaitSent | AwaitReply | Verify(got: Reply) | Dispatch(found: Option<Reply>) | Closing(found: Option<Reply>)
    | Returned(found: Option<Reply>)

  datatype Entry = Entry(
    id: nat, hasHandler: bool, timed: bool, sent: Chan<bool>, result: Chan<Reply>, received: bool,
    placed: nat, handled: bool, owner: Owner)

  // entries[k] is the k-th request ever made; the table maps a correlation id to its request
  datatype Desk = Desk(entries: seq<Entry>, table: map<nat, nat>, nextId: nat, requested: bool, completes: nat) {
    function Set(k: nat, e: Entry): Desk
      requires k < |entries|
    {
      Desk(entries[k := e], table, nextId, requested, completes)
    }

    // createReplyCorrelation
    function Create(hasHandler: bool, timed: bool): Desk {
      var e := Entry(nextId, hasHandler, timed, Chan([], 0), Chan([], 0), false, 0, false, Publishing);
      Desk(entries + [e], table[nextId := |entries|], nextId + 1, requested, completes)
    }

    predicate Holds(id: nat) {
      id in table && table[id] < |entries|
    }

    // signalRequestCorrelationSent would block on a full channel
    predicate CanSignal(id: nat) {
      Holds(id) ==> !entries[table[id]].sent.Full()
    }

    // signalRequestCorrelationSent; ok stands for a nil error
    function Signal(id: nat, ok: bool): Desk {
      if Holds(id) then
        var e := entries[table[id]];
        Set(table[id], e.(sent := e.sent.Put(ok)))
      else this
    }

    // handleReplyMessage; the send on a channel that Terminate closed panics and is recovered
    function HandleReply(r: Reply): Desk {
      if Holds(r.id) && !entries[table[r.id]].received then
        var e := entries[table[r.id]];
        Set(table[r.id],
            if e.result.Closed() then e.(received := true)
            else e.(received := true, placed := e.placed + 1, result := e.result.Put(r)))
      else this
    }

    // closeReplyCorrelation, called by request k, which moves on to owner
    function CloseReply(k: nat, owner: Owner): Desk
      requires k < |entries|
    {
      var id := entries[k].id;
      if Holds(id) then
        var j := table[id];
        var e := entries[j].(sent := entries[j].sent.Discard(), result := entries[j].result.Discard());
        var left := table - {id};
        var closed := entries[j := e];
        Desk(closed[k := closed[k].(owner := owner)], left, nextId, requested,
             if requested && |left| == 0 && completes == 0 then completes + 1 else completes)
      else Set(k, entries[k].(owner := owner))
    }

    // the last act of Terminate: completion for everyone, and every pending request unblocked
    function CloseAll(): Desk {
      Desk(seq(|entries|, k requires 0 <= k < |entries| => if Pending(k) then Unblocked(entries[k]) else entries[k]),
           table, nextId, requested, if completes == 0 then 1 else completes)
    }

    predicate Pending(k: nat)
      requires k < |entries|
    {
      entries[k].id in table && table[entries[k].id] == k
    }
  }

  function Unblocked(e: Entry): Entry {
    e.(sent := e.sent.Discard(), result := e.result.Close())
  }

  function Empty(firstId: nat): Desk {
    Desk([], map[], firstId, false, 0)
  }

  // ----- the invariant

  predicate Done(owner: Owner) {
    owner.Failed? || owner.Returned?
  }

  // the reply that the outcome closure has taken
  function Found(owner: Owner): Option<Reply> {
    match owner
    case Verify(r) => Some(r)
    case Dispatch(r) => r
    case Closing(r) => r
    case Returned(r) => r
    case _ => None
  }

  // A request is in the table until its publish failed or its outcome returned; its channels are
  // open while it is there, unless Terminate closed them all; no channel is closed twice; it
  // gets at most one reply, which is its own.
  ghost predicate Sound(d: Desk, k: nat, final: bool)
    requires k < |d.entries|
  {
    var e := d.entries[k];
    && e.id < d.nextId
    && (e.id in d.table <==> !Done(e.owner))
    && (e.id in d.table ==> d.table[e.id] == k && (!final ==> !e.sent.Closed() && !e.result.Closed()))
    && e.sent.closes <= 1 && e.result.closes <= 1
    && e.placed <= 1 && |e.result.items| <= e.placed && (!e.received ==> e.placed == 0)
    && (forall i :: 0 <= i < |e.result.items| ==> e.result.items[i].id == e.id)
    && (Found(e.owner).Some? ==> Found(e.owner).value.id == e.id)
    && (e.owner.Closing? || e.owner.Returned? ==> e.handled == e.hasHandler)
  }

  ghost predicate Valid(d: Desk, final: bool) {
    && (forall k :: 0 <= k < |d.entries| ==> Sound(d, k, final))
    && (forall j, k :: 0 <= j < k < |d.entries| ==> d.entries[j].id != d.entries[k].id)
    && (forall id :: id in d.table ==> d.table[id] < |d.entries| && d.entries[d.table[id]].id == id)
    && d.completes <= 1
  }

  lemma CreateValid(d: Desk, hasHandler: bool, timed: bool, final: bool)
    requires Valid(d, final)
    ensures Valid(d.Create(hasHandler, timed), final)
  {
    var t := d.Create(hasHandler, timed);
    forall k | 0 <= k < |t.entries|
      ensures Sound(t, k, final)
    {
      if k < |d.entries| {
        assert Sound(d, k, final) && t.entries[k] == d.entries[k];
      }
    }
    forall j, k | 0 <= j < k < |t.entries|
      ensures t.entries[j].id != t.entries[k].id
    {
      assert Sound(d, j, final);
      if k < |d.entries| { assert t.entries[k] == d.entries[k]; }
    }
    forall id | id in t.table
      ensures t.table[id] < |t.entries| && t.entries[t.table[id]].id == id
    {
      if id != d.nextId { assert d.table[id] < |d.entries|; }
    }
  }

  // a step of the one request k that keeps its id and its place in the table
  lemma SetValid(d: Desk, k: nat, e: Entry, final: bool)
    requires Valid(d, final) && k < |d.entries| && e.id == d.entries[k].id
    requires Sound(d.Set(k, e), k, final)
    ensures Valid(d.Set(k, e), final)
  {
    var t := d.Set(k, e);
    forall j | 0 <= j < |t.entries|
      ensures Sound(t, j, final)
    {
      if j != k { assert Sound(d, j, final) && t.entries[j] == d.entries[j]; }
    }
  }

  // A signal never goes to a closed channel, as long as Terminate has not closed them all.
  lemma SignalValid(d: Desk, id: nat, ok: bool)
    requires Valid(d, false)
    ensures Valid(d.Signal(id, ok), false)
    ensures d.Holds(id) ==> !d.entries[d.table[id]].sent.Closed()
  {
    if d.Holds(id) {
      var e := d.entries[d.table[id]];
      assert Sound(d, d.table[id], false);
      SetValid(d, d.table[id], e.(sent := e.sent.Put(ok)), false);
    }
  }

  // The send of a reply never blocks and goes to the request with its id; every other request
  // is left alone.
  lemma ReplyValid(d: Desk, r: Reply, final: bool)
    requires Valid(d, final)
    ensures Valid(d.HandleReply(r), final)
    ensures d.Holds(r.id) && !d.entries[d.table[r.id]].received ==> !d.entries[d.table[r.id]].result.Full()
    ensures forall k :: 0 <= k < |d.entries| && d.HandleReply(r).entries[k] != d.entries[k] ==>
              && d.entries[k].id == r.id && d.entries[k].placed == 0 && !d.entries[k].received
              && d.HandleReply(r).entries[k].received
  {
    if d.Holds(r.id) {
      var k := d.table[r.id];
      var e := d.entries[k];
      assert Sound(d, k, final);
      if !e.received {
        SetValid(d, k, d.HandleReply(r).entries[k], final);
      }
    }
  }

  lemma CloseReplyValid(d: Desk, k: nat, owner: Owner, final: bool)
    requires Valid(d, final) && k < |d.entries| && !Done(d.entries[k].owner)
    requires owner == Failed || (d.entries[k].owner.Closing? && owner == Returned(d.entries[k].owner.found))
    ensures Valid(d.CloseReply(k, owner), final)
    ensures d.CloseReply(k, owner).table == d.table - {d.entries[k].id}
    ensures forall j :: 0 <= j < |d.entries| && j != k ==> d.CloseReply(k, owner).entries[j] == d.entries[j]
    ensures d.CloseReply(k, owner).entries[k].owner == owner
  {
    var t := d.CloseReply(k, owner);
    assert Sound(d, k, final);
    forall j | 0 <= j < |t.entries|
      ensures Sound(t, j, final)
    {
      assert Sound(d, j, final);
    }
  }

  lemma CloseAllValid(d: Desk)
    requires Valid(d, false)
    ensures Valid(d.CloseAll(), true) && d.CloseAll().completes == 1
    ensures forall k :: 0 <= k < |d.entries| && d.Pending(k) ==> !d.entries[k].result.Closed()
  {
    var t := d.CloseAll();
    assert forall k :: 0 <= k < |d.entries| ==> t.entries[k].id == d.entries[k].id && t.entries[k].owner == d.entries[k].owner;
    forall k | 0 <= k < |t.entries|
      ensures Sound(t, k, true) && (d.Pending(k) ==> !d.entries[k].result.Closed())
    {
      assert Sound(d, k, false);
    }
  }
}
