/** Reply topics and correlation ids of request/reply publishers (internal/impl/core/publisher.go):
    a prefix and a 64-bit id as sixteen upper-case hexadecimal digits, and the way back. */
module ReplyTopic {
  import opened Wrappers

  const LIMIT: nat := 0x1_0000_0000_0000_0000
  const DIGITS: nat := 16

  // v shifted left by n hexadecimal digits
  function Scale(v: nat, n: nat): nat {
    if n == 0 then v else 16 * Scale(v, n - 1)
  }

  function DigitChar(d: nat): char
    requires d < 16
  {
    "0123456789ABCDEF"[d]
  }

  // either case counts, as for strconv.ParseUint
  function DigitValue(c: char): Option<nat> {
    if '0' <= c <= '9' then Some((c as int) - ('0' as int))
    else if 'a' <= c <= 'f' then Some((c as int) - ('a' as int) + 10)
    else if 'A' <= c <= 'F' then Some((c as int) - ('A' as int) + 10)
    else None
  }

  // `%016X` for n digits
  function Hex(id: nat, n: nat): (s: string)
    ensures |s| == n
  {
    if n == 0 then "" else Hex(id / 16, n - 1) + [DigitChar(id % 16)]
  }

  // the value of a string of hexadecimal digits
  function Value(s: string): Option<nat> {
    if s == "" then Some(0)
    else
      var front, last := Value(s[..|s| - 1]), DigitValue(s[|s| - 1]);
      if front.Some? && last.Some? then Some(16 * front.value + last.value) else None
  }

  // strconv.ParseUint(s, 16, 64)
  function ParseUint(s: string): Option<nat> {
    if s == "" || Value(s) == None || Value(s).value >= LIMIT then None else Value(s)
  }

  // the last element of strings.Split(s, "/")
  function LastSegment(s: string): string {
    if s == "" || s[|s| - 1] == '/' then "" else LastSegment(s[..|s| - 1]) + [s[|s| - 1]]
  }

  function Topic(prefix: string, id: nat): string {
    prefix + Hex(id, DIGITS)
  }

  // the id that RemoveRequestorReplyHandler reads from a topic
  function TopicId(topic: string): Option<nat> {
    ParseUint(LastSegment(topic))
  }

  predicate AllZero(s: string) {
    forall i :: 0 <= i < |s| ==> s[i] == '0'
  }

  // ----- the way back

  lemma DigitRoundTrip(d: nat)
    requires d < 16
    ensures DigitValue(DigitChar(d)) == Some(d) && DigitChar(d) != '/'
  {
  }

  lemma {:induction false} HexHasNoSlash(id: nat, n: nat, i: nat)
    requires i < n
    ensures Hex(id, n)[i] != '/'
  {
    if i < n - 1 {
      HexHasNoSlash(id / 16, n - 1, i);
    } else {
      DigitRoundTrip(id % 16);
    }
  }

  // appending n digits shifts what stood before
  lemma {:induction false} ValueOfHex(s: string, id: nat, n: nat)
    requires id < Scale(1, n)
    ensures Value(s + Hex(id, n)) == if Value(s).Some? then Some(Scale(Value(s).value, n) + id) else None
  {
    hide DigitChar, DigitValue;
    if n == 0 {
      assert s + "" == s;
    } else {
      var t := s + Hex(id, n);
      ValueOfHex(s, id / 16, n - 1);
      DigitRoundTrip(id % 16);
      assert t[..|t| - 1] == s + Hex(id / 16, n - 1);
      assert t[|t| - 1] == DigitChar(id % 16);
    }
  }

  lemma {:induction false} LastSegmentOfTail(prefix: string, tail: string)
    requires forall i :: 0 <= i < |tail| ==> tail[i] != '/'
    ensures LastSegment(prefix + tail) == LastSegment(prefix) + tail
  {
    var s := prefix + tail;
    if tail == "" {
      assert s == prefix;
    } else {
      var shorter := tail[..|tail| - 1];
      LastSegmentOfTail(prefix, shorter);
      assert s[..|s| - 1] == prefix + shorter && s[|s| - 1] == tail[|tail| - 1];
      assert LastSegment(prefix) + tail == LastSegment(prefix) + shorter + [tail[|tail| - 1]];
    }
  }

  lemma {:induction false} ZeroValue(s: string)
    ensures Value(s) == Some(0) <==> AllZero(s)
  {
    if s != "" {
      ZeroValue(s[..|s| - 1]);
      assert AllZero(s) <==> AllZero(s[..|s| - 1]) && s[|s| - 1] == '0';
    }
  }

  lemma SixteenDigits(v: nat)
    ensures Scale(v, DIGITS) == LIMIT * v
  {
    assert Scale(v, 1) == 16 * v;
    assert Scale(v, 2) == 0x100 * v;
    assert Scale(v, 3) == 0x1000 * v;
    assert Scale(v, 4) == 0x1_0000 * v;
    assert Scale(v, 6) == 0x100_0000 * v;
    assert Scale(v, 8) == 0x1_0000_0000 * v;
    assert Scale(v, 10) == 0x100_0000_0000 * v;
    assert Scale(v, 12) == 0x1_0000_0000_0000 * v;
    assert Scale(v, 14) == 0x100_0000_0000_0000 * v;
  }

  // The id comes back from its topic exactly if what the prefix has after its last slash is
  // nothing, or zeros only; otherwise no id comes back, and never a wrong one.
  lemma TopicRoundTrip(prefix: string, id: nat)
    requires id < LIMIT
    ensures TopicId(Topic(prefix, id)) == if AllZero(LastSegment(prefix)) then Some(id) else None
  {
    hide Hex, LastSegment, Scale, Value, AllZero;
    var rest, digits := LastSegment(prefix), Hex(id, DIGITS);
    forall i | 0 <= i < |digits|
      ensures digits[i] != '/'
    {
      HexHasNoSlash(id, DIGITS, i);
    }
    LastSegmentOfTail(prefix, digits);
    SixteenDigits(1);
    ValueOfHex(rest, id, DIGITS);
    ZeroValue(rest);
    if Value(rest).Some? {
      SixteenDigits(Value(rest).value);
    }
  }

  // in particular for the prefixes that the session supplies
  lemma SlashPrefixRoundTrip(prefix: string, id: nat)
    requires id < LIMIT && (prefix == "" || prefix[|prefix| - 1] == '/')
    ensures TopicId(Topic(prefix, id)) == Some(id)
  {
    TopicRoundTrip(prefix, id);
  }

  // Different ids give different topics and different correlation ids.
  lemma TopicsAreDistinct(prefix: string, a: nat, b: nat)
    requires a < LIMIT && b < LIMIT && Topic(prefix, a) == Topic(prefix, b)
    ensures a == b
  {
    SixteenDigits(1);
    SixteenDigits(0);
    ValueOfHex("", a, DIGITS);
    ValueOfHex("", b, DIGITS);
    assert Hex(a, DIGITS) == Topic(prefix, a)[|prefix|..];
    assert Hex(b, DIGITS) == Topic(prefix, b)[|prefix|..];
    assert "" + Hex(a, DIGITS) == Hex(a, DIGITS) && "" + Hex(b, DIGITS) == Hex(b, DIGITS);
  }

  // ----- the handlers

  datatype NativeError = NativeError(code: int)

  // The dispatch pointer of an id is the id itself.
  class ReplyHandlers<H> {
    const replyToPrefix: string
    var replyDispatchID: nat
    var publisherRxReplyMap: map<nat, H>

    predicate Valid()
      reads this
    {
      replyDispatchID < LIMIT && forall id :: id in publisherRxReplyMap ==> 0 < id <= replyDispatchID
    }

    constructor (prefix: string)
      ensures Valid() && replyToPrefix == prefix && publisherRxReplyMap == map[] && replyDispatchID == 0
    {
      replyToPrefix := prefix;
      replyDispatchID := 0;
      publisherRxReplyMap := map[];
    }

    // The handler is registered under a new id, unless the subscription fails.
    method AddRequestorReplyHandler(handler: H, subscribed: Result<(), NativeError>) returns (topic: Result<string, NativeError>)
      requires Valid() && replyDispatchID + 1 < LIMIT
      modifies this
      ensures Valid() && replyDispatchID == old(replyDispatchID) + 1 && replyDispatchID !in old(publisherRxReplyMap)
      ensures subscribed.Err? ==> topic == Err(subscribed.error) && publisherRxReplyMap == old(publisherRxReplyMap)
      ensures subscribed.Ok? ==> topic == Ok(Topic(replyToPrefix, replyDispatchID))
                                 && publisherRxReplyMap == old(publisherRxReplyMap)[replyDispatchID := handler]
    {
      replyDispatchID := replyDispatchID + 1;
      var id := replyDispatchID;
      publisherRxReplyMap := publisherRxReplyMap[id := handler];
      if subscribed.Err? {
        publisherRxReplyMap := publisherRxReplyMap - {id};
        assert publisherRxReplyMap == old(publisherRxReplyMap);
        return Err(subscribed.error);
      }
      return Ok(Topic(replyToPrefix, id));
    }

    // A topic without an id is ignored; a failing unsubscribe leaves the handler in place.
    method RemoveRequestorReplyHandler(topic: string, unsubscribed: Result<(), NativeError>) returns (r: Result<(), NativeError>)
      requires Valid()
      modifies this`publisherRxReplyMap
      ensures Valid()
      ensures TopicId(topic) == None ==> r == Ok(()) && publisherRxReplyMap == old(publisherRxReplyMap)
      ensures TopicId(topic).Some? ==>
                && r == unsubscribed
                && publisherRxReplyMap == (if r.Ok? then old(publisherRxReplyMap) - {TopicId(topic).value} else old(publisherRxReplyMap))
    {
      var id := TopicId(topic);
      if id == None {
        return Ok(());
      }
      r := unsubscribed;
      if r.Err? {
        return;
      }
      publisherRxReplyMap := publisherRxReplyMap - {id.value};
    }
  }

  // What AddRequestorReplyHandler registers, RemoveRequestorReplyHandler finds by its topic: for a
  // session prefix, the pair leaves the handlers as they were.
  method AddThenRemove<H>(handlers: ReplyHandlers<H>, handler: H)
    requires handlers.Valid() && handlers.replyDispatchID + 1 < LIMIT
    requires handlers.replyToPrefix == "" || handlers.replyToPrefix[|handlers.replyToPrefix| - 1] == '/'
    modifies handlers
    ensures handlers.Valid() && handlers.publisherRxReplyMap == old(handlers.publisherRxReplyMap)
  {
    var topic := handlers.AddRequestorReplyHandler(handler, Ok(()));
    SlashPrefixRoundTrip(handlers.replyToPrefix, handlers.replyDispatchID);
    var r := handlers.RemoveRequestorReplyHandler(topic.value, Ok(()));
    assert handlers.publisherRxReplyMap == old(handlers.publisherRxReplyMap);
  }
}
