/** Structured data: the writer (internal/impl/message/outbound_message_builder_impl.go), the
    reader (internal/impl/message/message_impl.go) and the typed fields between them
    (internal/ccsmp/ccsmp_container.go). Native calls succeed. Strings cross the C boundary as C
    strings, so a NUL ends them; floating-point values are carried as their bits. */
module SdtCodec {
  import opened Wrappers

  datatype Width = W8 | W16 | W32 | W64

  // what an application puts into a map or stream, and gets out of one
  datatype Data =
    | Nil | Bool(b: bool) | Int(signed: bool, width: Width, value: int) | Word(signed: bool, value: int)
    | Float32(bits: nat) | Float64(bits: nat) | String(s: string) | Bytes(bytes: seq<bv8>) | WChar(code: nat)
    | Topic(name: string) | Queue(name: string, durable: bool, exclusive: bool)
    | Map(items: map<string, Data>) | Stream(elements: seq<Data>)
    | Unsupported

  // destination types of the native library
  datatype NativeDest = TopicDest | TopicTemp | QueueDest | QueueTemp | NullDest

  // a field of a native container
  datatype Field =
    | FNull | FBool(b: bool) | FInt(signed: bool, width: Width, value: int) | FFloat(bits: nat) | FDouble(bits: nat)
    | FString(s: string) | FByteArray(bytes: seq<bv8>) | FWChar(code: nat) | FDestination(kind: NativeDest, name: string)
    | FMap(entries: seq<Named>) | FStream(entries: seq<Named>) | FOther(fieldType: int)
  datatype Named = Named(key: string, field: Field)

  datatype SdtError = IllegalType

  // ----- strings across the C boundary

  const NUL: char := '\0'

  // C.GoString(C.CString(s))
  function CString(s: string): (c: string)
    ensures HasNoNul(c) && (c == s <==> HasNoNul(s))
  {
    if s == "" || s[0] == NUL then "" else [s[0]] + CString(s[1..])
  }

  predicate HasNoNul(s: string) {
    forall i :: 0 <= i < |s| ==> s[i] != NUL
  }

  // ----- the reader, as a function

  function Destination(kind: NativeDest, name: string): Option<Data> {
    match kind
    case TopicDest => Some(Topic(name))
    case TopicTemp => Some(Topic(name))
    case QueueDest => Some(Queue(name, true, true))
    case QueueTemp => Some(Queue(name, true, true))
    case NullDest => None
  }

  function Parse(f: Field): Option<Data> {
    match f
    case FNull => Some(Nil)
    case FBool(b) => Some(Bool(b))
    case FInt(signed, width, v) => Some(Int(signed, width, v))
    case FFloat(bits) => Some(Float32(bits))
    case FDouble(bits) => Some(Float64(bits))
    case FString(s) => Some(String(s))
    case FByteArray(bytes) => Some(Bytes(bytes))
    case FWChar(code) => Some(WChar(code))
    case FDestination(kind, name) => Destination(kind, name)
    case FMap(entries) => Some(Map(ParseMap(entries)))
    case FStream(entries) => Some(Stream(ParseStream(entries)))
    case FOther(_) => None
  }

  // a later field of the same name replaces an earlier one; a field that is not understood is skipped
  function ParseMap(entries: seq<Named>): map<string, Data> {
    if entries == [] then map[]
    else
      var last := entries[|entries| - 1];
      var front := ParseMap(entries[..|entries| - 1]);
      if Parse(last.field).Some? then front[last.key := Parse(last.field).value] else front
  }

  function ParseStream(entries: seq<Named>): seq<Data> {
    if entries == [] then []
    else
      var last := Parse(entries[|entries| - 1].field);
      ParseStream(entries[..|entries| - 1]) + (if last.Some? then [last.value] else [])
  }

  // ----- the writer, as a relation: a map may be visited in any order

  ghost predicate Encodes(f: Field, d: Data)
    decreases d, 1
  {
    match d
    case Nil => f == FNull
    case Bool(b) => f == FBool(b)
    case Int(signed, width, v) => f == FInt(signed, width, v)
    case Word(signed, v) => f == FInt(signed, W64, v)
    case Float32(bits) => f == FFloat(bits)
    case Float64(bits) => f == FDouble(bits)
    case String(s) => f == FString(CString(s))
    case Bytes(bytes) => f == FByteArray(bytes)
    case WChar(code) => f == FWChar(code)
    case Topic(name) => f == FDestination(TopicTemp, CString(name))
    case Queue(name, _, _) => f == FDestination(QueueDest, CString(name))
    case Map(items) => f.FMap? && exists order :: Enumerates(order, items.Keys) && EncodesMap(f.entries, order, d)
    case Stream(elements) =>
      f.FStream? && |f.entries| == |elements|
      && forall i :: 0 <= i < |elements| ==> f.entries[i].key == "" && Encodes(f.entries[i].field, elements[i])
    case Unsupported => false
  }

  // the entries are those of the items visited so far, in this order
  ghost predicate EncodesMap(entries: seq<Named>, order: seq<string>, d: Data)
    requires d.Map?
    decreases d, 0
  {
    && |entries| == |order|
    && forall i :: 0 <= i < |order| ==>
         order[i] in d.items && entries[i].key == CString(order[i]) && Encodes(entries[i].field, d.items[order[i]])
  }

  // no item of an unsupported type at any depth
  predicate Supported(d: Data) {
    match d
    case Map(items) => forall k :: k in items ==> Supported(items[k])
    case Stream(elements) => forall i :: 0 <= i < |elements| ==> Supported(elements[i])
    case Unsupported => false
    case _ => true
  }

  // every string, name and key is NUL-free
  predicate NulFree(d: Data) {
    match d
    case String(s) => HasNoNul(s)
    case Topic(name) => HasNoNul(name)
    case Queue(name, _, _) => HasNoNul(name)
    case Map(items) => forall k :: k in items ==> HasNoNul(k) && NulFree(items[k])
    case Stream(elements) => forall i :: 0 <= i < |elements| ==> NulFree(elements[i])
    case _ => true
  }

  // what is read back in place of what was written
  function Normalise(d: Data): Data {
    match d
    case Word(signed, v) => Int(signed, W64, v)
    case Queue(name, _, _) => Queue(name, true, true)
    case Map(items) => Map(map k | k in items :: Normalise(items[k]))
    case Stream(elements) => Stream(seq(|elements|, i requires 0 <= i < |elements| => Normalise(elements[i])))
    case _ => d
  }

  // ----- round trip

  lemma {:induction false} StreamRoundTrip(entries: seq<Named>, values: seq<Data>)
    requires |entries| == |values| && forall i :: 0 <= i < |entries| ==> Parse(entries[i].field) == Some(values[i])
    ensures ParseStream(entries) == values
  {
    if entries != [] {
      StreamRoundTrip(entries[..|entries| - 1], values[..|values| - 1]);
    }
  }

  function Restricted(values: map<string, Data>, order: seq<string>): map<string, Data> {
    map k | k in values && k in order :: values[k]
  }

  lemma {:induction false} MapRoundTrip(entries: seq<Named>, order: seq<string>, values: map<string, Data>)
    requires |entries| == |order|
    requires forall i, j :: 0 <= i < j < |order| ==> order[i] != order[j]
    requires forall i :: 0 <= i < |order| ==>
               entries[i].key == order[i] && order[i] in values && Parse(entries[i].field) == Some(values[order[i]])
    ensures ParseMap(entries) == Restricted(values, order)
  {
    if entries == [] {
      assert Restricted(values, order) == map[];
    } else {
      var n := |entries| - 1;
      MapRoundTrip(entries[..n], order[..n], values);
      RestrictedGrows(values, order);
    }
  }

  lemma RestrictedGrows(values: map<string, Data>, order: seq<string>)
    requires order != [] && order[|order| - 1] in values
    ensures var n := |order| - 1; Restricted(values, order) == Restricted(values, order[..n])[order[n] := values[order[n]]]
  {
    var n := |order| - 1;
    assert order == order[..n] + [order[n]];
  }

  // Parsing what was written gives the normalised value, whatever the order of each map was.
  lemma {:induction false} RoundTrip(f: Field, d: Data)
    requires Encodes(f, d) && NulFree(d)
    ensures Parse(f) == Some(Normalise(d))
    decreases d, 1
  {
    if d.Map? {
      var order :| Enumerates(order, d.items.Keys) && EncodesMap(f.entries, order, d);
      NestedMapRoundTrip(f.entries, order, d);
    } else if d.Stream? {
      NestedStreamRoundTrip(f.entries, d);
    }
  }

  lemma {:induction false} NestedMapRoundTrip(entries: seq<Named>, order: seq<string>, d: Data)
    requires d.Map? && NulFree(d) && Enumerates(order, d.items.Keys) && EncodesMap(entries, order, d)
    ensures ParseMap(entries) == Normalise(d).items
    decreases d, 0
  {
    var values := Normalise(d).items;
    forall i | 0 <= i < |order|
      ensures entries[i].key == order[i] && Parse(entries[i].field) == Some(values[order[i]])
    {
      RoundTrip(entries[i].field, d.items[order[i]]);
    }
    MapRoundTrip(entries, order, values);
    assert Restricted(values, order) == values;
  }

  lemma {:induction false} NestedStreamRoundTrip(entries: seq<Named>, d: Data)
    requires d.Stream? && NulFree(d) && |entries| == |d.elements|
    requires forall i :: 0 <= i < |entries| ==> Encodes(entries[i].field, d.elements[i])
    ensures ParseStream(entries) == Normalise(d).elements
    decreases d, 0
  {
    forall i | 0 <= i < |entries|
      ensures Parse(entries[i].field) == Some(Normalise(d.elements[i]))
    {
      RoundTrip(entries[i].field, d.elements[i]);
    }
    StreamRoundTrip(entries, Normalise(d).elements);
  }

  lemma {:induction false} NormaliseIsIdempotent(d: Data)
    ensures Normalise(Normalise(d)) == Normalise(d)
  {
    match d
    case Map(items) =>
      forall k | k in items
        ensures Normalise(Normalise(items[k])) == Normalise(items[k])
      {
        NormaliseIsIdempotent(items[k]);
      }
    case Stream(elements) =>
      forall i | 0 <= i < |elements|
        ensures Normalise(Normalise(elements[i])) == Normalise(elements[i])
      {
        NormaliseIsIdempotent(elements[i]);
      }
    case _ =>
  }

  // ----- NUL-freeness is needed

  lemma {:induction false} NormaliseKeepsNuls(d: Data)
    ensures NulFree(Normalise(d)) <==> NulFree(d)
  {
    match d
    case Map(items) =>
      forall k | k in items
        ensures NulFree(Normalise(items[k])) <==> NulFree(items[k])
      {
        NormaliseKeepsNuls(items[k]);
      }
      var items' := Normalise(d).items;
      assert forall k :: k in items ==> items'[k] == Normalise(items[k]);
    case Stream(elements) =>
      forall i | 0 <= i < |elements|
        ensures NulFree(Normalise(elements[i])) <==> NulFree(elements[i])
      {
        NormaliseKeepsNuls(elements[i]);
      }
      assert forall i :: 0 <= i < |elements| ==> Normalise(d).elements[i] == Normalise(elements[i]);
    case _ =>
  }

  lemma {:induction false} StreamOfNulFree(entries: seq<Named>)
    requires forall i :: 0 <= i < |entries| ==> Parse(entries[i].field).Some? ==> NulFree(Parse(entries[i].field).value)
    ensures NulFree(Stream(ParseStream(entries)))
  {
    if entries != [] {
      var n := |entries| - 1;
      StreamOfNulFree(entries[..n]);
      assert forall d :: d in ParseStream(entries[..n]) ==> NulFree(d);
      assert forall d :: d in ParseStream(entries) ==> NulFree(d);
    }
  }

  lemma {:induction false} MapOfNulFree(entries: seq<Named>)
    requires forall i :: 0 <= i < |entries| ==>
               HasNoNul(entries[i].key) && (Parse(entries[i].field).Some? ==> NulFree(Parse(entries[i].field).value))
    ensures NulFree(Map(ParseMap(entries)))
  {
    if entries != [] {
      MapOfNulFree(entries[..|entries| - 1]);
    }
  }

  lemma {:induction false} WrittenIsNulFree(f: Field, d: Data)
    requires Encodes(f, d)
    ensures Parse(f).Some? ==> NulFree(Parse(f).value)
    decreases d
  {
    match d
    case Map(items) =>
      var order :| Enumerates(order, items.Keys) && EncodesMap(f.entries, order, d);
      forall i | 0 <= i < |f.entries|
        ensures HasNoNul(f.entries[i].key)
        ensures Parse(f.entries[i].field).Some? ==> NulFree(Parse(f.entries[i].field).value)
      {
        WrittenIsNulFree(f.entries[i].field, items[order[i]]);
      }
      MapOfNulFree(f.entries);
    case Stream(elements) =>
      forall i | 0 <= i < |f.entries|
        ensures Parse(f.entries[i].field).Some? ==> NulFree(Parse(f.entries[i].field).value)
      {
        WrittenIsNulFree(f.entries[i].field, elements[i]);
      }
      StreamOfNulFree(f.entries);
    case _ =>
  }

  // The normalised value comes back exactly if no string in it, at any depth, contains a NUL.
  lemma RoundTripExactlyIfNulFree(f: Field, d: Data)
    requires Encodes(f, d)
    ensures Parse(f) == Some(Normalise(d)) <==> NulFree(d)
  {
    if NulFree(d) {
      RoundTrip(f, d);
    } else {
      WrittenIsNulFree(f, d);
      NormaliseKeepsNuls(d);
    }
  }

  // Whatever orders two writes of the same value use, they read back alike.
  lemma OrderDoesNotMatter(f: Field, g: Field, d: Data)
    requires Encodes(f, d) && Encodes(g, d) && NulFree(d)
    ensures Parse(f) == Parse(g)
  {
    RoundTrip(f, d);
    RoundTrip(g, d);
  }
}
