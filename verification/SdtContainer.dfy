/** The writer and the reader of structured data as they work on native containers: the writer
    appends fields through loops and recursion, the reader moves a cursor over them. */
module SdtContainer {
  import opened SdtCodec
  import opened Wrappers

  class Container {
    const isMap: bool
    var fields: seq<Named>
    var cursor: nat

    constructor (isMap: bool, fields: seq<Named>)
      ensures this.isMap == isMap && this.fields == fields && cursor == 0
    {
      this.isMap := isMap;
      this.fields := fields;
      cursor := 0;
    }

    // the name that a field added under this key gets
    function Name(key: string): string {
      if isMap then CString(key) else ""
    }

    // the ContainerAdd functions
    method Add(field: Field, key: string)
      modifies this`fields
      ensures fields == old(fields) + [Named(Name(key), field)]
    {
      fields := fields + [Named(Name(key), field)];
    }

    // closing a nested container makes it a field of this one
    method CloseNested(nested: Container, key: string)
      modifies this`fields
      ensures fields == old(fields) + [Named(Name(key), if nested.isMap then FMap(old(nested.fields)) else FStream(old(nested.fields)))]
    {
      Add(if nested.isMap then FMap(nested.fields) else FStream(nested.fields), key);
    }

    method GetNextField() returns (next: Option<Named>)
      modifies this`cursor
      ensures old(cursor) < |fields| ==> next == Some(fields[old(cursor)]) && cursor == old(cursor) + 1
      ensures old(cursor) >= |fields| ==> next == None && cursor == old(cursor)
    {
      if cursor < |fields| {
        next := Some(fields[cursor]);
        cursor := cursor + 1;
      } else {
        next := None;
      }
    }
  }

  // the field that a scalar or a destination becomes
  function Scalar(item: Data): Option<Field> {
    match item
    case Nil => Some(FNull)
    case Bool(b) => Some(FBool(b))
    case Int(signed, width, v) => Some(FInt(signed, width, v))
    case Word(signed, v) => Some(FInt(signed, W64, v))
    case Float32(bits) => Some(FFloat(bits))
    case Float64(bits) => Some(FDouble(bits))
    case String(s) => Some(FString(CString(s)))
    case Bytes(bytes) => Some(FByteArray(bytes))
    case WChar(code) => Some(FWChar(code))
    case Topic(name) => Some(FDestination(TopicTemp, CString(name)))
    case Queue(name, _, _) => Some(FDestination(QueueDest, CString(name)))
    case _ => None
  }

  // Appends one field that encodes the item, or fails, exactly if the item holds something of an
  // unsupported type at any depth.
  method AddItemToContainer(container: Container, item: Data, key: string) returns (r: Result<(), SdtError>)
    modifies container`fields
    ensures r.Ok? <==> Supported(item)
    ensures r.Ok? ==> |container.fields| == |old(container.fields)| + 1
                      && container.fields[..|old(container.fields)|] == old(container.fields)
                      && container.fields[|old(container.fields)|].key == container.Name(key)
                      && Encodes(container.fields[|old(container.fields)|].field, item)
    decreases item, 1
  {
    if item.Map? {
      var nested := new Container(true, []);
      ghost var order;
      r, order := SdtMapToContainer(nested, item);
      if r.Ok? {
        container.CloseNested(nested, key);
      }
    } else if item.Stream? {
      var nested := new Container(false, []);
      r := SdtStreamToContainer(nested, item);
      if r.Ok? {
        container.CloseNested(nested, key);
      }
    } else if Scalar(item).Some? {
      container.Add(Scalar(item).value, key);
      r := Ok(());
    } else {
      r := Err(IllegalType);
    }
  }

  // visits the keys in the order in which Go happens to range over the map
  method SdtMapToContainer(container: Container, item: Data) returns (r: Result<(), SdtError>, ghost order: seq<string>)
    requires item.Map? && container.isMap && container.fields == []
    modifies container`fields
    ensures r.Ok? <==> Supported(item)
    ensures r.Ok? ==> Enumerates(order, item.items.Keys) && EncodesMap(container.fields, order, item)
    decreases item, 0
  {
    order := [];
    var left := item.items.Keys;
    while left != {}
      invariant left <= item.items.Keys && (forall k :: k in item.items ==> k in left || k in order)
      invariant forall i :: 0 <= i < |order| ==> order[i] in item.items && order[i] !in left && Supported(item.items[order[i]])
      invariant forall i, j :: 0 <= i < j < |order| ==> order[i] != order[j]
      invariant EncodesMap(container.fields, order, item)
      decreases |left|
    {
      var key :| key in left;
      left := left - {key};
      ghost var before, was := order, container.fields;
      r := AddItemToContainer(container, item.items[key], key);
      if r.Err? {
        return;
      }
      order := order + [key];
      EncodesMapGrows(was, container.fields, before, key, item);
      assert forall k :: k in before ==> k in order;
      assert key == order[|before|];
    }
    r := Ok(());
  }

  lemma EncodesMapGrows(was: seq<Named>, now: seq<Named>, order: seq<string>, key: string, item: Data)
    requires item.Map? && key in item.items && EncodesMap(was, order, item)
    requires |now| == |was| + 1 && now[..|was|] == was
    requires now[|was|].key == CString(key) && Encodes(now[|was|].field, item.items[key])
    ensures EncodesMap(now, order + [key], item)
  {
    forall i | 0 <= i < |order| + 1
      ensures now[i].key == CString((order + [key])[i]) && (order + [key])[i] in item.items
              && Encodes(now[i].field, item.items[(order + [key])[i]])
    {
      if i < |order| { assert now[i] == was[i]; }
    }
  }

  method SdtStreamToContainer(container: Container, item: Data) returns (r: Result<(), SdtError>)
    requires item.Stream? && !container.isMap && container.fields == []
    modifies container`fields
    ensures r.Ok? <==> Supported(item)
    ensures r.Ok? ==> |container.fields| == |item.elements|
                      && forall i :: 0 <= i < |item.elements| ==>
                           container.fields[i].key == "" && Encodes(container.fields[i].field, item.elements[i])
    decreases item, 0
  {
    var n := 0;
    while n < |item.elements|
      invariant n == |container.fields| <= |item.elements|
      invariant forall i :: 0 <= i < n ==> Supported(item.elements[i])
      invariant forall i :: 0 <= i < n ==> container.fields[i].key == "" && Encodes(container.fields[i].field, item.elements[i])
    {
      ghost var was := container.fields;
      r := AddItemToContainer(container, item.elements[n], "");
      if r.Err? {
        return;
      }
      assert forall i :: 0 <= i < n ==> container.fields[i] == was[i];
      n := n + 1;
    }
    r := Ok(());
  }

  // ----- the reader

  // ParseData, ParseMapFields and ParseStreamFields compute what SdtCodec.Parse says.
  method ParseData(field: Field) returns (data: Option<Data>)
    ensures data == Parse(field)
    decreases field
  {
    match field
    case FMap(entries) =>
      var nested := new Container(true, entries);
      var m := ParseMapFields(nested, entries);
      data := Some(Map(m.value));
    case FStream(entries) =>
      var nested := new Container(false, entries);
      var s := ParseStreamFields(nested, entries);
      data := Some(Stream(s.value));
    case FDestination(kind, name) =>
      data := Destination(kind, name);
    case FNull => data := Some(Nil);
    case FBool(b) => data := Some(Bool(b));
    case FInt(signed, width, v) => data := Some(Int(signed, width, v));
    case FFloat(bits) => data := Some(Float32(bits));
    case FDouble(bits) => data := Some(Float64(bits));
    case FString(s) => data := Some(String(s));
    case FByteArray(bytes) => data := Some(Bytes(bytes));
    case FWChar(code) => data := Some(WChar(code));
    case FOther(_) => data := None;
  }

  // nil for a container of the wrong kind
  method ParseMapFields(container: Container, ghost all: seq<Named>) returns (m: Option<map<string, Data>>)
    requires container.fields == all && container.cursor == 0
    modifies container`cursor
    ensures m == if container.isMap then Some(ParseMap(all)) else None
    decreases all
  {
    if !container.isMap {
      return None;
    }
    var result: map<string, Data> := map[];
    var next := container.GetNextField();
    ghost var n := 0;
    while next.Some?
      invariant n <= |all| && container.fields == all
      invariant next.Some? ==> n < |all| && next.value == all[n] && container.cursor == n + 1
      invariant next.None? ==> n == |all|
      invariant result == ParseMap(all[..n])
      decreases |all| - n
    {
      var data := ParseData(next.value.field);
      if data.Some? {
        result := result[next.value.key := data.value];
      }
      assert all[..n + 1][..n] == all[..n];
      n := n + 1;
      next := container.GetNextField();
    }
    assert all[..n] == all;
    return Some(result);
  }

  method ParseStreamFields(container: Container, ghost all: seq<Named>) returns (s: Option<seq<Data>>)
    requires container.fields == all && container.cursor == 0
    modifies container`cursor
    ensures s == if container.isMap then None else Some(ParseStream(all))
    decreases all
  {
    if container.isMap {
      return None;
    }
    var result: seq<Data> := [];
    var next := container.GetNextField();
    ghost var n := 0;
    while next.Some?
      invariant n <= |all| && container.fields == all
      invariant next.Some? ==> n < |all| && next.value == all[n] && container.cursor == n + 1
      invariant next.None? ==> n == |all|
      invariant result == ParseStream(all[..n])
      decreases |all| - n
    {
      var data := ParseData(next.value.field);
      if data.Some? {
        result := result + [data.value];
      }
      assert all[..n + 1][..n] == all[..n];
      n := n + 1;
      next := container.GetNextField();
    }
    assert all[..n] == all;
    return Some(result);
  }

  // Writing a value and reading it back, method by method: the normalised value, exactly if no
  // string in it holds a NUL.
  method WriteThenRead(item: Data) returns (back: Option<Data>)
    requires Supported(item)
    ensures back == Some(Normalise(item)) <==> NulFree(item)
  {
    var container := new Container(false, []);
    var r := AddItemToContainer(container, item, "");
    RoundTripExactlyIfNulFree(container.fields[0].field, item);
    back := ParseData(container.fields[0].field);
  }
}
