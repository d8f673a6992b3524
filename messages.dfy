/**
 The message builder, the reply reader and the transport that the
 convenience layer drives. Their effects are what the collaborators report
 through the Engine; what they record (the items of a body, the entered
 containers, the sends and calls) is what the layer's contracts talk about.
 */
module Messages {
  import opened Wrappers
  import opened BusTypes

  /** The status the marshaling engine reports for one item. */
  function ItemStatus(engine: Engine, item: Item): int {
    match item
    case Put(signature, values) => engine.append(signature, values)
    case Open(kind, contents) => engine.openContainer(kind, contents)
    case Close => engine.closeContainer
  }

  /** The status of appending `items` in order with an early return: the
      status of the first item that fails, or 0 when none fails. */
  function Marshal(engine: Engine, items: seq<Item>): (r: int)
    ensures r <= 0
    ensures r < 0 <==> exists i :: 0 <= i < |items| && ItemStatus(engine, items[i]) < 0
    decreases |items|
  {
    if items == [] then 0
    else if ItemStatus(engine, items[0]) < 0 then ItemStatus(engine, items[0])
    else
      var r := Marshal(engine, items[1..]);
      assert r < 0 ==> exists i :: 0 <= i < |items| && ItemStatus(engine, items[i]) < 0 by {
        if r < 0 {
          var i :| 0 <= i < |items[1..]| && ItemStatus(engine, items[1..][i]) < 0;
          assert items[i + 1] == items[1..][i];
        }
      }
      assert r == 0 ==> forall i :: 0 <= i < |items| ==> ItemStatus(engine, items[i]) >= 0 by {
        if r == 0 {
          forall i | 0 <= i < |items| ensures ItemStatus(engine, items[i]) >= 0 {
            if i > 0 { assert items[i] == items[1..][i - 1]; }
          }
        }
      }
      r
  }

  /** The status Marshal returns is the one of the first item that fails. */
  lemma {:induction false} MarshalStopsAtFirstFailure(engine: Engine, items: seq<Item>)
    requires Marshal(engine, items) < 0
    ensures exists i :: 0 <= i < |items| && ItemStatus(engine, items[i]) == Marshal(engine, items)
              && forall j :: 0 <= j < i ==> ItemStatus(engine, items[j]) >= 0
    decreases |items|
  {
    if ItemStatus(engine, items[0]) < 0 {
      assert ItemStatus(engine, items[0]) == Marshal(engine, items);
    } else {
      MarshalStopsAtFirstFailure(engine, items[1..]);
      var i :| 0 <= i < |items[1..]| && ItemStatus(engine, items[1..][i]) == Marshal(engine, items[1..])
               && forall j :: 0 <= j < i ==> ItemStatus(engine, items[1..][j]) >= 0;
      assert items[i + 1] == items[1..][i];
      forall j | 0 <= j < i + 1 ensures ItemStatus(engine, items[j]) >= 0 {
        if j > 0 { assert items[j] == items[1..][j - 1]; }
      }
    }
  }

  /** The outcome of building a message: the message, or the failing status. */
  datatype Built = Built(message: Wire) | Failed(status: int)

  /** Creating a message with `header` and appending `items` in order, with an
      early return on the first failure. */
  function Build(engine: Engine, header: Header, items: seq<Item>): (b: Built)
    ensures b.Failed? <==> engine.newMessage(header) < 0 || Marshal(engine, items) < 0
    ensures b.Failed? ==> b.status < 0
    ensures engine.newMessage(header) < 0 ==> b == Failed(engine.newMessage(header))
    ensures b.Failed? && engine.newMessage(header) >= 0 ==> b.status == Marshal(engine, items)
    ensures b.Built? ==> b.message == Wire(header, items)
  {
    var r := engine.newMessage(header);
    if r < 0 then Failed(r)
    else
      var s := Marshal(engine, items);
      if s < 0 then Failed(s) else Built(Wire(header, items))
  }

  /** The containers opened by `items` and not yet closed, innermost last. */
  function Unclosed(items: seq<Item>): seq<Container>
    decreases |items|
  {
    if items == [] then []
    else
      var rest := Unclosed(items[..|items| - 1]);
      match items[|items| - 1]
      case Put(_, _) => rest
      case Open(kind, contents) => rest + [Container(kind, Some(contents))]
      case Close => if rest == [] then [] else rest[..|rest| - 1]
  }

  /** Every Close closes a container that an earlier Open left open. */
  predicate WellNested(items: seq<Item>)
    decreases |items|
  {
    items == []
    || (WellNested(items[..|items| - 1])
        && (items[|items| - 1].Close? ==> Unclosed(items[..|items| - 1]) != []))
  }

  /** A complete body: well nested, with every container closed. */
  predicate Balanced(items: seq<Item>) {
    WellNested(items) && Unclosed(items) == []
  }

  /** The number of variant containers the items open. */
  function VariantCount(items: seq<Item>): nat
    decreases |items|
  {
    if items == [] then 0
    else VariantCount(items[..|items| - 1]) + (if items[|items| - 1].Open? && items[|items| - 1].kind == 'v' then 1 else 0)
  }

  /** Appending one item to a body: how the open containers and the variant count change. */
  lemma Snoc(items: seq<Item>, x: Item)
    ensures (items + [x])[..|items|] == items
    ensures x.Put? ==> Unclosed(items + [x]) == Unclosed(items)
    ensures x.Open? ==> Unclosed(items + [x]) == Unclosed(items) + [Container(x.kind, Some(x.contents))]
    ensures x.Close? && Unclosed(items) != [] ==>
              Unclosed(items + [x]) == Unclosed(items)[..|Unclosed(items)| - 1]
    ensures WellNested(items + [x]) <==> WellNested(items) && (x.Close? ==> Unclosed(items) != [])
    ensures VariantCount(items + [x]) == VariantCount(items) + (if x.Open? && x.kind == 'v' then 1 else 0)
  {
    assert (items + [x])[..|items|] == items;
  }

  /** Wrapping values of one signature in a variant tagged with that
      signature keeps a complete body complete and adds exactly one variant. */
  lemma {:induction false} WrapInVariant(prefix: seq<Item>, signature: string, values: seq<Value>)
    requires Balanced(prefix)
    ensures Balanced(prefix + [Open('v', signature), Put(signature, values), Close])
    ensures VariantCount(prefix + [Open('v', signature), Put(signature, values), Close]) == VariantCount(prefix) + 1
  {
    var a := prefix + [Open('v', signature)];
    var b := a + [Put(signature, values)];
    Snoc(prefix, Open('v', signature));
    Snoc(a, Put(signature, values));
    Snoc(b, Close);
    assert b + [Close] == prefix + [Open('v', signature), Put(signature, values), Close];
  }

  /** A message under construction: the items appended so far and the stack
      of containers still open. */
  class Builder {
    const header: Header
    const engine: Engine
    var body: seq<Item>
    var open: seq<Container>

    ghost predicate Valid()
      reads this
    {
      WellNested(body) && open == Unclosed(body)
    }

    /** The message as it would be handed to the transport now. */
    function Snapshot(): Wire
      reads this
    {
      Wire(header, body)
    }

    constructor (header: Header, engine: Engine)
      ensures Valid()
      ensures this.header == header && this.engine == engine
      ensures body == [] && open == []
    {
      this.header := header;
      this.engine := engine;
      body := [];
      open := [];
    }

    /** bus_message_append_ap / sd_bus_message_append. */
    method Append(signature: string, values: seq<Value>) returns (r: int)
      requires Valid()
      modifies this
      ensures Valid()
      ensures r == engine.append(signature, values)
      ensures body == if r < 0 then old(body) else old(body) + [Put(signature, values)]
      ensures open == old(open)
    {
      r := engine.append(signature, values);
      if r >= 0 {
        Snoc(body, Put(signature, values));
        body := body + [Put(signature, values)];
      }
    }

    /** sd_bus_message_open_container. */
    method OpenContainer(kind: char, contents: string) returns (r: int)
      requires Valid()
      modifies this
      ensures Valid()
      ensures r == engine.openContainer(kind, contents)
      ensures body == if r < 0 then old(body) else old(body) + [Open(kind, contents)]
      ensures open == if r < 0 then old(open) else old(open) + [Container(kind, Some(contents))]
    {
      r := engine.openContainer(kind, contents);
      if r >= 0 {
        Snoc(body, Open(kind, contents));
        body := body + [Open(kind, contents)];
        open := open + [Container(kind, Some(contents))];
      }
    }

    /** sd_bus_message_close_container: closes the innermost open container. */
    method CloseContainer() returns (r: int)
      requires Valid() && open != []
      modifies this
      ensures Valid()
      ensures r == engine.closeContainer
      ensures body == if r < 0 then old(body) else old(body) + [Close]
      ensures open == if r < 0 then old(open) else old(open)[..|old(open)| - 1]
    {
      r := engine.closeContainer;
      if r >= 0 {
        Snoc(body, Close);
        body := body + [Close];
        open := open[..|open| - 1];
      }
    }
  }

  /** sd_bus_message_new_signal / _new_method_call / _new_method_return /
      _new_method_error: a fresh, empty message, or the failing status. */
  method NewMessage(header: Header, engine: Engine) returns (r: int, m: Builder?)
    ensures r == engine.newMessage(header)
    ensures r < 0 <==> m == null
    ensures m != null ==>
              fresh(m) && m.Valid() && m.header == header && m.engine == engine && m.body == [] && m.open == []
  {
    r := engine.newMessage(header);
    if r < 0 {
      m := null;
    } else {
      m := new Builder(header, engine);
    }
  }

  /** A reply received for `request`: the containers entered so far, and
      whether the layer has dropped its reference to it. */
  class Reply {
    const request: Wire
    const engine: Engine
    var entered: seq<Container>
    ghost var released: bool

    constructor (request: Wire, engine: Engine)
      ensures this.request == request && this.engine == engine
      ensures entered == [] && !released
    {
      this.request := request;
      this.engine := engine;
      entered := [];
      released := false;
    }

    /** sd_bus_message_enter_container. */
    method EnterContainer(kind: char, contents: Option<string>) returns (r: int)
      requires !released
      modifies this
      ensures r == engine.enterContainer(request, kind, contents)
      ensures entered == if r < 0 then old(entered) else old(entered) + [Container(kind, contents)]
      ensures released == old(released)
    {
      r := engine.enterContainer(request, kind, contents);
      if r >= 0 {
        entered := entered + [Container(kind, contents)];
      }
    }

    /** sd_bus_message_read_basic for a trivial type. */
    method ReadBasic(kind: char) returns (r: int, v: Value)
      requires !released
      ensures r == engine.readBasic(request, kind).status
      ensures v == engine.readBasic(request, kind).value
    {
      r := engine.readBasic(request, kind).status;
      v := engine.readBasic(request, kind).value;
    }

    /** sd_bus_message_read_basic for type 's': the text still belongs to the reply. */
    method ReadString() returns (r: int, s: string)
      requires !released
      ensures r == engine.readString(request).status
      ensures s == engine.readString(request).text
    {
      r := engine.readString(request).status;
      s := engine.readString(request).text;
    }

    /** sd_bus_message_read_strv: an independently owned array of strings. */
    method ReadStrv() returns (r: int, strings: seq<string>)
      requires !released
      ensures r == engine.readStrv(request).status
      ensures strings == engine.readStrv(request).strings
    {
      r := engine.readStrv(request).status;
      strings := engine.readStrv(request).strings;
    }

    /** sd_bus_message_unref of the layer's own reference. */
    method Unref()
      modifies this
      ensures released && entered == old(entered)
    {
      released := true;
    }
  }

  /** The connection's transport, seen through the sends and calls it is asked to perform. */
  class Transport {
    const engine: Engine
    ghost var trace: seq<Event>

    constructor (engine: Engine)
      ensures this.engine == engine && trace == []
    {
      this.engine := engine;
      trace := [];
    }

    /** sd_bus_send: fire and forget. */
    method Send(message: Wire) returns (r: int)
      modifies this
      ensures trace == old(trace) + [Sent(message)]
      ensures r == engine.send(message)
    {
      r := engine.send(message);
      trace := trace + [Sent(message)];
    }

    /** sd_bus_call: a blocking round trip; on failure the caller's error is
        overwritten with the one reported, on success a reply is returned. */
    method Call(message: Wire, error: BusError) returns (r: int, errorOut: BusError, reply: Reply?)
      modifies this
      ensures trace == old(trace) + [Called(message)]
      ensures r == engine.call(message).status
      ensures errorOut == if r < 0 then engine.call(message).error else error
      ensures r >= 0 <==> reply != null
      ensures reply != null ==>
                fresh(reply) && reply.request == message && reply.engine == engine
                && reply.entered == [] && !reply.released
    {
      var answer := engine.call(message);
      r := answer.status;
      trace := trace + [Called(message)];
      if r < 0 {
        errorOut := answer.error;
        reply := null;
      } else {
        errorOut := error;
        reply := new Reply(message, engine);
      }
    }
  }
}
