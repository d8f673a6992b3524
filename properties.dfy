/**
 Property access through the standard org.freedesktop.DBus.Properties
 interface: Get takes (interface, member) and answers with one variant; Set
 takes (interface, member, variant) where the variant is tagged with the
 value's own signature.
 */
module Properties {
  import opened Wrappers
  import opened BusTypes
  import opened Validation
  import opened Messages
  import opened Calls

  /** The (interface, member) arguments of Get and Set: a NULL interface is sent as "". */
  function NameArguments(interface: Option<string>, member: string): seq<Value> {
    [Str(StrEmpty(interface)), Str(member)]
  }

  /** The one Properties.Get call every getter makes. */
  function GetRequest(destination: Option<string>, path: string, interface: Option<string>, member: string): Wire {
    Wire(MethodCallHeader(destination, path, Some(PROPERTIES_INTERFACE), GET_METHOD),
         [Put("ss", NameArguments(interface, member))])
  }

  /** The body of Properties.Set, in order: the names, then one variant
      tagged `signature` holding the value. */
  function SetBody(interface: Option<string>, member: string, signature: string, value: Value): seq<Item> {
    [Put("ss", NameArguments(interface, member)), Open('v', signature), Put(signature, [value]), Close]
  }

  function SetHeader(destination: Option<string>, path: string): Header {
    MethodCallHeader(destination, path, Some(PROPERTIES_INTERFACE), SET_METHOD)
  }

  /** The name checks shared by every accessor: the interface may be NULL or
      empty, otherwise it must be a valid interface name; the member must be
      a valid member name. */
  predicate NamesValid(engine: Engine, interface: Option<string>, member: string) {
    (IsEmpty(interface) || engine.interfaceNameIsValid(interface.value)) && engine.memberNameIsValid(member)
  }

  /** sd_bus_call_method for Properties.Get with "ss" (interface, member). */
  function GetCall(engine: Engine, bus: Option<Connection>, destination: Option<string>, path: string,
                   interface: Option<string>, member: string, error: BusError): (o: CallOutcome)
    ensures var request := GetRequest(destination, path, interface, member);
            o.rc >= 0 <==>
              EntryGuard(bus, true, engine.currentPid) == 0 && engine.newMessage(request.header) >= 0
              && engine.append("ss", NameArguments(interface, member)) >= 0 && engine.call(request).status >= 0
    ensures o.rc >= 0 ==> o.events == [Called(GetRequest(destination, path, interface, member))] && o.error == error
  {
    ArgumentsBuild(engine, GetRequest(destination, path, interface, member).header, Some("ss"), NameArguments(interface, member));
    CallMethodSpec(engine, bus, destination, path, Some(PROPERTIES_INTERFACE), GET_METHOD, error,
                   Some("ss"), NameArguments(interface, member))
  }

  /** What a getter returns: its code, what the transport saw, the caller's
      error afterwards, and what it stored through its out pointer. */
  datatype Fetch<T> = Fetch(rc: int, events: seq<Event>, error: BusError, value: Option<T>)

  /** sd_bus_get_property: exactly one Get call once the checks pass; the
      reply is handed back, positioned inside the variant, exactly when
      entering the variant with the expected type succeeds. */
  function GetPropertySpec(engine: Engine, bus: Option<Connection>, destination: Option<string>, path: string,
                           interface: Option<string>, member: string, error: BusError,
                           hasReply: bool, signature: string): (o: Fetch<Wire>)
    ensures var g := EntryGuard(bus, NamesValid(engine, interface, member) && hasReply && engine.signatureIsSingle(signature),
                                engine.currentPid);
            g < 0 ==> o == Fetch(g, [], error, None)
    ensures o.events == [] || o.events == [Called(GetRequest(destination, path, interface, member))]
    ensures o.rc <= 0
    ensures o.value.Some? <==> o.rc == 0
    ensures o.value.Some? ==>
              o.value.value == GetRequest(destination, path, interface, member) && o.events == [Called(o.value.value)]
              && engine.call(o.value.value).status >= 0
              && engine.enterContainer(o.value.value, 'v', Some(signature)) >= 0
    ensures var g := EntryGuard(bus, NamesValid(engine, interface, member) && hasReply && engine.signatureIsSingle(signature), engine.currentPid);
            var c := GetCall(engine, bus, destination, path, interface, member, error);
            g == 0 ==> o.error == c.error && o.events == c.events && (c.rc < 0 ==> o.rc == c.rc && o.value.None?)
    ensures var g := EntryGuard(bus, NamesValid(engine, interface, member) && hasReply && engine.signatureIsSingle(signature), engine.currentPid);
            var c := GetCall(engine, bus, destination, path, interface, member, error);
            var request := GetRequest(destination, path, interface, member);
            g == 0 && c.rc >= 0 && engine.enterContainer(request, 'v', Some(signature)) < 0 ==>
              o.rc == engine.enterContainer(request, 'v', Some(signature)) && o.value.None?
    ensures var g := EntryGuard(bus, NamesValid(engine, interface, member) && hasReply && engine.signatureIsSingle(signature),
                                engine.currentPid);
            var c := GetCall(engine, bus, destination, path, interface, member, error);
            var request := GetRequest(destination, path, interface, member);
            g == 0 && c.rc >= 0 && engine.enterContainer(request, 'v', Some(signature)) >= 0 ==>
              o.rc == 0 && o.value == Some(request)
  {
    var g := EntryGuard(bus, NamesValid(engine, interface, member) && hasReply && engine.signatureIsSingle(signature),
                        engine.currentPid);
    if g < 0 then Fetch(g, [], error, None)
    else
      var c := GetCall(engine, bus, destination, path, interface, member, error);
      if c.rc < 0 then Fetch(c.rc, c.events, c.error, None)
      else
        var request := GetRequest(destination, path, interface, member);
        var e := engine.enterContainer(request, 'v', Some(signature));
        if e < 0 then Fetch(e, c.events, c.error, None)
        else Fetch(0, c.events, c.error, Some(request))
  }

  method GetProperty(t: Transport, bus: Option<Connection>, destination: Option<string>, path: string,
                     interface: Option<string>, member: string, error: BusError,
                     hasReply: bool, signature: string)
    returns (r: int, errorOut: BusError, reply: Reply?, ghost received: Reply?)
    modifies t
    ensures var o := GetPropertySpec(t.engine, bus, destination, path, interface, member, error, hasReply, signature);
            r == o.rc && errorOut == o.error && t.trace == old(t.trace) + o.events
            && (reply != null <==> o.value.Some?)
    ensures reply != null ==>
              fresh(reply) && reply.request == GetRequest(destination, path, interface, member)
              && reply.entered == [Container('v', Some(signature))] && !reply.released
    ensures var o := GetPropertySpec(t.engine, bus, destination, path, interface, member, error, hasReply, signature);
            received != null <==> o.events != [] && t.engine.call(o.events[0].message).status >= 0
    ensures received != null ==> fresh(received) && received.request == GetRequest(destination, path, interface, member)
    ensures reply != null ==> received == reply
    ensures received != null && reply == null ==> received.released
  {
    errorOut, reply, received := error, null, null;
    r := EntryGuard(bus, NamesValid(t.engine, interface, member) && hasReply && t.engine.signatureIsSingle(signature),
                    t.engine.currentPid);
    if r < 0 {
      return;
    }
    var rep: Reply?;
    r, errorOut, rep := CallMethod(t, bus, destination, path, Some(PROPERTIES_INTERFACE), GET_METHOD, error,
                                   Some("ss"), NameArguments(interface, member));
    received := rep;
    if r < 0 {
      return;
    }
    assert rep.request == GetRequest(destination, path, interface, member) by {
      assert t.trace[|old(t.trace)|] == Called(rep.request);
    }
    r := rep.EnterContainer('v', Some(signature));
    if r < 0 {
      rep.Unref();
      return;
    }
    reply := rep;
    r := 0;
  }

  /** sd_bus_get_property_trivial: one Get call, the variant entered with the
      one-character type, and the value stored only when every step succeeds. */
  function GetTrivialSpec(engine: Engine, bus: Option<Connection>, destination: Option<string>, path: string,
                          interface: Option<string>, member: string, error: BusError,
                          kind: char, hasPtr: bool): (o: Fetch<Value>)
    ensures var g := EntryGuard(bus, NamesValid(engine, interface, member) && engine.typeIsTrivial(kind) && hasPtr,
                                engine.currentPid);
            g < 0 ==> o == Fetch(g, [], error, None)
    ensures o.events == [] || o.events == [Called(GetRequest(destination, path, interface, member))]
    ensures o.rc <= 0
    ensures o.value.Some? <==> o.rc == 0
    ensures o.value.Some? ==>
              var request := GetRequest(destination, path, interface, member);
              o.events == [Called(request)]
              && engine.enterContainer(request, 'v', Some([kind])) >= 0
              && engine.readBasic(request, kind).status >= 0
              && o.value.value == engine.readBasic(request, kind).value
    ensures var g := EntryGuard(bus, NamesValid(engine, interface, member) && engine.typeIsTrivial(kind) && hasPtr, engine.currentPid);
            var c := GetCall(engine, bus, destination, path, interface, member, error);
            g == 0 ==> o.error == c.error && o.events == c.events && (c.rc < 0 ==> o.rc == c.rc && o.value.None?)
    ensures var g := EntryGuard(bus, NamesValid(engine, interface, member) && engine.typeIsTrivial(kind) && hasPtr, engine.currentPid);
            var c := GetCall(engine, bus, destination, path, interface, member, error);
            var request := GetRequest(destination, path, interface, member);
            g == 0 && c.rc >= 0 && engine.enterContainer(request, 'v', Some([kind])) < 0 ==>
              o.rc == engine.enterContainer(request, 'v', Some([kind])) && o.value.None?
    ensures var g := EntryGuard(bus, NamesValid(engine, interface, member) && engine.typeIsTrivial(kind) && hasPtr,
                                engine.currentPid);
            var c := GetCall(engine, bus, destination, path, interface, member, error);
            var request := GetRequest(destination, path, interface, member);
            g == 0 && c.rc >= 0 && engine.enterContainer(request, 'v', Some([kind])) >= 0 ==>
              var read := engine.readBasic(request, kind);
              (read.status < 0 ==> o.rc == read.status && o.value.None?)
              && (read.status >= 0 ==> o.rc == 0 && o.value == Some(read.value))
  {
    var g := EntryGuard(bus, NamesValid(engine, interface, member) && engine.typeIsTrivial(kind) && hasPtr,
                        engine.currentPid);
    if g < 0 then Fetch(g, [], error, None)
    else
      var c := GetCall(engine, bus, destination, path, interface, member, error);
      if c.rc < 0 then Fetch(c.rc, c.events, c.error, None)
      else
        var request := GetRequest(destination, path, interface, member);
        var e := engine.enterContainer(request, 'v', Some([kind]));
        if e < 0 then Fetch(e, c.events, c.error, None)
        else
          var read := engine.readBasic(request, kind);
          if read.status < 0 then Fetch(read.status, c.events, c.error, None)
          else Fetch(0, c.events, c.error, Some(read.value))
  }

  method GetPropertyTrivial(t: Transport, bus: Option<Connection>, destination: Option<string>, path: string,
                            interface: Option<string>, member: string, error: BusError,
                            kind: char, hasPtr: bool)
    returns (r: int, errorOut: BusError, value: Option<Value>, ghost received: Reply?)
    modifies t
    ensures var o := GetTrivialSpec(t.engine, bus, destination, path, interface, member, error, kind, hasPtr);
            r == o.rc && errorOut == o.error && value == o.value && t.trace == old(t.trace) + o.events
    ensures var o := GetTrivialSpec(t.engine, bus, destination, path, interface, member, error, kind, hasPtr);
            received != null <==> o.events != [] && t.engine.call(o.events[0].message).status >= 0
    ensures received != null ==> fresh(received) && received.request == GetRequest(destination, path, interface, member)
    ensures received != null ==> received.released
  {
    errorOut, value, received := error, None, null;
    r := EntryGuard(bus, NamesValid(t.engine, interface, member) && t.engine.typeIsTrivial(kind) && hasPtr,
                    t.engine.currentPid);
    if r < 0 {
      return;
    }
    var reply: Reply?;
    r, errorOut, reply := CallMethod(t, bus, destination, path, Some(PROPERTIES_INTERFACE), GET_METHOD, error,
                                     Some("ss"), NameArguments(interface, member));
    received := reply;
    if r < 0 {
      return;
    }
    assert reply.request == GetRequest(destination, path, interface, member) by {
      assert t.trace[|old(t.trace)|] == Called(reply.request);
    }
    r := reply.EnterContainer('v', Some([kind]));
    if r < 0 {
      reply.Unref();
      return;
    }
    var v: Value;
    r, v := reply.ReadBasic(kind);
    if r < 0 {
      reply.Unref();
      return;
    }
    value := Some(v);
    reply.Unref();
    r := 0;
  }

  /** sd_bus_get_property_string: as the trivial getter with type 's', then
      the text is copied out of the reply; a failed copy gives -ENOMEM. */
  function GetStringSpec(engine: Engine, bus: Option<Connection>, destination: Option<string>, path: string,
                         interface: Option<string>, member: string, error: BusError, hasRet: bool): (o: Fetch<string>)
    ensures var g := EntryGuard(bus, NamesValid(engine, interface, member) && hasRet, engine.currentPid);
            g < 0 ==> o == Fetch(g, [], error, None)
    ensures o.events == [] || o.events == [Called(GetRequest(destination, path, interface, member))]
    ensures o.rc <= 0
    ensures o.value.Some? <==> o.rc == 0
    ensures o.value.Some? ==>
              var request := GetRequest(destination, path, interface, member);
              o.events == [Called(request)]
              && engine.enterContainer(request, 'v', Some("s")) >= 0
              && engine.readString(request).status >= 0
              && engine.strdupSucceeds
              && o.value.value == engine.readString(request).text
    ensures var g := EntryGuard(bus, NamesValid(engine, interface, member) && hasRet, engine.currentPid);
            var c := GetCall(engine, bus, destination, path, interface, member, error);
            g == 0 ==> o.error == c.error && o.events == c.events && (c.rc < 0 ==> o.rc == c.rc && o.value.None?)
    ensures var g := EntryGuard(bus, NamesValid(engine, interface, member) && hasRet, engine.currentPid);
            var c := GetCall(engine, bus, destination, path, interface, member, error);
            var request := GetRequest(destination, path, interface, member);
            g == 0 && c.rc >= 0 && engine.enterContainer(request, 'v', Some("s")) < 0 ==>
              o.rc == engine.enterContainer(request, 'v', Some("s")) && o.value.None?
    ensures var g := EntryGuard(bus, NamesValid(engine, interface, member) && hasRet, engine.currentPid);
            var c := GetCall(engine, bus, destination, path, interface, member, error);
            var request := GetRequest(destination, path, interface, member);
            g == 0 && c.rc >= 0 && engine.enterContainer(request, 'v', Some("s")) >= 0 ==>
              var read := engine.readString(request);
              (read.status < 0 ==> o.rc == read.status && o.value.None?)
              && (read.status >= 0 && !engine.strdupSucceeds ==> o.rc == -ENOMEM && o.value.None?)
              && (read.status >= 0 && engine.strdupSucceeds ==> o.rc == 0 && o.value == Some(read.text))
  {
    var g := EntryGuard(bus, NamesValid(engine, interface, member) && hasRet, engine.currentPid);
    if g < 0 then Fetch(g, [], error, None)
    else
      var c := GetCall(engine, bus, destination, path, interface, member, error);
      if c.rc < 0 then Fetch(c.rc, c.events, c.error, None)
      else
        var request := GetRequest(destination, path, interface, member);
        var e := engine.enterContainer(request, 'v', Some("s"));
        if e < 0 then Fetch(e, c.events, c.error, None)
        else
          var read := engine.readString(request);
          if read.status < 0 then Fetch(read.status, c.events, c.error, None)
          else if !engine.strdupSucceeds then Fetch(-ENOMEM, c.events, c.error, None)
          else Fetch(0, c.events, c.error, Some(read.text))
  }

  method GetPropertyString(t: Transport, bus: Option<Connection>, destination: Option<string>, path: string,
                           interface: Option<string>, member: string, error: BusError, hasRet: bool)
    returns (r: int, errorOut: BusError, text: Option<string>, ghost received: Reply?)
    modifies t
    ensures var o := GetStringSpec(t.engine, bus, destination, path, interface, member, error, hasRet);
            r == o.rc && errorOut == o.error && text == o.value && t.trace == old(t.trace) + o.events
    ensures var o := GetStringSpec(t.engine, bus, destination, path, interface, member, error, hasRet);
            received != null <==> o.events != [] && t.engine.call(o.events[0].message).status >= 0
    ensures received != null ==> fresh(received) && received.request == GetRequest(destination, path, interface, member)
    ensures received != null ==> received.released
  {
    errorOut, text, received := error, None, null;
    r := EntryGuard(bus, NamesValid(t.engine, interface, member) && hasRet, t.engine.currentPid);
    if r < 0 {
      return;
    }
    var reply: Reply?;
    r, errorOut, reply := CallMethod(t, bus, destination, path, Some(PROPERTIES_INTERFACE), GET_METHOD, error,
                                     Some("ss"), NameArguments(interface, member));
    received := reply;
    if r < 0 {
      return;
    }
    assert reply.request == GetRequest(destination, path, interface, member) by {
      assert t.trace[|old(t.trace)|] == Called(reply.request);
    }
    r := reply.EnterContainer('v', Some("s"));
    if r < 0 {
      reply.Unref();
      return;
    }
    var s: string;
    r, s := reply.ReadString();
    if r < 0 {
      reply.Unref();
      return;
    }
    if !t.engine.strdupSucceeds {
      reply.Unref();
      return -ENOMEM, errorOut, None, received;
    }
    // The copy is a value of its own: releasing the reply leaves it unchanged.
    text := Some(s);
    reply.Unref();
    r := 0;
  }

  /** sd_bus_get_property_strv: the variant is entered without a type
      constraint and the string array read out of it. */
  function GetStrvSpec(engine: Engine, bus: Option<Connection>, destination: Option<string>, path: string,
                       interface: Option<string>, member: string, error: BusError, hasRet: bool): (o: Fetch<seq<string>>)
    ensures var g := EntryGuard(bus, NamesValid(engine, interface, member) && hasRet, engine.currentPid);
            g < 0 ==> o == Fetch(g, [], error, None)
    ensures o.events == [] || o.events == [Called(GetRequest(destination, path, interface, member))]
    ensures o.rc <= 0
    ensures o.value.Some? <==> o.rc == 0
    ensures o.value.Some? ==>
              var request := GetRequest(destination, path, interface, member);
              o.events == [Called(request)]
              && engine.enterContainer(request, 'v', None) >= 0
              && engine.readStrv(request).status >= 0
              && o.value.value == engine.readStrv(request).strings
    ensures var g := EntryGuard(bus, NamesValid(engine, interface, member) && hasRet, engine.currentPid);
            var c := GetCall(engine, bus, destination, path, interface, member, error);
            g == 0 ==> o.error == c.error && o.events == c.events && (c.rc < 0 ==> o.rc == c.rc && o.value.None?)
    ensures var g := EntryGuard(bus, NamesValid(engine, interface, member) && hasRet, engine.currentPid);
            var c := GetCall(engine, bus, destination, path, interface, member, error);
            var request := GetRequest(destination, path, interface, member);
            g == 0 && c.rc >= 0 && engine.enterContainer(request, 'v', None) < 0 ==>
              o.rc == engine.enterContainer(request, 'v', None) && o.value.None?
    ensures var g := EntryGuard(bus, NamesValid(engine, interface, member) && hasRet, engine.currentPid);
            var c := GetCall(engine, bus, destination, path, interface, member, error);
            var request := GetRequest(destination, path, interface, member);
            g == 0 && c.rc >= 0 && engine.enterContainer(request, 'v', None) >= 0 ==>
              var read := engine.readStrv(request);
              (read.status < 0 ==> o.rc == read.status && o.value.None?)
              && (read.status >= 0 ==> o.rc == 0 && o.value == Some(read.strings))
  {
    var g := EntryGuard(bus, NamesValid(engine, interface, member) && hasRet, engine.currentPid);
    if g < 0 then Fetch(g, [], error, None)
    else
      var c := GetCall(engine, bus, destination, path, interface, member, error);
      if c.rc < 0 then Fetch(c.rc, c.events, c.error, None)
      else
        var request := GetRequest(destination, path, interface, member);
        var e := engine.enterContainer(request, 'v', None);
        if e < 0 then Fetch(e, c.events, c.error, None)
        else
          var read := engine.readStrv(request);
          if read.status < 0 then Fetch(read.status, c.events, c.error, None)
          else Fetch(0, c.events, c.error, Some(read.strings))
  }

  method GetPropertyStrv(t: Transport, bus: Option<Connection>, destination: Option<string>, path: string,
                         interface: Option<string>, member: string, error: BusError, hasRet: bool)
    returns (r: int, errorOut: BusError, strings: Option<seq<string>>, ghost received: Reply?)
    modifies t
    ensures var o := GetStrvSpec(t.engine, bus, destination, path, interface, member, error, hasRet);
            r == o.rc && errorOut == o.error && strings == o.value && t.trace == old(t.trace) + o.events
    ensures var o := GetStrvSpec(t.engine, bus, destination, path, interface, member, error, hasRet);
            received != null <==> o.events != [] && t.engine.call(o.events[0].message).status >= 0
    ensures received != null ==> fresh(received) && received.request == GetRequest(destination, path, interface, member)
    ensures received != null ==> received.released
  {
    errorOut, strings, received := error, None, null;
    r := EntryGuard(bus, NamesValid(t.engine, interface, member) && hasRet, t.engine.currentPid);
    if r < 0 {
      return;
    }
    var reply: Reply?;
    r, errorOut, reply := CallMethod(t, bus, destination, path, Some(PROPERTIES_INTERFACE), GET_METHOD, error,
                                     Some("ss"), NameArguments(interface, member));
    received := reply;
    if r < 0 {
      return;
    }
    assert reply.request == GetRequest(destination, path, interface, member) by {
      assert t.trace[|old(t.trace)|] == Called(reply.request);
    }
    r := reply.EnterContainer('v', None);
    if r < 0 {
      reply.Unref();
      return;
    }
    var v: seq<string>;
    r, v := reply.ReadStrv();
    if r < 0 {
      reply.Unref();
      return;
    }
    strings := Some(v);
    reply.Unref();
    r := 0;
  }

  /** sd_bus_set_property: once the checks pass, the Set call is built step
      by step and, when every step succeeds, dispatched exactly once; the
      reply is discarded and the caller's error changes only on failure. */
  function SetPropertySpec(engine: Engine, bus: Option<Connection>, destination: Option<string>, path: string,
                           interface: Option<string>, member: string, error: BusError,
                           signature: string, value: Value): (o: CallOutcome)
    ensures var g := EntryGuard(bus, NamesValid(engine, interface, member) && engine.signatureIsSingle(signature),
                                engine.currentPid);
            g < 0 ==> o == CallOutcome(g, [], error, false)
    ensures o.events == []
            || o.events == [Called(Wire(SetHeader(destination, path), SetBody(interface, member, signature, value)))]
    ensures o.events != [] <==>
              EntryGuard(bus, NamesValid(engine, interface, member) && engine.signatureIsSingle(signature),
                         engine.currentPid) == 0
              && Build(engine, SetHeader(destination, path), SetBody(interface, member, signature, value)).Built?
    ensures o.events == [] ==> o.rc < 0 && o.error == error
    ensures o.events != [] ==>
              var answer := engine.call(o.events[0].message);
              o.rc == answer.status && o.error == (if o.rc < 0 then answer.error else error)
    ensures !o.replied
  {
    var g := EntryGuard(bus, NamesValid(engine, interface, member) && engine.signatureIsSingle(signature),
                        engine.currentPid);
    if g < 0 then CallOutcome(g, [], error, false)
    else
      match Build(engine, SetHeader(destination, path), SetBody(interface, member, signature, value))
      case Failed(r) => CallOutcome(r, [], error, false)
      case Built(w) =>
        var answer := engine.call(w);
        CallOutcome(answer.status, [Called(w)], if answer.status < 0 then answer.error else error, false)
  }

  method SetProperty(t: Transport, bus: Option<Connection>, destination: Option<string>, path: string,
                     interface: Option<string>, member: string, error: BusError,
                     signature: string, value: Value)
    returns (r: int, errorOut: BusError, ghost received: Reply?)
    modifies t
    ensures var o := SetPropertySpec(t.engine, bus, destination, path, interface, member, error, signature, value);
            r == o.rc && errorOut == o.error && t.trace == old(t.trace) + o.events
    ensures var o := SetPropertySpec(t.engine, bus, destination, path, interface, member, error, signature, value);
            received != null <==> o.events != [] && t.engine.call(o.events[0].message).status >= 0
    ensures received != null ==> fresh(received) && received.request == Wire(SetHeader(destination, path), SetBody(interface, member, signature, value))
    ensures received != null ==> received.released
  {
    errorOut, received := error, null;
    r := EntryGuard(bus, NamesValid(t.engine, interface, member) && t.engine.signatureIsSingle(signature),
                    t.engine.currentPid);
    if r < 0 {
      return;
    }
    var m: Builder?;
    r, m := BuildSetCall(t.engine, destination, path, interface, member, signature, value);
    if r < 0 {
      return;
    }
    var reply: Reply?;
    r, errorOut, reply := t.Call(m.Snapshot(), error);
    received := reply;
    if reply != null {
      reply.Unref();
    }
  }

  /** The building half of sd_bus_set_property: create the Set call, append
      the names, open the variant, append the value, close the variant,
      stopping at the first step that fails. */
  method BuildSetCall(engine: Engine, destination: Option<string>, path: string,
                      interface: Option<string>, member: string, signature: string, value: Value)
    returns (r: int, m: Builder?)
    ensures var b := Build(engine, SetHeader(destination, path), SetBody(interface, member, signature, value));
            (b.Failed? <==> r < 0) && (b.Failed? ==> r == b.status)
            && (b.Built? ==> m != null && fresh(m) && m.Snapshot() == b.message)
  {
    SetBodyStatus(engine, interface, member, signature, value);
    var header := SetHeader(destination, path);
    r, m := NewMessage(header, engine);
    if r < 0 {
      return;
    }
    r := m.Append("ss", NameArguments(interface, member));
    if r < 0 {
      return;
    }
    r := m.OpenContainer('v', signature);
    if r < 0 {
      return;
    }
    r := m.Append(signature, [value]);
    if r < 0 {
      return;
    }
    r := m.CloseContainer();
    if r < 0 {
      return;
    }
    assert m.body == SetBody(interface, member, signature, value);
  }

  /** Marshaling the Set body returns the status of its first failing step,
      in the order names, open variant, value, close variant. */
  lemma {:induction false} SetBodyStatus(engine: Engine, interface: Option<string>, member: string,
                                         signature: string, value: Value)
    ensures Marshal(engine, SetBody(interface, member, signature, value))
            == var names := engine.append("ss", NameArguments(interface, member));
               var open := engine.openContainer('v', signature);
               var put := engine.append(signature, [value]);
               if names < 0 then names
               else if open < 0 then open
               else if put < 0 then put
               else if engine.closeContainer < 0 then engine.closeContainer
               else 0
  {
    var items := SetBody(interface, member, signature, value);
    var tail1 := [Open('v', signature), Put(signature, [value]), Close];
    var tail2 := [Put(signature, [value]), Close];
    var tail3 := [Close];
    assert items[1..] == tail1 && tail1[1..] == tail2 && tail2[1..] == tail3 && tail3[1..] == [];
    assert Marshal(engine, tail3) == if engine.closeContainer < 0 then engine.closeContainer else 0;
    assert Marshal(engine, tail2) == if ItemStatus(engine, tail2[0]) < 0 then ItemStatus(engine, tail2[0])
                                     else Marshal(engine, tail3);
    assert Marshal(engine, tail1) == if ItemStatus(engine, tail1[0]) < 0 then ItemStatus(engine, tail1[0])
                                     else Marshal(engine, tail2);
    assert Marshal(engine, items) == if ItemStatus(engine, items[0]) < 0 then ItemStatus(engine, items[0])
                                     else Marshal(engine, tail1);
  }

  /** The Set payload is (interface, member) followed by exactly one variant,
      tagged with the value's own signature and closed again. */
  lemma {:induction false} SetPayloadWrapsOneVariant(interface: Option<string>, member: string, signature: string, value: Value)
    ensures Balanced(SetBody(interface, member, signature, value))
    ensures VariantCount(SetBody(interface, member, signature, value)) == 1
    ensures SetBody(interface, member, signature, value)[1] == Open('v', signature)
    ensures SetBody(interface, member, signature, value)[2] == Put(signature, [value])
  {
    var head := Put("ss", NameArguments(interface, member));
    Snoc([], head);
    assert [] + [head] == [head];
    WrapInVariant([head], signature, [value]);
    assert [head] + [Open('v', signature), Put(signature, [value]), Close] == SetBody(interface, member, signature, value);
  }

  /** The steps of sd_bus_set_property fail in source order: the code
      returned is that of the first of create, append "ss", open the
      variant, append the value, close the variant that fails, and nothing
      is called then. */
  lemma SetPropertyStepOrder(engine: Engine, bus: Option<Connection>, destination: Option<string>, path: string,
                             interface: Option<string>, member: string, error: BusError,
                             signature: string, value: Value)
    requires EntryGuard(bus, NamesValid(engine, interface, member) && engine.signatureIsSingle(signature),
                        engine.currentPid) == 0
    ensures var o := SetPropertySpec(engine, bus, destination, path, interface, member, error, signature, value);
            var create := engine.newMessage(SetHeader(destination, path));
            var names := engine.append("ss", NameArguments(interface, member));
            var open := engine.openContainer('v', signature);
            var put := engine.append(signature, [value]);
            var close := engine.closeContainer;
            (if create < 0 then o.rc == create && o.events == []
             else if names < 0 then o.rc == names && o.events == []
             else if open < 0 then o.rc == open && o.events == []
             else if put < 0 then o.rc == put && o.events == []
             else if close < 0 then o.rc == close && o.events == []
             else |o.events| == 1 && o.events[0].Called?)
  {
    SetBodyStatus(engine, interface, member, signature, value);
  }

  /** Every getter issues exactly one Properties.Get with (interface, member)
      once its checks pass and the call message can be built. */
  lemma GettersCallGetOnce(engine: Engine, bus: Option<Connection>, destination: Option<string>, path: string,
                           interface: Option<string>, member: string, error: BusError, signature: string, kind: char)
    requires EntryGuard(bus, NamesValid(engine, interface, member), engine.currentPid) == 0
    requires engine.signatureIsSingle(signature) && engine.typeIsTrivial(kind)
    requires engine.newMessage(GetRequest(destination, path, interface, member).header) >= 0
    requires engine.append("ss", NameArguments(interface, member)) >= 0
    ensures GetPropertySpec(engine, bus, destination, path, interface, member, error, true, signature).events
            == [Called(GetRequest(destination, path, interface, member))]
    ensures GetTrivialSpec(engine, bus, destination, path, interface, member, error, kind, true).events
            == [Called(GetRequest(destination, path, interface, member))]
    ensures GetStringSpec(engine, bus, destination, path, interface, member, error, true).events
            == [Called(GetRequest(destination, path, interface, member))]
    ensures GetStrvSpec(engine, bus, destination, path, interface, member, error, true).events
            == [Called(GetRequest(destination, path, interface, member))]
  {
  }

  /** Reading a uint32 property that the peer answers with variant<uint32>(42):
      the getter returns 0, stores 42 and leaves the caller's error alone. */
  lemma Uint32PropertyScenario(engine: Engine, bus: Connection, destination: string, path: string,
                               interface: string, member: string)
    requires bus.isOpen && bus.originalPid == engine.currentPid
    requires NamesValid(engine, Some(interface), member) && engine.typeIsTrivial('u')
    requires var request := GetRequest(Some(destination), path, Some(interface), member);
             engine.newMessage(request.header) >= 0 && engine.append("ss", NameArguments(Some(interface), member)) >= 0
             && engine.call(request).status >= 0
             && engine.enterContainer(request, 'v', Some("u")) >= 0
             && engine.readBasic(request, 'u') == Readout(1, UInt32(42))
    ensures GetTrivialSpec(engine, Some(bus), Some(destination), path, Some(interface), member, ERROR_NULL, 'u', true)
            == Fetch(0, [Called(GetRequest(Some(destination), path, Some(interface), member))], ERROR_NULL, Some(UInt32(42)))
  {
  }

  /** The same peer seen through sd_bus_get_property: the reply comes back
      positioned inside the variant, and reading a uint32 from it gives 42. */
  lemma Uint32PositionedReplyScenario(engine: Engine, bus: Connection, destination: string, path: string,
                                      interface: string, member: string)
    requires bus.isOpen && bus.originalPid == engine.currentPid
    requires NamesValid(engine, Some(interface), member) && engine.signatureIsSingle("u")
    requires var request := GetRequest(Some(destination), path, Some(interface), member);
             engine.newMessage(request.header) >= 0 && engine.append("ss", NameArguments(Some(interface), member)) >= 0
             && engine.call(request).status >= 0
             && engine.enterContainer(request, 'v', Some("u")) >= 0
             && engine.readBasic(request, 'u') == Readout(1, UInt32(42))
    ensures var o := GetPropertySpec(engine, Some(bus), Some(destination), path, Some(interface), member, ERROR_NULL, true, "u");
            o.rc == 0 && o.error == ERROR_NULL && o.value.Some?
            && engine.readBasic(o.value.value, 'u') == Readout(1, UInt32(42))
  {
  }
}
