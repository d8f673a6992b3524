/**
 Emitting a signal and making a blocking method call: the checks, then the
 message built step by step, then one send or one call.
 */
module Calls {
  import opened Wrappers
  import opened BusTypes
  import opened Validation
  import opened Messages

  /** What bus_message_append_ap adds for a types string and its values:
      nothing at all when the types string is NULL or empty. */
  function Arguments(types: Option<string>, values: seq<Value>): seq<Item> {
    if IsEmpty(types) then [] else [Put(types.value, values)]
  }

  /** Building a message with the arguments: with a NULL or empty types
      string the marshaler is never consulted and the body is empty;
      otherwise one append decides, after the message was created. */
  lemma ArgumentsBuild(engine: Engine, header: Header, types: Option<string>, values: seq<Value>)
    ensures IsEmpty(types) ==>
              Build(engine, header, Arguments(types, values))
              == if engine.newMessage(header) < 0 then Failed(engine.newMessage(header)) else Built(Wire(header, []))
    ensures !IsEmpty(types) ==>
              Build(engine, header, Arguments(types, values))
              == if engine.newMessage(header) < 0 then Failed(engine.newMessage(header))
                 else if engine.append(types.value, values) < 0 then Failed(engine.append(types.value, values))
                 else Built(Wire(header, [Put(types.value, values)]))
  {
    if !IsEmpty(types) {
      var items := Arguments(types, values);
      assert items[1..] == [];
      assert Marshal(engine, items) == if engine.append(types.value, values) < 0 then engine.append(types.value, values) else 0;
    }
  }

  /** A signal header; a NULL interface is passed on to the constructor as None. */
  function SignalHeader(path: string, interface: Option<string>, member: string): Header {
    Header(Signal, None, Some(path), interface, Some(member), None, None)
  }

  function MethodCallHeader(destination: Option<string>, path: string, interface: Option<string>, member: string): Header {
    Header(MethodCall, destination, Some(path), interface, Some(member), None, None)
  }

  /** The observable result of an operation: its return code and what the transport saw. */
  datatype Outcome = Outcome(rc: int, events: seq<Event>)

  /** The result of a method call, with the caller's error afterwards and
      whether a reply message was handed back. */
  datatype CallOutcome = CallOutcome(rc: int, events: seq<Event>, error: BusError, replied: bool)

  /** sd_bus_emit_signal: nothing is built or sent unless every check passes;
      otherwise at most one send, of the signal with exactly the given arguments. */
  function EmitSignalSpec(engine: Engine, bus: Option<Connection>, path: string, interface: Option<string>,
                          member: string, types: Option<string>, values: seq<Value>): (o: Outcome)
    ensures EntryGuard(bus, true, engine.currentPid) < 0 ==>
              o == Outcome(EntryGuard(bus, true, engine.currentPid), [])
    ensures o.events == [] || o.events == [Sent(Wire(SignalHeader(path, interface, member), Arguments(types, values)))]
    ensures o.events != [] <==>
              EntryGuard(bus, true, engine.currentPid) == 0
              && Build(engine, SignalHeader(path, interface, member), Arguments(types, values)).Built?
    ensures o.events == [] ==> o.rc < 0
    ensures EntryGuard(bus, true, engine.currentPid) == 0
            && Build(engine, SignalHeader(path, interface, member), Arguments(types, values)).Failed? ==>
              o.rc == Build(engine, SignalHeader(path, interface, member), Arguments(types, values)).status
    ensures o.events != [] ==> o.rc == engine.send(o.events[0].message)
  {
    var g := EntryGuard(bus, true, engine.currentPid);
    if g < 0 then Outcome(g, [])
    else
      match Build(engine, SignalHeader(path, interface, member), Arguments(types, values))
      case Failed(r) => Outcome(r, [])
      case Built(w) => Outcome(engine.send(w), [Sent(w)])
  }

  method EmitSignal(t: Transport, bus: Option<Connection>, path: string, interface: Option<string>,
                    member: string, types: Option<string>, values: seq<Value>) returns (r: int)
    modifies t
    ensures r == EmitSignalSpec(t.engine, bus, path, interface, member, types, values).rc
    ensures t.trace == old(t.trace) + EmitSignalSpec(t.engine, bus, path, interface, member, types, values).events
  {
    r := EntryGuard(bus, true, t.engine.currentPid);
    if r < 0 {
      return;
    }
    var m: Builder?;
    r, m := NewMessage(SignalHeader(path, interface, member), t.engine);
    if r < 0 {
      return;
    }
    if !IsEmpty(types) {
      r := m.Append(types.value, values);
      if r < 0 {
        return;
      }
    }
    r := t.Send(m.Snapshot());
  }

  /** sd_bus_call_method: nothing is built or called unless every check
      passes; otherwise at most one blocking call, of the method call with
      exactly the given arguments. The caller's error changes only when that
      call fails, and a reply comes back exactly when it succeeds. */
  function CallMethodSpec(engine: Engine, bus: Option<Connection>, destination: Option<string>, path: string,
                          interface: Option<string>, member: string, error: BusError,
                          types: Option<string>, values: seq<Value>): (o: CallOutcome)
    ensures EntryGuard(bus, true, engine.currentPid) < 0 ==>
              o == CallOutcome(EntryGuard(bus, true, engine.currentPid), [], error, false)
    ensures o.events == []
            || o.events == [Called(Wire(MethodCallHeader(destination, path, interface, member), Arguments(types, values)))]
    ensures o.events != [] <==>
              EntryGuard(bus, true, engine.currentPid) == 0
              && Build(engine, MethodCallHeader(destination, path, interface, member), Arguments(types, values)).Built?
    ensures o.events == [] ==> o.rc < 0 && o.error == error && !o.replied
    ensures EntryGuard(bus, true, engine.currentPid) == 0
            && Build(engine, MethodCallHeader(destination, path, interface, member), Arguments(types, values)).Failed? ==>
              o.rc == Build(engine, MethodCallHeader(destination, path, interface, member), Arguments(types, values)).status
    ensures o.events != [] ==>
              var answer := engine.call(o.events[0].message);
              o.rc == answer.status && o.error == (if o.rc < 0 then answer.error else error)
    ensures o.replied <==> o.rc >= 0
  {
    var g := EntryGuard(bus, true, engine.currentPid);
    if g < 0 then CallOutcome(g, [], error, false)
    else
      match Build(engine, MethodCallHeader(destination, path, interface, member), Arguments(types, values))
      case Failed(r) => CallOutcome(r, [], error, false)
      case Built(w) =>
        var answer := engine.call(w);
        CallOutcome(answer.status, [Called(w)], if answer.status < 0 then answer.error else error, answer.status >= 0)
  }

  method CallMethod(t: Transport, bus: Option<Connection>, destination: Option<string>, path: string,
                    interface: Option<string>, member: string, error: BusError,
                    types: Option<string>, values: seq<Value>)
    returns (r: int, errorOut: BusError, reply: Reply?)
    modifies t
    ensures var o := CallMethodSpec(t.engine, bus, destination, path, interface, member, error, types, values);
            r == o.rc && errorOut == o.error && (reply != null <==> o.replied)
            && t.trace == old(t.trace) + o.events
    ensures reply != null ==>
              fresh(reply) && reply.engine == t.engine && reply.entered == [] && !reply.released
              && t.trace == old(t.trace) + [Called(reply.request)]
  {
    errorOut, reply := error, null;
    r := EntryGuard(bus, true, t.engine.currentPid);
    if r < 0 {
      return;
    }
    var m: Builder?;
    r, m := NewMessage(MethodCallHeader(destination, path, interface, member), t.engine);
    if r < 0 {
      return;
    }
    if !IsEmpty(types) {
      r := m.Append(types.value, values);
      if r < 0 {
        return;
      }
    }
    r, errorOut, reply := t.Call(m.Snapshot(), error);
  }
}
